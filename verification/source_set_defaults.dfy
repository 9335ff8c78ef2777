/** The deferred (after-evaluation) work done for each source set: the MapStruct rule,
    the `lombok.config` snapshot, and one compatibility check per applied plugin. */
module SourceSetDefaults {
  import opened Wrappers
  import opened Strings
  import opened Gradle
  import Mapstruct
  import LombokConfig
  import ConfigCheck

  /** What the deferred work reads from outside the plugin: which directories exist, what
      the `lombok config` query prints for each, and which plugins are applied. */
  datatype Environment = Environment(existing: set<Path>, query: Path -> string, plugins: Plugins)

  /** The warnings the deferred work of `sourceSet` should emit. */
  ghost function ExpectedWarnings(sourceSet: SourceSet, env: Environment): multiset<ConfigCheck.Warning> {
    ConfigCheck.AllWarnings(sourceSet.name, LombokConfig.Snapshot(sourceSet.srcDirs, env.existing, env.query),
                            env.existing, ConfigCheck.ExpectedSettings(env.plugins))
  }

  /** The after-evaluation callback of one source set: the MapStruct declaration, if the
      rule fires, and the warnings of every check the applied plugins ask for. */
  method AfterEvaluate(sourceSet: SourceSet, processorDeps: seq<Dependency>, env: Environment)
    returns (additions: seq<Addition>, warnings: seq<ConfigCheck.Warning>)
    ensures |additions| <= 1
    ensures |additions| == 1 <==> Mapstruct.NeedsBinding(processorDeps)
    ensures |additions| == 1 ==> additions[0] == Addition(sourceSet.annotationProcessorConfiguration, Mapstruct.BindingNotation)
    ensures multiset(warnings) == ExpectedWarnings(sourceSet, env)
  {
    var added := Mapstruct.HandleMapstructSupport(sourceSet, processorDeps);
    additions := if added.Some? then [added.value] else [];

    var configs := LombokConfig.Snapshot(sourceSet.srcDirs, env.existing, env.query);
    warnings := CheckAll(sourceSet.name, configs, env.existing, ConfigCheck.ExpectedSettings(env.plugins));
  }

  /** Runs the checks one after another, as the plugin callbacks do, and collects every
      warning they emit. */
  method CheckAll(sourceSet: string, configs: map<Path, Option<string>>, existing: set<Path>, checks: seq<string>)
    returns (warnings: seq<ConfigCheck.Warning>)
    ensures multiset(warnings) == ConfigCheck.AllWarnings(sourceSet, configs, existing, checks)
  {
    warnings := [];
    var k := 0;
    while k < |checks|
      invariant 0 <= k <= |checks|
      invariant multiset(warnings) + ConfigCheck.AllWarnings(sourceSet, configs, existing, checks[k..])
                == ConfigCheck.AllWarnings(sourceSet, configs, existing, checks)
    {
      var found := ConfigCheck.CheckLombokConfig(sourceSet, configs, existing, checks[k]);
      assert checks[k..][1..] == checks[k + 1..];
      warnings := warnings + found;
      k := k + 1;
    }
  }

  /** End to end: a source directory is warned about for a setting exactly as many times as
      the applied plugins check that setting, when the directory exists and its query output
      is the sentinel or lacks the setting; otherwise never. */
  lemma {:induction false} WarningFromQueryOutput(sourceSet: SourceSet, env: Environment, expected: string, d: Path)
    requires d in sourceSet.srcDirs
    ensures ExpectedWarnings(sourceSet, env)[ConfigCheck.Warning(expected, d, sourceSet.name)]
            == if d in env.existing && (IsPrefix(LombokConfig.NoConfigSentinel, env.query(d)) || !IsSubstring(expected, env.query(d)))
               then multiset(ConfigCheck.ExpectedSettings(env.plugins))[expected]
               else 0
  {
    var configs := LombokConfig.Snapshot(sourceSet.srcDirs, env.existing, env.query);
    ConfigCheck.WarningMultiplicity(sourceSet.name, configs, env.existing, ConfigCheck.ExpectedSettings(env.plugins),
                                    ConfigCheck.Warning(expected, d, sourceSet.name));
  }

  /** The worked example: the `main` source set's one directory has a config without the
      generated-annotation setting and only JaCoCo is applied, so exactly one warning is
      emitted, naming that directory and that setting. */
  lemma MainWithoutGeneratedAnnotationWarnsOnce(query: Path -> string)
    requires query("src/main/java") == "config.stopBubbling = true"
    ensures ExpectedWarnings(
              SourceSet("main", "java", {"src/main/java"}, "compileOnly", "annotationProcessor"),
              Environment({"src/main/java"}, query, Plugins(true, true, false, false)))
            == multiset{ConfigCheck.Warning(ConfigCheck.GeneratedAnnotationSetting, "src/main/java", "main")}
  {
    var sourceSet := SourceSet("main", "java", {"src/main/java"}, "compileOnly", "annotationProcessor");
    var env := Environment({"src/main/java"}, query, Plugins(true, true, false, false));
    var configs := LombokConfig.Snapshot(sourceSet.srcDirs, env.existing, env.query);
    var checks := ConfigCheck.ExpectedSettings(env.plugins);
    assert checks == [ConfigCheck.GeneratedAnnotationSetting];
    var expected := multiset{ConfigCheck.Warning(ConfigCheck.GeneratedAnnotationSetting, "src/main/java", "main")};
    assert !IsSubstring(ConfigCheck.GeneratedAnnotationSetting, "config.stopBubbling = true");
    forall w
      ensures ExpectedWarnings(sourceSet, env)[w] == expected[w]
    {
      ConfigCheck.WarningMultiplicity(sourceSet.name, configs, env.existing, checks, w);
    }
  }
}
