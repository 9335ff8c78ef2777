/** The compatibility check of each source directory's `lombok.config` against the setting
    a companion plugin needs, and which settings are checked for which plugins. */
module ConfigCheck {
  import opened Wrappers
  import opened Strings
  import opened Gradle

  /** Needed by JaCoCo so that generated code is excluded from coverage. */
  const GeneratedAnnotationSetting := "lombok.addLombokGeneratedAnnotation = true"

  /** SpotBugs and SonarQube each check this setting. */
  const SuppressFBWarningsSetting := "lombok.extern.findbugs.addSuppressFBWarnings = true"

  /** "'<expected>' is not configured for '<dir>' of the <sourceSet> source-set". */
  datatype Warning = Warning(expected: string, dir: Path, sourceSet: string)

  /** Directory `d` of the snapshot lacks the `expected` setting: it exists, and its config
      is absent or does not contain the setting. */
  ghost predicate Lacks(configs: map<Path, Option<string>>, existing: set<Path>, expected: string, d: Path) {
    d in configs && d in existing && (configs[d].None? || !IsSubstring(expected, configs[d].value))
  }

  /** The warnings one check should emit for the directories in `dirs`. */
  ghost function WarningsAmong(sourceSet: string, configs: map<Path, Option<string>>, existing: set<Path>,
                               expected: string, dirs: set<Path>): set<Warning>
  {
    set d | d in dirs && Lacks(configs, existing, expected, d) :: Warning(expected, d, sourceSet)
  }

  lemma AddWarning(ws: set<Warning>, w: Warning)
    requires w !in ws
    ensures multiset(ws + {w}) == multiset(ws) + multiset{w}
  {
  }

  /** `checkLombokConfig`: visits the snapshot in no particular order and emits one warning
      per directory lacking the setting, and no other warning. */
  method CheckLombokConfig(sourceSet: string, configs: map<Path, Option<string>>, existing: set<Path>, expected: string)
    returns (warnings: seq<Warning>)
    ensures multiset(warnings) == multiset(WarningsAmong(sourceSet, configs, existing, expected, configs.Keys))
  {
    warnings := [];
    var remaining := configs.Keys;
    while remaining != {}
      invariant remaining <= configs.Keys
      invariant multiset(warnings) == multiset(WarningsAmong(sourceSet, configs, existing, expected, configs.Keys - remaining))
      decreases remaining
    {
      var dir :| dir in remaining;
      ghost var before := WarningsAmong(sourceSet, configs, existing, expected, configs.Keys - remaining);
      ghost var after := WarningsAmong(sourceSet, configs, existing, expected, configs.Keys - (remaining - {dir}));
      if dir in existing && (configs[dir].None? || !Contains(configs[dir].value, expected)) {
        assert after == before + {Warning(expected, dir, sourceSet)};
        AddWarning(before, Warning(expected, dir, sourceSet));
        warnings := warnings + [Warning(expected, dir, sourceSet)];
      } else {
        assert after == before;
      }
      remaining := remaining - {dir};
    }
  }

  /** A directory is warned about by a check iff it exists and lacks the setting; a missing
      directory never is, and no directory is warned about twice. */
  lemma {:induction false} WarnedIffLacking(sourceSet: string, configs: map<Path, Option<string>>, existing: set<Path>,
                                            expected: string, d: Path)
    ensures Warning(expected, d, sourceSet) in WarningsAmong(sourceSet, configs, existing, expected, configs.Keys)
            <==> d in configs && d in existing && (configs[d].None? || !IsSubstring(expected, configs[d].value))
    ensures d !in existing ==> forall w | w in WarningsAmong(sourceSet, configs, existing, expected, configs.Keys) :: w.dir != d
    ensures multiset(WarningsAmong(sourceSet, configs, existing, expected, configs.Keys))[Warning(expected, d, sourceSet)] <= 1
  {
    var ws := WarningsAmong(sourceSet, configs, existing, expected, configs.Keys);
    if Lacks(configs, existing, expected, d) {
      assert Warning(expected, d, sourceSet) in ws;
    }
  }

  /** The settings checked, one check per applied plugin. JaCoCo wants generated code
      annotated; SpotBugs and SonarQube each want SpotBugs warnings suppressed. */
  function ExpectedSettings(plugins: Plugins): (r: seq<string>)
    ensures |r| == (if plugins.jacoco then 1 else 0) + (if plugins.spotbugs then 1 else 0) + (if plugins.sonarqube then 1 else 0)
    ensures multiset(r)[GeneratedAnnotationSetting] == if plugins.jacoco then 1 else 0
    ensures multiset(r)[SuppressFBWarningsSetting] == (if plugins.spotbugs then 1 else 0) + (if plugins.sonarqube then 1 else 0)
  {
    (if plugins.jacoco then [GeneratedAnnotationSetting] else [])
    + (if plugins.spotbugs then [SuppressFBWarningsSetting] else [])
    + (if plugins.sonarqube then [SuppressFBWarningsSetting] else [])
  }

  /** All warnings of a source set, one independent check per expected setting. */
  ghost function AllWarnings(sourceSet: string, configs: map<Path, Option<string>>, existing: set<Path>,
                             checks: seq<string>): multiset<Warning>
  {
    if |checks| == 0 then multiset{}
    else multiset(WarningsAmong(sourceSet, configs, existing, checks[0], configs.Keys))
         + AllWarnings(sourceSet, configs, existing, checks[1..])
  }

  /** A warning is emitted once for each check of its setting when its directory lacks the
      setting, and never otherwise. */
  lemma {:induction false} WarningMultiplicity(sourceSet: string, configs: map<Path, Option<string>>, existing: set<Path>,
                                               checks: seq<string>, w: Warning)
    ensures AllWarnings(sourceSet, configs, existing, checks)[w]
            == if w.sourceSet == sourceSet && Lacks(configs, existing, w.expected, w.dir) then multiset(checks)[w.expected] else 0
  {
    if |checks| > 0 {
      WarningMultiplicity(sourceSet, configs, existing, checks[1..], w);
      assert checks == [checks[0]] + checks[1..];
      assert multiset(checks) == multiset{checks[0]} + multiset(checks[1..]);
      var ws := WarningsAmong(sourceSet, configs, existing, checks[0], configs.Keys);
      if w.sourceSet == sourceSet && w.expected == checks[0] && Lacks(configs, existing, w.expected, w.dir) {
        assert w in ws;
      } else {
        assert w !in ws;
      }
    }
  }

  /** With both SpotBugs and SonarQube applied, a directory lacking the suppression
      setting is warned about twice, once by each plugin's check. */
  lemma SuppressionWarnedPerPlugin(sourceSet: string, configs: map<Path, Option<string>>, existing: set<Path>,
                                   plugins: Plugins, d: Path)
    requires Lacks(configs, existing, SuppressFBWarningsSetting, d)
    ensures AllWarnings(sourceSet, configs, existing, ExpectedSettings(plugins))[Warning(SuppressFBWarningsSetting, d, sourceSet)]
            == (if plugins.spotbugs then 1 else 0) + (if plugins.sonarqube then 1 else 0)
  {
    WarningMultiplicity(sourceSet, configs, existing, ExpectedSettings(plugins), Warning(SuppressFBWarningsSetting, d, sourceSet));
  }
}
