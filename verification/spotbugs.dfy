/** SpotBugs support: resolving the SpotBugs version, the one-time guard that makes the
    SpotBugs and SonarQube triggers wire the SpotBugs annotations at most once, and the
    dependencies that wiring declares. */
module SpotBugs {
  import opened Wrappers
  import opened Gradle

  /** The version used when the SpotBugs plugin is not applied. */
  const SpotBugsDefaultVersion := "4.1.3"

  const AnnotationsGroup := "com.github.spotbugs"
  const AnnotationsName := "spotbugs-annotations"

  /** A value found in a dynamically shaped extension: a `Property<String>`, set or
      unset, or something that is not a property at all. */
  datatype PropertyValue = StringProperty(value: Option<string>) | OtherValue

  /** The shapes the `spotbugs` extension can take, as far as version resolution is
      concerned. */
  datatype SpotBugsExtension =
    | PluginAbsent
    | CodeQuality(toolVersion: string)
    | PropertyBag(properties: map<string, PropertyValue>)

  /** Why a dynamically shaped extension yields no version. */
  datatype VersionError = MissingProperty | NotAProperty | UnsetProperty

  /** `resolveSpotBugVersion`: the default when the plugin is absent, the typed
      `toolVersion` of a code-quality extension, else the dynamic `toolVersion` property. */
  function ResolveSpotBugVersion(ext: SpotBugsExtension): (r: Result<string, VersionError>)
    ensures r.Failure? ==> ext.PropertyBag?
  {
    match ext
    case PluginAbsent => Success(SpotBugsDefaultVersion)
    case CodeQuality(v) => Success(v)
    case PropertyBag(props) =>
      if "toolVersion" !in props then Failure(MissingProperty)
      else match props["toolVersion"]
        case OtherValue => Failure(NotAProperty)
        case StringProperty(None) => Failure(UnsetProperty)
        case StringProperty(Some(v)) => Success(v)
  }

  /** The version an applied plugin declares through its extension, when it declares one. */
  function DeclaredVersion(ext: SpotBugsExtension): Option<string> {
    match ext
    case PluginAbsent => None
    case CodeQuality(v) => Some(v)
    case PropertyBag(props) =>
      if "toolVersion" in props && props["toolVersion"].StringProperty? then props["toolVersion"].value
      else None
  }

  /** Resolution succeeds exactly when the plugin is absent or declares a version; the
      default is used only for an absent plugin, and a declared version always wins. */
  lemma {:induction false} VersionFallbackChain(ext: SpotBugsExtension)
    ensures ext.PluginAbsent? ==> ResolveSpotBugVersion(ext) == Success(SpotBugsDefaultVersion)
    ensures !ext.PluginAbsent? ==> (ResolveSpotBugVersion(ext).Success? <==> DeclaredVersion(ext).Some?)
    ensures !ext.PluginAbsent? && DeclaredVersion(ext).Some? ==> ResolveSpotBugVersion(ext) == Success(DeclaredVersion(ext).value)
  {
    match ext
    case PluginAbsent =>
    case CodeQuality(v) =>
    case PropertyBag(props) =>
  }

  /** The dynamic bag is read only when the extension is not a code-quality extension, and
      a malformed bag is an error rather than a fall-back to the default. */
  lemma MalformedBagIsError(props: map<string, PropertyValue>)
    requires "toolVersion" !in props || props["toolVersion"] == OtherValue || props["toolVersion"] == StringProperty(None)
    ensures ResolveSpotBugVersion(PropertyBag(props)).Failure?
  {
  }

  /** What triggers the wiring: the SpotBugs or the SonarQube plugin being applied. */
  datatype Trigger = SpotBugsApplied | SonarQubeApplied

  /** The plugin's one-time flag together with the number of wirings it has scheduled. */
  datatype WiringState = WiringState(spotbugConfigured: bool, scheduledWirings: nat)

  const InitialWiring := WiringState(false, 0)

  /** The guard keeps the flag and the schedule in step: one wiring once the flag is set,
      none before. */
  predicate GuardInvariant(s: WiringState) {
    s.scheduledWirings == if s.spotbugConfigured then 1 else 0
  }

  /** `configureForSpotbugs`: the first call sets the flag and schedules the wiring; every
      later call leaves the state as it is. */
  function ConfigureForSpotbugs(s: WiringState): (r: WiringState)
    ensures r.spotbugConfigured
    ensures GuardInvariant(s) ==> GuardInvariant(r)
    ensures s.spotbugConfigured ==> r == s
  {
    if s.spotbugConfigured then s
    else WiringState(true, s.scheduledWirings + 1)
  }

  /** The state after the triggers fire, in the order given: the flag is set iff it was
      already set or some trigger fired, and the guard keeps flag and schedule in step. */
  function Fire(s: WiringState, triggers: seq<Trigger>): (r: WiringState)
    ensures r.spotbugConfigured <==> s.spotbugConfigured || |triggers| > 0
    ensures GuardInvariant(s) ==> GuardInvariant(r)
    decreases |triggers|
  {
    if |triggers| == 0 then s
    else Fire(ConfigureForSpotbugs(s), triggers[1..])
  }

  /** However many triggers fire, in whatever order, the wiring is scheduled exactly once
      if any fires and never otherwise. */
  lemma {:induction false} AtMostOneWiring(triggers: seq<Trigger>)
    ensures Fire(InitialWiring, triggers) == if |triggers| == 0 then InitialWiring else WiringState(true, 1)
  {
    if |triggers| > 0 {
      FireConfigured(WiringState(true, 1), triggers[1..]);
    }
  }

  /** Once the flag is set, later triggers, however many, change nothing. */
  lemma {:induction false} FireConfigured(s: WiringState, triggers: seq<Trigger>)
    requires s.spotbugConfigured
    ensures Fire(s, triggers) == s
    decreases |triggers|
  {
    if |triggers| > 0 {
      FireConfigured(s, triggers[1..]);
    }
  }

  /** Two trigger sequences that both fire something leave the same state. */
  lemma TriggerOrderIrrelevant(t1: seq<Trigger>, t2: seq<Trigger>)
    requires |t1| > 0 && |t2| > 0
    ensures Fire(InitialWiring, t1) == Fire(InitialWiring, t2)
  {
    AtMostOneWiring(t1);
    AtMostOneWiring(t2);
  }

  /** The triggers registered for the applied plugins; both are registered only once the
      Java plugin is present. */
  function Triggers(plugins: Plugins): (r: seq<Trigger>)
    ensures SpotBugsApplied in r <==> plugins.java && plugins.spotbugs
    ensures SonarQubeApplied in r <==> plugins.java && plugins.sonarqube
  {
    if !plugins.java then []
    else (if plugins.spotbugs then [SpotBugsApplied] else [])
         + (if plugins.sonarqube then [SonarQubeApplied] else [])
  }

  /** The wiring is scheduled once exactly when the Java plugin and at least one of
      SpotBugs and SonarQube are applied. */
  lemma WiringScheduledForPlugins(plugins: Plugins)
    ensures Fire(InitialWiring, Triggers(plugins)).scheduledWirings
            == if plugins.java && (plugins.spotbugs || plugins.sonarqube) then 1 else 0
  {
    AtMostOneWiring(Triggers(plugins));
  }

  /** The body of the scheduled wiring: every source set gets the SpotBugs annotations at
      the resolved version in its compile-only configuration. */
  function AnnotationAdditions(sourceSets: seq<SourceSet>, ext: SpotBugsExtension): (r: Result<seq<Addition>, VersionError>)
    ensures r.Success? <==> ResolveSpotBugVersion(ext).Success?
    ensures r.Success? ==> |r.value| == |sourceSets|
    ensures r.Success? ==> forall i | 0 <= i < |sourceSets| ::
              r.value[i] == Addition(sourceSets[i].compileOnlyConfiguration,
                                     Notation(AnnotationsGroup, AnnotationsName, ResolveSpotBugVersion(ext).value))
  {
    var version :- ResolveSpotBugVersion(ext);
    var notation := Notation(AnnotationsGroup, AnnotationsName, version);
    Success(seq(|sourceSets|, i requires 0 <= i < |sourceSets| => Addition(sourceSets[i].compileOnlyConfiguration, notation)))
  }

  /** The declared notation stands for the SpotBugs annotations at the resolved version. */
  lemma AnnotationNotationDenotes(version: string)
    requires ':' !in version
    ensures ParseNotation(Notation(AnnotationsGroup, AnnotationsName, version))
            == Some(Dependency(Some(AnnotationsGroup), AnnotationsName, Some(version)))
  {
    assert ':' !in AnnotationsGroup && ':' !in AnnotationsName;
    ParseNotationRoundTrip(AnnotationsGroup, AnnotationsName, version);
  }

  /** Every scheduled wiring runs once after evaluation. Each run declares one dependency
      per source set, all at the resolved version, and any run fails when resolution does. */
  function RunScheduled(n: nat, sourceSets: seq<SourceSet>, ext: SpotBugsExtension): (r: Result<seq<Addition>, VersionError>)
    ensures r.Success? <==> n == 0 || ResolveSpotBugVersion(ext).Success?
    ensures r.Success? ==> |r.value| == n * |sourceSets|
    ensures r.Success? ==> forall a | a in r.value ::
              ResolveSpotBugVersion(ext).Success?
              && a.notation == Notation(AnnotationsGroup, AnnotationsName, ResolveSpotBugVersion(ext).value)
  {
    if n == 0 then Success([])
    else
      var here :- AnnotationAdditions(sourceSets, ext);
      var rest := RunScheduled(n - 1, sourceSets, ext).value;
      assert |here + rest| == |sourceSets| + (n - 1) * |sourceSets| == n * |sourceSets|;
      Success(here + rest)
  }

  /** Whatever the triggers, each source set receives the annotations dependency at most
      once: exactly once when some trigger fired and the version resolved. */
  lemma OneAnnotationDependencyPerSourceSet(triggers: seq<Trigger>, sourceSets: seq<SourceSet>, ext: SpotBugsExtension)
    ensures |triggers| == 0 ==> RunScheduled(Fire(InitialWiring, triggers).scheduledWirings, sourceSets, ext) == Success([])
    ensures |triggers| > 0 ==> RunScheduled(Fire(InitialWiring, triggers).scheduledWirings, sourceSets, ext) == AnnotationAdditions(sourceSets, ext)
  {
    AtMostOneWiring(triggers);
    if |triggers| > 0 {
      var r := AnnotationAdditions(sourceSets, ext);
      if r.Success? {
        assert r.value + [] == r.value;
      }
    }
  }

  /** The `spotbugs` extension is absent exactly when the SpotBugs plugin is not applied:
      the SpotBugs plugin registers the `spotbugs` extension. */
  predicate ExtensionMatchesPlugins(plugins: Plugins, ext: SpotBugsExtension) {
    ext.PluginAbsent? <==> !plugins.spotbugs
  }

  /** Everything the SpotBugs wiring declares after evaluation, given the applied plugins. */
  function SpotBugsWiring(plugins: Plugins, sourceSets: seq<SourceSet>, ext: SpotBugsExtension): Result<seq<Addition>, VersionError> {
    RunScheduled(Fire(InitialWiring, Triggers(plugins)).scheduledWirings, sourceSets, ext)
  }

  /** End to end over the applied plugins: nothing is declared without Java or without
      SpotBugs and SonarQube; with SonarQube alone every source set gets the annotations at
      the default `4.1.3`; with SpotBugs the annotations come at the version its extension
      declares, or the wiring fails when it declares none. */
  lemma {:induction false} SpotBugsWiringForPlugins(plugins: Plugins, sourceSets: seq<SourceSet>, ext: SpotBugsExtension)
    requires ExtensionMatchesPlugins(plugins, ext)
    ensures !plugins.java || (!plugins.spotbugs && !plugins.sonarqube) ==> SpotBugsWiring(plugins, sourceSets, ext) == Success([])
    ensures plugins.java && plugins.sonarqube && !plugins.spotbugs ==>
              var r := SpotBugsWiring(plugins, sourceSets, ext);
              && r.Success?
              && |r.value| == |sourceSets|
              && forall i | 0 <= i < |sourceSets| ::
                   r.value[i] == Addition(sourceSets[i].compileOnlyConfiguration,
                                          Notation(AnnotationsGroup, AnnotationsName, SpotBugsDefaultVersion))
    ensures plugins.java && plugins.spotbugs ==>
              var r := SpotBugsWiring(plugins, sourceSets, ext);
              && (r.Success? <==> DeclaredVersion(ext).Some?)
              && (r.Success? ==>
                    && |r.value| == |sourceSets|
                    && forall i | 0 <= i < |sourceSets| ::
                         r.value[i] == Addition(sourceSets[i].compileOnlyConfiguration,
                                                Notation(AnnotationsGroup, AnnotationsName, DeclaredVersion(ext).value)))
  {
    OneAnnotationDependencyPerSourceSet(Triggers(plugins), sourceSets, ext);
    VersionFallbackChain(ext);
  }
}
