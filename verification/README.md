# Lombok Gradle plugin: decision rules of the orchestration code

This project models the decision rules inside `LombokPlugin`, the Gradle plugin that wires
Lombok into every source set of a Java project. The Gradle plumbing is replaced by plain
values:

- the plugin container becomes a `Plugins` record of booleans;
- a source set becomes a `SourceSet` record;
- a configuration's dependencies become a sequence of `Dependency` records;
- `project.getDependencies().add` becomes an `Addition` value;
- the file system becomes the set of existing directories;
- the `lombok config <dir>` subprocess becomes an oracle from directory to captured output.

The modules follow the plugin's structure:

- `Strings`: `startsWith`, `contains` and first-separator splitting, each proved equal to a
  declarative definition.
- `Gradle`: the host's records, and how the host reads a `group:name:version` notation.
- `Mapstruct` (`handleMapstructSupport`): declares `org.projectlombok:lombok-mapstruct-binding:0.2.0`
  into the annotation-processor configuration. It does so when `org.mapstruct:mapstruct-processor`
  is declared and no dependency named `lombok-mapstruct-binding` is. The binding is matched by
  name only, whatever its group.
- `LombokConfig` (`getLombokConfig` and the snapshot map of `handleLombokConfig`):
  - A missing directory reads as absent, and the query is not launched.
  - Output starting with `No 'lombok.config' found for` reads as absent.
  - Any other output, the empty string included, is the config text.
- `ConfigCheck` (`checkLombokConfig` and the per-plugin checks):
  - A directory gets a warning when it exists and its config is absent or lacks the setting.
  - JaCoCo checks `lombok.addLombokGeneratedAnnotation = true`.
  - SpotBugs and SonarQube each check `lombok.extern.findbugs.addSuppressFBWarnings = true`.
- `SpotBugs`:
  - The version fallback chain of `resolveSpotBugVersion`: default `4.1.3` only when the
    plugin is absent, then a typed `CodeQualityExtension`, then the dynamic `toolVersion`
    property.
  - The one-time `spotbugConfigured` guard of `configureForSpotbugs`.
  - The `spotbugs-annotations` declarations the guarded wiring makes.
- `Delombok`: the default output directory `generated/sources/delombok/<java>/<sourceSet>`.
- `SourceSetDefaults`: the after-evaluation callback of one source set, composed from the
  above.

Three facts about the code are worth stating:

- The code has one dependency rule, hard-coded for MapStruct. There is no general rule
  mechanism.
- `handleLombokConfig` registers one suppression-setting check per plugin, for SpotBugs
  (lines 149-151) and for SonarQube (lines 153-155). With both applied, the same warning
  is emitted twice for a directory (`ConfigCheck.SuppressionWarnedPerPlugin`).
- `handleMapstructSupport` keeps the last matching processor it sees
  (`Mapstruct.ScanDependencies`). That processor is used only in the log message at line 207.

## Model

| member | source | states |
|---|---|---|
| Strings.StartsWith | lombok-plugin/src/main/java/io/freefair/gradle/plugins/lombok/LombokPlugin.java:184 | the character-by-character `startsWith` holds exactly when the sentinel is a prefix of the output |
| Strings.Contains | lombok-plugin/src/main/java/io/freefair/gradle/plugins/lombok/LombokPlugin.java:160 | the left-to-right `contains` holds exactly when the setting occurs at some position of the config text (the empty string always occurs) |
| Mapstruct.ScanDependencies | lombok-plugin/src/main/java/io/freefair/gradle/plugins/lombok/LombokPlugin.java:193-204 | the single pass finds a processor iff some dependency has name `mapstruct-processor` and group `org.mapstruct`, keeps the last such one, and sees a binding iff some dependency is named `lombok-mapstruct-binding` |
| Mapstruct.HandleMapstructSupport | lombok-plugin/src/main/java/io/freefair/gradle/plugins/lombok/LombokPlugin.java:190-213 | a declaration is made iff a processor is present and no binding is, and it is the binding notation into the source set's annotation-processor configuration; the dependencies a later scan sees are the old ones plus the binding exactly when a declaration was made |
| Mapstruct.ApplyRule | lombok-plugin/src/main/java/io/freefair/gradle/plugins/lombok/LombokPlugin.java:206-213 | the dependencies a later scan sees after the rule: the old ones unchanged in front, with at most one dependency appended |
| Mapstruct.BindingNotationParses | lombok-plugin/src/main/java/io/freefair/gradle/plugins/lombok/LombokPlugin.java:209-212 | the notation string the plugin builds parses back to exactly the binding record: group `org.projectlombok`, name `lombok-mapstruct-binding`, version `0.2.0` |
| Mapstruct.BindingNotationDenotesBinding | lombok-plugin/src/main/java/io/freefair/gradle/plugins/lombok/LombokPlugin.java:209-212 | the declared notation reads back as group `org.projectlombok`, name `lombok-mapstruct-binding`, version `0.2.0`, which the next scan recognises as a binding and not as a processor |
| Mapstruct.RuleAddsExactlyOneBinding | lombok-plugin/src/main/java/io/freefair/gradle/plugins/lombok/LombokPlugin.java:206-213 | when the rule fires, exactly one binding is present afterwards; whether it fires or not, every dependency it appends is a binding |
| Mapstruct.NoProcessorNoAddition | lombok-plugin/src/main/java/io/freefair/gradle/plugins/lombok/LombokPlugin.java:206 | without MapStruct's processor nothing is added |
| Mapstruct.ApplyRuleIdempotent | lombok-plugin/src/main/java/io/freefair/gradle/plugins/lombok/LombokPlugin.java:196-213 | applying the rule to its own result adds nothing, and after the rule a source set with the processor always has a binding |
| LombokConfig.Classify | lombok-plugin/src/main/java/io/freefair/gradle/plugins/lombok/LombokPlugin.java:181-187 | output is absent iff it begins with `No 'lombok.config' found for`, and otherwise it is returned unchanged |
| LombokConfig.ReadConfig | lombok-plugin/src/main/java/io/freefair/gradle/plugins/lombok/LombokPlugin.java:167-188 | the query is launched iff the directory exists, and any config returned is the query's output for an existing directory |
| LombokConfig.MissingDirectoryNeverQueries | lombok-plugin/src/main/java/io/freefair/gradle/plugins/lombok/LombokPlugin.java:168-170 | a missing directory reads as absent, identically under any two query oracles, so the query is not consulted |
| LombokConfig.ExistingDirectoryQueriedOnce | lombok-plugin/src/main/java/io/freefair/gradle/plugins/lombok/LombokPlugin.java:174-179 | an existing directory launches exactly one query with arguments `config <dir>` |
| LombokConfig.SentinelOutputIsAbsent | lombok-plugin/src/main/java/io/freefair/gradle/plugins/lombok/LombokPlugin.java:184-186 | the sentinel followed by anything reads as absent |
| LombokConfig.OtherOutputIsVerbatim | lombok-plugin/src/main/java/io/freefair/gradle/plugins/lombok/LombokPlugin.java:187 | output not starting with the sentinel is returned verbatim |
| LombokConfig.EmptyOutputIsEmptyConfig | lombok-plugin/src/main/java/io/freefair/gradle/plugins/lombok/LombokPlugin.java:181-187 | empty output is an empty config, not an absent one |
| LombokConfig.Snapshot | lombok-plugin/src/main/java/io/freefair/gradle/plugins/lombok/LombokPlugin.java:130-135 | the snapshot has exactly the source directories as keys, and only existing directories carry a config |
| LombokConfig.SnapshotQueriesExactlyExisting | lombok-plugin/src/main/java/io/freefair/gradle/plugins/lombok/LombokPlugin.java:132-135 | building the snapshot queries exactly the source directories that exist, and missing ones are absent whatever the oracle |
| ConfigCheck.CheckLombokConfig | lombok-plugin/src/main/java/io/freefair/gradle/plugins/lombok/LombokPlugin.java:158-164 | visiting the snapshot in any order emits, as a multiset, exactly one warning per directory that exists and whose config is absent or lacks the setting, and nothing else |
| ConfigCheck.WarnedIffLacking | lombok-plugin/src/main/java/io/freefair/gradle/plugins/lombok/LombokPlugin.java:159-163 | a directory is warned about iff it exists and lacks the setting; missing directories are never warned about; no warning is emitted twice by one check |
| ConfigCheck.ExpectedSettings | lombok-plugin/src/main/java/io/freefair/gradle/plugins/lombok/LombokPlugin.java:145-155 | one check per applied plugin: the generated-annotation setting once iff JaCoCo is applied, the suppression setting once for SpotBugs and once for SonarQube |
| ConfigCheck.WarningMultiplicity | lombok-plugin/src/main/java/io/freefair/gradle/plugins/lombok/LombokPlugin.java:145-163 | across independent checks a warning occurs once per check of its setting when its directory lacks it, and never otherwise |
| ConfigCheck.SuppressionWarnedPerPlugin | lombok-plugin/src/main/java/io/freefair/gradle/plugins/lombok/LombokPlugin.java:149-155 | a directory lacking the suppression setting is warned about once for SpotBugs and once more for SonarQube |
| SpotBugs.ResolveSpotBugVersion | lombok-plugin/src/main/java/io/freefair/gradle/plugins/lombok/LombokPlugin.java:110-122 | resolution can fail only for a dynamically shaped extension |
| SpotBugs.VersionFallbackChain | lombok-plugin/src/main/java/io/freefair/gradle/plugins/lombok/LombokPlugin.java:110-122 | an absent plugin gives `4.1.3`; an applied plugin resolves iff its extension declares a version, and then to exactly that version |
| SpotBugs.MalformedBagIsError | lombok-plugin/src/main/java/io/freefair/gradle/plugins/lombok/LombokPlugin.java:120-121 | a missing, non-property or unset `toolVersion` property is an error, not a fall-back to the default |
| SpotBugs.ConfigureForSpotbugs | lombok-plugin/src/main/java/io/freefair/gradle/plugins/lombok/LombokPlugin.java:93-97 | after a call the flag is set; once it is set a call changes nothing; the flag and the scheduled wirings stay in step |
| SpotBugs.Fire | lombok-plugin/src/main/java/io/freefair/gradle/plugins/lombok/LombokPlugin.java:59-60 | after the triggers fire, the flag is set iff it was already set or some trigger fired, and the flag and the scheduled wirings stay in step |
| SpotBugs.AtMostOneWiring | lombok-plugin/src/main/java/io/freefair/gradle/plugins/lombok/LombokPlugin.java:93-107 | any sequence of triggers schedules the wiring exactly once if non-empty and never if empty |
| SpotBugs.FireConfigured | lombok-plugin/src/main/java/io/freefair/gradle/plugins/lombok/LombokPlugin.java:94-96 | once the flag is set, any further sequence of triggers leaves the state unchanged |
| SpotBugs.TriggerOrderIrrelevant | lombok-plugin/src/main/java/io/freefair/gradle/plugins/lombok/LombokPlugin.java:59-60 | any two non-empty trigger sequences, in any order and with any repetition, reach the same state |
| SpotBugs.Triggers | lombok-plugin/src/main/java/io/freefair/gradle/plugins/lombok/LombokPlugin.java:45-60 | the SpotBugs and SonarQube triggers are registered iff the Java plugin and that plugin are applied |
| SpotBugs.WiringScheduledForPlugins | lombok-plugin/src/main/java/io/freefair/gradle/plugins/lombok/LombokPlugin.java:45-60 | the wiring is scheduled once iff Java and at least one of SpotBugs and SonarQube are applied, and never otherwise |
| SpotBugs.AnnotationAdditions | lombok-plugin/src/main/java/io/freefair/gradle/plugins/lombok/LombokPlugin.java:99-106 | the wiring succeeds iff the version resolves, and then declares one `com.github.spotbugs:spotbugs-annotations:<version>` per source set into its compile-only configuration |
| SpotBugs.AnnotationNotationDenotes | lombok-plugin/src/main/java/io/freefair/gradle/plugins/lombok/LombokPlugin.java:103-106 | for a version without `:`, the declared notation reads back as the SpotBugs annotations at that version |
| SpotBugs.RunScheduled | lombok-plugin/src/main/java/io/freefair/gradle/plugins/lombok/LombokPlugin.java:99-106 | running n scheduled wirings succeeds iff n is 0 or the version resolves, and then declares n * \|sourceSets\| dependencies, every one at the resolved version |
| SpotBugs.SpotBugsWiringForPlugins | lombok-plugin/src/main/java/io/freefair/gradle/plugins/lombok/LombokPlugin.java:45-122 | with the extension's presence matching the SpotBugs plugin's: nothing is declared without Java or without SpotBugs and SonarQube; with SonarQube alone every source set gets `com.github.spotbugs:spotbugs-annotations:4.1.3`; with SpotBugs it gets the version the extension declares, or the wiring fails when none is declared |
| SpotBugs.OneAnnotationDependencyPerSourceSet | lombok-plugin/src/main/java/io/freefair/gradle/plugins/lombok/LombokPlugin.java:93-107 | whatever the triggers, running the scheduled wirings declares nothing if none fired and one source set's worth of declarations otherwise |
| Delombok.DelombokDir | lombok-plugin/src/main/java/io/freefair/gradle/plugins/lombok/LombokPlugin.java:69 | the output directory lies under `generated/sources/delombok/` and its length accounts for the two names and one separator |
| Delombok.DelombokDirRoundTrip | lombok-plugin/src/main/java/io/freefair/gradle/plugins/lombok/LombokPlugin.java:69 | the Java directory set name and the source set name can be read back from the path when the former has no `/` |
| Delombok.DelombokDirsDistinct | lombok-plugin/src/main/java/io/freefair/gradle/plugins/lombok/LombokPlugin.java:69 | when neither Java directory set name contains `/`, source sets that differ in either name get different output directories |
| SourceSetDefaults.AfterEvaluate | lombok-plugin/src/main/java/io/freefair/gradle/plugins/lombok/LombokPlugin.java:79-89 | the deferred callback makes at most one declaration, the binding, exactly when the MapStruct rule fires, and emits exactly the warnings of one check per applied plugin over the snapshot |
| SourceSetDefaults.CheckAll | lombok-plugin/src/main/java/io/freefair/gradle/plugins/lombok/LombokPlugin.java:145-155 | running the plugin checks one after another yields, as a multiset, exactly the warnings of every check |
| SourceSetDefaults.WarningFromQueryOutput | lombok-plugin/src/main/java/io/freefair/gradle/plugins/lombok/LombokPlugin.java:129-188 | a source directory is warned about for a setting once per check of it iff it exists and its query output is the sentinel or lacks the setting |
| SourceSetDefaults.MainWithoutGeneratedAnnotationWarnsOnce | lombok-plugin/src/main/java/io/freefair/gradle/plugins/lombok/LombokPlugin.java:145-147 | `main` with one existing directory whose config lacks the generated-annotation setting, under JaCoCo alone, gets exactly one warning, naming that directory and setting |

## Left out

- Gradle's `Project`, task, configuration and plugin-container APIs are not modelled. Neither are `afterEvaluate`, `configureEach` and `withType` callback scheduling. The deferred work is a function called once per source set, and the SpotBugs/SonarQube callbacks are a sequence of triggers.
- `apply` (lines 38-47) is not modelled as such. The parts modelled here run only for projects with the Java plugin: `SpotBugs.Triggers` models the line-45 gate as `plugins.java`, and the per-source-set work is registered at line 52 from inside the line-45 callback, so `AfterEvaluate` and `ExpectedSettings` need not read `plugins.java`. Applying `LombokBasePlugin` (line 41) is not modelled, nor is the `configureEach` of the Delombok defaults at line 43 (see `configureDelombokDefaults` below). `LombokBasePlugin` is not part of this model.
- `extendsFrom` of the compile-only and annotation-processor configurations (lines 64-65) is left out. It is host configuration plumbing.
- The delombok task's registration, name and description (lines 67-68, 73) are left out. So is its binding of encoding, classpath and inputs (lines 84-88). They are host task wiring. The `Delombok` task class is not part of this model.
- The `-Xlint:-processing` compiler argument (line 76) is left out. It is host compiler-option plumbing.
- Javadoc source substitution (lines 54-57) is left out. So are `configureDelombokDefaults` (lines 124-127) and all logging.
- The compile-input fingerprint (lines 137-143) is left out. It concatenates the snapshot's values in `HashMap` order, which is unspecified, and renders absent configs as `null`.
- A launch failure or a non-zero exit of the `lombok config` subprocess is not modelled. `project.javaexec` (lines 174-179) does not ignore the exit value, so either one is fatal in the source. The oracle always returns output.
- SpotBugs.ResolveSpotBugVersion: does not model `getByName("spotbugs")` throwing when the plugin is applied but registers no extension. It also does not model a `CodeQualityExtension` whose `toolVersion` is `null`.
- Gradle.ParseNotation reads only the three-part `group:name:version` form. Gradle's richer notations (classifiers, extensions) are not needed by the two notations the plugin declares.
- Callback order between plugins is not modelled. Warnings of different checks are compared as multisets for that reason.
