/** The slice of the host build system's object model the Lombok plugin reads and writes,
    reduced to plain values: dependency records, dependency declarations, source sets,
    and which plugins are applied. */
module Gradle {
  import opened Wrappers
  import opened Strings

  /** A directory, identified by its path. */
  type Path = string

  /** A declared dependency. The group of a Gradle dependency may be `null` (file
      dependencies have none); the name never is. */
  datatype Dependency = Dependency(group: Option<string>, name: string, version: Option<string>)

  /** `project.getDependencies().add(configuration, notation)`: one dependency declared
      into the named configuration through a `group:name:version` string. */
  datatype Addition = Addition(configuration: string, notation: string)

  /** What the plugin reads off a Gradle `SourceSet`: its name, the name of its Java
      source directory set, its source directories, and the names of the two
      configurations it adds dependencies to. */
  datatype SourceSet = SourceSet(
    name: string,
    javaName: string,
    srcDirs: set<Path>,
    compileOnlyConfiguration: string,
    annotationProcessorConfiguration: string)

  /** Which of the plugins the Lombok plugin reacts to are applied to the project. */
  datatype Plugins = Plugins(java: bool, jacoco: bool, spotbugs: bool, sonarqube: bool)

  /** The `group:name:version` notation of a dependency. */
  function Notation(group: string, name: string, version: string): string {
    group + ":" + name + ":" + version
  }

  /** How the host reads a `group:name:version` notation back into a dependency record;
      a string without exactly two `:` separators is not such a notation. */
  function ParseNotation(s: string): (r: Option<Dependency>)
    ensures r.Some? ==> r.value.group.Some? && r.value.version.Some?
    ensures r.Some? ==> s == Notation(r.value.group.value, r.value.name, r.value.version.value)
  {
    match SplitFirst(s, ':')
    case None => None
    case Some((group, rest)) =>
      match SplitFirst(rest, ':')
      case None => None
      case Some((name, version)) =>
        if ':' in version then None
        else Some(Dependency(Some(group), name, Some(version)))
  }

  /** Reading back a notation built from colon-free parts gives exactly those parts. */
  lemma {:induction false} ParseNotationRoundTrip(group: string, name: string, version: string)
    requires ':' !in group && ':' !in name && ':' !in version
    ensures ParseNotation(Notation(group, name, version)) == Some(Dependency(Some(group), name, Some(version)))
  {
    assert Notation(group, name, version) == group + [':'] + (name + ":" + version);
    SplitFirstJoin(group, ':', name + ":" + version);
    assert name + ":" + version == name + [':'] + version;
    SplitFirstJoin(name, ':', version);
  }
}
