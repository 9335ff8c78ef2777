/** Reading the effective `lombok.config` of each source directory. The external
    `lombok config <dir>` query is an oracle `query: Path -> string` (its captured
    standard output); the file system is the set `existing` of directories that exist. */
module LombokConfig {
  import opened Wrappers
  import opened Strings
  import opened Gradle

  /** What the query prints when no `lombok.config` applies to a directory. */
  const NoConfigSentinel := "No 'lombok.config' found for"

  /** One launch of the external query, with its arguments. */
  datatype Invocation = JavaExec(args: seq<string>)

  /** The config read for a directory, with the log of external launches it made. */
  datatype ConfigRead = ConfigRead(config: Option<string>, invocations: seq<Invocation>)

  /** The classification of the query's output: the sentinel means "no config", anything
      else (the empty string included) is the config text itself. */
  function Classify(output: string): (r: Option<string>)
    ensures r.None? <==> IsPrefix(NoConfigSentinel, output)
    ensures r.Some? ==> r.value == output
  {
    if StartsWith(output, NoConfigSentinel) then None else Some(output)
  }

  /** `getLombokConfig`: nothing for a missing directory, without launching the query;
      otherwise one launch of `config <dir>` and its classified output. */
  function ReadConfig(dir: Path, existing: set<Path>, query: Path -> string): (r: ConfigRead)
    ensures r.invocations == [] <==> dir !in existing
    ensures r.config.Some? ==> dir in existing && r.config.value == query(dir)
  {
    if dir !in existing then ConfigRead(None, [])
    else ConfigRead(Classify(query(dir)), [JavaExec(["config", dir])])
  }

  /** A missing directory reads as absent whatever the query would answer: the query is
      never consulted. */
  lemma MissingDirectoryNeverQueries(dir: Path, existing: set<Path>, q1: Path -> string, q2: Path -> string)
    requires dir !in existing
    ensures ReadConfig(dir, existing, q1) == ReadConfig(dir, existing, q2)
    ensures ReadConfig(dir, existing, q1).config.None?
  {
  }

  /** An existing directory is queried exactly once, with the arguments `config <dir>`. */
  lemma ExistingDirectoryQueriedOnce(dir: Path, existing: set<Path>, query: Path -> string)
    requires dir in existing
    ensures ReadConfig(dir, existing, query).invocations == [JavaExec(["config", dir])]
  {
  }

  /** Output beginning with the sentinel, whatever follows it, reads as absent. */
  lemma SentinelOutputIsAbsent(dir: Path, existing: set<Path>, query: Path -> string, rest: string)
    requires dir in existing && query(dir) == NoConfigSentinel + rest
    ensures ReadConfig(dir, existing, query).config == None
  {
    assert (NoConfigSentinel + rest)[..|NoConfigSentinel|] == NoConfigSentinel;
  }

  /** Any other output, the empty string included, is returned verbatim. */
  lemma OtherOutputIsVerbatim(dir: Path, existing: set<Path>, query: Path -> string)
    requires dir in existing && !IsPrefix(NoConfigSentinel, query(dir))
    ensures ReadConfig(dir, existing, query).config == Some(query(dir))
  {
  }

  lemma EmptyOutputIsEmptyConfig(dir: Path, existing: set<Path>, query: Path -> string)
    requires dir in existing && query(dir) == ""
    ensures ReadConfig(dir, existing, query).config == Some("")
  {
  }

  /** The per-source-set map from source directory to its config, as `handleLombokConfig`
      builds it before any check runs. */
  function Snapshot(srcDirs: set<Path>, existing: set<Path>, query: Path -> string): (m: map<Path, Option<string>>)
    ensures m.Keys == srcDirs
    ensures forall d | d in m && m[d].Some? :: d in existing
  {
    map d | d in srcDirs :: ReadConfig(d, existing, query).config
  }

  /** The directories whose read launched the query. */
  function QueriedDirectories(srcDirs: set<Path>, existing: set<Path>, query: Path -> string): set<Path> {
    set d | d in srcDirs && ReadConfig(d, existing, query).invocations != []
  }

  /** Building a snapshot queries exactly the source directories that exist, and the
      outcome for the others does not depend on the query. */
  lemma SnapshotQueriesExactlyExisting(srcDirs: set<Path>, existing: set<Path>, q1: Path -> string, q2: Path -> string)
    ensures QueriedDirectories(srcDirs, existing, q1) == srcDirs * existing
    ensures forall d | d in srcDirs - existing :: Snapshot(srcDirs, existing, q1)[d] == Snapshot(srcDirs, existing, q2)[d] == None
  {
  }
}
