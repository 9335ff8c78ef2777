/** Where each source set's delombok task writes by default, relative to the build
    directory: `generated/sources/delombok/<java source directory set name>/<source set name>`. */
module Delombok {
  import opened Wrappers
  import opened Strings
  import opened Gradle

  const DelombokRoot := "generated/sources/delombok/"

  /** The default delombok output directory of a source set. */
  function DelombokDir(sourceSet: SourceSet): (r: string)
    ensures IsPrefix(DelombokRoot, r)
    ensures |r| == |DelombokRoot| + |sourceSet.javaName| + 1 + |sourceSet.name|
  {
    var r := DelombokRoot + sourceSet.javaName + "/" + sourceSet.name;
    assert r[..|DelombokRoot|] == DelombokRoot;
    r
  }

  /** Recovers the two names from a delombok output directory. */
  function ParseDelombokDir(path: string): Option<(string, string)> {
    if !StartsWith(path, DelombokRoot) then None
    else SplitFirst(path[|DelombokRoot|..], '/')
  }

  /** The directory names the source set it was built from, as long as the Java source
      directory set's name has no `/`. */
  lemma DelombokDirRoundTrip(sourceSet: SourceSet)
    requires '/' !in sourceSet.javaName
    ensures ParseDelombokDir(DelombokDir(sourceSet)) == Some((sourceSet.javaName, sourceSet.name))
  {
    var path := DelombokDir(sourceSet);
    assert path[|DelombokRoot|..] == sourceSet.javaName + ['/'] + sourceSet.name;
    SplitFirstJoin(sourceSet.javaName, '/', sourceSet.name);
  }

  /** Two source sets whose Java directory set names are slash-free share an output
      directory only if both their names agree. */
  lemma DelombokDirsDistinct(s1: SourceSet, s2: SourceSet)
    requires '/' !in s1.javaName && '/' !in s2.javaName
    requires s1.name != s2.name || s1.javaName != s2.javaName
    ensures DelombokDir(s1) != DelombokDir(s2)
  {
    DelombokDirRoundTrip(s1);
    DelombokDirRoundTrip(s2);
  }
}
