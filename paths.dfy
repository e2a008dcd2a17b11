/** The key rule of the in-memory store: slash-delimited paths, and no trailing slash except on the root. */
module Paths {

  /** The root path, the one key that may end in a slash. */
  const Root: string := "/"

  /** Java's `String.endsWith(suffix)`: `s` is some prefix followed by `suffix`. */
  predicate EndsWith(s: string, suffix: string): (r: bool)
    ensures r ==> |suffix| <= |s| && s == s[..|s| - |suffix|] + suffix
    ensures |suffix| <= |s| && s == s[..|s| - |suffix|] + suffix ==> r
  {
    var r := |suffix| <= |s| && s[|s| - |suffix|..] == suffix;
    assert |suffix| <= |s| ==> s == s[..|s| - |suffix|] + s[|s| - |suffix|..];
    r
  }

  /**
   * The guard of `TestStateImpl.set`: a key that ends in "/" is refused unless it is "/" itself.
   * Written out, a key is accepted exactly when it is the root, empty, or its last character is not a slash.
   */
  predicate Accepted(key: string): (r: bool)
    ensures r <==> key == Root || key == "" || key[|key| - 1] != '/'
  {
    EndsWithSlash(key);
    !(EndsWith(key, "/") && key != Root)
  }

  /** Ending in "/" means that the last character is a slash. */
  lemma EndsWithSlash(s: string)
    ensures EndsWith(s, "/") <==> |s| > 0 && s[|s| - 1] == '/'
  {
    if |s| > 0 {
      assert s[|s| - 1..] == [s[|s| - 1]];
    }
  }

  /** The root is the only accepted key that ends in a slash. */
  lemma RootOnlySlashTerminated(key: string)
    requires EndsWith(key, "/")
    ensures Accepted(key) <==> key == Root
  {
  }

  /** Appending a slash to any non-empty key makes it refused. */
  lemma TrailingSlashRefused(key: string)
    requires key != ""
    ensures !Accepted(key + "/")
  {
    var s := key + "/";
    assert s[|s| - 1] == '/';
    EndsWithSlash(s);
    assert |s| >= 2;
  }

  /** The three paths the mkdir tests use: "/" and "/mesos" are accepted, "/mesos/" is not. */
  lemma TestPaths()
    ensures Accepted("/")
    ensures Accepted("/mesos")
    ensures !Accepted("/mesos/")
  {
    EndsWithSlash("/mesos");
    EndsWithSlash("/mesos/");
  }
}
