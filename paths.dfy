/** POSIX path manipulation as Python's `os.path` does it, for the two
    operations the core uses. */
module Paths {

  /** `os.path.join(a, b)`: an absolute `b` replaces `a`; otherwise `b` is
      appended, with a separator unless `a` is empty or already ends in one. */
  function Join(a: string, b: string): (r: string)
    ensures |b| <= |r| && r[|r| - |b|..] == b
    ensures b != [] && b[0] == '/' ==> r == b
    ensures (b == [] || b[0] != '/') ==> a <= r
  {
    if b != [] && b[0] == '/' then b
    else if a == [] || a[|a| - 1] == '/' then a + b
    else a + "/" + b
  }

  /** `os.path.basename(p)`: what follows the last separator. */
  function Basename(p: string): (r: string)
    ensures '/' !in r
    ensures |r| <= |p| && p[|p| - |r|..] == r
    ensures |r| < |p| ==> p[|p| - |r| - 1] == '/'
  {
    if p == [] || p[|p| - 1] == '/' then []
    else
      var q := p[..|p| - 1];
      var r := Basename(q);
      assert p[|p| - |r| - 1..] == q[|q| - |r|..] + [p[|p| - 1]];
      r + [p[|p| - 1]]
  }

  /** A path whose last component is `name` has `name` as its basename. */
  lemma BasenameOfSuffix(prefix: string, name: string)
    requires '/' !in name
    requires prefix == [] || prefix[|prefix| - 1] == '/'
    ensures Basename(prefix + name) == name
  {
    var p := prefix + name;
    assert p[|p| - |name|..] == name;
    if prefix != [] {
      assert p[|p| - |name| - 1] == '/';
    }
  }

  /** Joining a directory with a single relative component gives a path
      whose basename is that component. */
  lemma BasenameOfJoin(directory: string, name: string)
    requires name != [] && '/' !in name
    ensures Basename(Join(directory, name)) == name
  {
    if directory == [] || directory[|directory| - 1] == '/' {
      BasenameOfSuffix(directory, name);
    } else {
      assert Join(directory, name) == (directory + "/") + name;
      BasenameOfSuffix(directory + "/", name);
    }
  }
}
