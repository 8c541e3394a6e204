/** POSIX path joining as Python's `os.path.join` performs it, and the last
    component of a path as `os.path.basename` returns it. */
module Paths {
  import opened Text

  /** `os.path.join(a, b)`: an absolute `b` replaces `a`; otherwise a single
      `/` separates the two unless `a` is empty or already ends in `/`. */
  function Join(a: string, b: string): string {
    if StartsWith(b, "/") then b
    else if a == "" || EndsWith(a, "/") then a + b
    else a + "/" + b
  }

  /** `os.path.basename(p)`: everything after the last `/`. */
  function Basename(p: string): (r: string)
    ensures '/' !in r
    ensures |r| <= |p|
  {
    if p == [] then []
    else if p[|p| - 1] == '/' then []
    else Basename(p[..|p| - 1]) + [p[|p| - 1]]
  }

  /** A component without `/` is appended to any directory, and its name is
      what `basename` returns for the joined path. */
  lemma JoinThenBasename(dir: string, name: string)
    requires '/' !in name
    ensures Basename(Join(dir, name)) == name
  {
    NoSlashIsRelative(name);
    if dir == "" || EndsWith(dir, "/") {
      if dir != "" {
        assert dir[|dir| - 1] == '/';
      }
      BasenameAfterSlash(dir, name);
    } else {
      assert dir + "/" + name == (dir + "/") + name;
      BasenameAfterSlash(dir + "/", name);
    }
  }

  /** The basename of `d + name` is `name` when `d` is empty or ends in `/`. */
  lemma {:induction false} BasenameAfterSlash(d: string, name: string)
    requires d == [] || d[|d| - 1] == '/'
    requires '/' !in name
    ensures Basename(d + name) == name
  {
    if name == [] {
      assert d + name == d;
    } else {
      var p := d + name;
      var last := |name| - 1;
      assert p[|p| - 1] == name[last];
      assert p[..|p| - 1] == d + name[..last];
      BasenameAfterSlash(d, name[..last]);
      assert name[..last] + [name[last]] == name;
    }
  }

  /** Joining a relative component keeps the directory as a prefix. */
  lemma JoinExtends(dir: string, name: string)
    requires !StartsWith(name, "/")
    ensures StartsWith(Join(dir, name), dir)
  {
  }

  /** A name without `/` is a relative path. */
  lemma NoSlashIsRelative(s: string)
    requires '/' !in s
    ensures !StartsWith(s, "/")
  {
    if |s| > 0 { assert s[0] != '/'; }
  }
}
