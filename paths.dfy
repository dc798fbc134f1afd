/** POSIX path helpers the tool relies on: `os.path.basename`, `os.path.join`,
    the extension half of `os.path.splitext`, and `os.path.expanduser`.
    Paths are plain strings; no normalisation (".", "..", "//") is done,
    exactly as the string functions of the Python library do not do it. */
module Paths {

  type Path = string

  /** Index of the last occurrence of `c` in `s`, or -1 (`str.rfind`). */
  function RFind(s: string, c: char): (i: int)
    ensures -1 <= i < |s|
    ensures i >= 0 ==> s[i] == c
    ensures forall j :: i < j < |s| ==> s[j] != c
  {
    if s == [] then -1
    else if s[|s| - 1] == c then |s| - 1
    else RFind(s[..|s| - 1], c)
  }

  /** `os.path.basename`: everything after the last '/'. */
  function Basename(p: Path): (b: Path)
    ensures '/' !in b
    ensures |b| <= |p| && p[|p| - |b|..] == b
    ensures |b| < |p| ==> p[|p| - |b| - 1] == '/'
  {
    p[RFind(p, '/') + 1..]
  }

  /** `os.path.join(a, b)` for two components. */
  function Join(a: Path, b: Path): Path
  {
    if |b| > 0 && b[0] == '/' then b
    else if a == [] || a[|a| - 1] == '/' then a + b
    else a + "/" + b
  }

  /** A final component joined onto a directory is that directory's entry:
      the base name of the joined path is the component itself. */
  lemma BasenameOfJoin(dir: Path, name: Path)
    requires '/' !in name
    ensures Basename(Join(dir, name)) == name
  {
    var p := Join(dir, name);
    assert p[|p| - |name|..] == name;
    assert |name| < |p| ==> p[|p| - |name| - 1] == '/';
  }

  /** True when some character of `p[lo..hi]` is not a dot. */
  predicate HasNonDot(p: string, lo: int, hi: int)
    requires 0 <= lo <= hi <= |p|
  {
    exists k :: lo <= k < hi && p[k] != '.'
  }

  /** The second half of `os.path.splitext(p)` on POSIX: the text from the
      last '.' of the final component onwards, provided that component has a
      character other than '.' before that dot (so ".bashrc" has none). */
  function Extension(p: Path): (e: string)
    ensures e == [] || (e[0] == '.' && '.' !in e[1..] && '/' !in e)
    ensures |e| <= |p| && p[|p| - |e|..] == e
  {
    var s := RFind(p, '/');
    var d := RFind(p, '.');
    if d > s && HasNonDot(p, s + 1, d) then p[d..] else []
  }

  /** A final component `stem.ext` with a stem that is not all dots has
      extension ".ext", whatever directory it sits in. */
  lemma ExtensionOfName(dir: Path, stem: string, ext: string)
    requires '/' !in stem && '/' !in ext && '.' !in ext
    requires exists k :: 0 <= k < |stem| && stem[k] != '.'
    ensures Extension(Join(dir, stem + "." + ext)) == "." + ext
  {
    var name := stem + "." + ext;
    assert stem[0] != '/';
    var q := if dir == [] || dir[|dir| - 1] == '/' then dir else dir + "/";
    if dir == [] || dir[|dir| - 1] == '/' {
      assert Join(dir, name) == dir + name;
    } else {
      assert Join(dir, name) == dir + "/" + name;
    }
    assert q + name == q + stem + "." + ext;
    ExtensionAfterSlash(q, stem, ext);
  }

  /** `ExtensionOfName` for the path `q + stem.ext`, where `q` is empty or
      ends with the separator. */
  lemma ExtensionAfterSlash(q: Path, stem: string, ext: string)
    requires q == [] || q[|q| - 1] == '/'
    requires '/' !in stem && '/' !in ext && '.' !in ext
    requires exists k :: 0 <= k < |stem| && stem[k] != '.'
    ensures Extension(q + stem + "." + ext) == "." + ext
  {
    var p := q + stem + "." + ext;
    var d0 := |q| + |stem|;
    assert p[d0] == '.';
    assert forall j :: d0 < j < |p| ==> p[j] == ext[j - d0 - 1];
    var d := RFind(p, '.');
    assert d == d0;
    var s := RFind(p, '/');
    assert forall j :: |q| <= j < d0 ==> p[j] == stem[j - |q|];
    assert s == |q| - 1 by {
      if q != [] { assert p[|q| - 1] == '/'; }
    }
    var k :| 0 <= k < |stem| && stem[k] != '.';
    assert p[|q| + k] == stem[k];
    assert HasNonDot(p, s + 1, d);
    assert p[d..] == "." + ext;
  }

  /** Drop trailing '/' characters (`str.rstrip("/")`). */
  function RStripSlash(s: string): (r: string)
    ensures |r| <= |s| && s[..|r|] == r
    ensures r == [] || r[|r| - 1] != '/'
    ensures r == [] && s != [] ==> s[0] == '/'
  {
    if s == [] || s[|s| - 1] != '/' then s else RStripSlash(s[..|s| - 1])
  }

  /** `os.path.expanduser` with `home` standing for $HOME: a leading "~"
      followed by '/' or by nothing is replaced by the home directory with
      its trailing slashes removed ("/" if that leaves nothing). A leading
      "~user" is returned unchanged, as Python does for an unknown user. */
  function ExpandUser(home: Path, p: Path): (r: Path)
    ensures (p == [] || p[0] != '~') ==> r == p
    ensures p != [] ==> r != []
    ensures home != [] && home[0] == '/' && p != [] && p[0] == '~' && (|p| == 1 || p[1] == '/') ==> r[0] == '/'
  {
    if p == [] || p[0] != '~' then p
    else if |p| > 1 && p[1] != '/' then p
    else
      var h := RStripSlash(home);
      if h + p[1..] == [] then "/" else h + p[1..]
  }

  /** With an absolute $HOME, expanding twice is expanding once: the tool
      expands a source directory that validation has already expanded. */
  lemma ExpandUserIdempotent(home: Path, p: Path)
    requires home != [] && home[0] == '/'
    ensures ExpandUser(home, ExpandUser(home, p)) == ExpandUser(home, p)
  {
  }
}
