/**
 * The parts of a file path that the scanner and the loader look at, with
 * the rules of Rust's `Path::file_name`, `Path::extension` and
 * `Path::file_stem` on `/`-separated paths: the file name is the last
 * component; it splits at its last `.`, except that a name whose only `.`
 * is its first character (a hidden file) has no extension.
 */
module Paths {
  import opened Common

  /** The position of the last occurrence of `c` in `s`. */
  function LastIndexOf(s: string, c: char): (r: Option<nat>)
    ensures r.Some? ==> r.value < |s| && s[r.value] == c
                        && forall j :: r.value < j < |s| ==> s[j] != c
    ensures r.None? ==> forall j :: 0 <= j < |s| ==> s[j] != c
  {
    if s == [] then None
    else if s[|s| - 1] == c then Some(|s| - 1)
    else LastIndexOf(s[..|s| - 1], c)
  }

  /** The text after the last `/`, or the whole path when it has none. */
  function LastComponent(path: string): (c: string)
    ensures '/' !in c
    ensures |c| <= |path| && c == path[|path| - |c|..]
  {
    match LastIndexOf(path, '/')
    case None => path
    case Some(i) => path[i + 1..]
  }

  /** The path without the trailing separators and `.` components that
      `Path::components` skips: `music/` and `music/.` both end in `music`. */
  function TrimTrailing(path: string): (t: string)
    ensures |t| <= |path| && t == path[..|t|]
    ensures t == [] || (t[|t| - 1] != '/' && !(|t| >= 2 && t[|t| - 2..] == "/."))
    decreases |path|
  {
    if |path| > 0 && path[|path| - 1] == '/' then
      var t := TrimTrailing(path[..|path| - 1]);
      assert path[..|path| - 1][..|t|] == path[..|t|];
      t
    else if |path| >= 2 && path[|path| - 2..] == "/." then
      var t := TrimTrailing(path[..|path| - 2]);
      assert path[..|path| - 2][..|t|] == path[..|t|];
      t
    else path
  }

  /** `Path::file_name`: the last component once trailing separators and `.`
      components are dropped; absent when that is empty, `.` or `..`. */
  function FileName(path: string): (r: Option<string>)
    ensures r.Some? ==> r.value == LastComponent(TrimTrailing(path)) && r.value != [] && '/' !in r.value
    ensures r.None? <==> LastComponent(TrimTrailing(path)) in {"", ".", ".."}
  {
    var c := LastComponent(TrimTrailing(path));
    if c == "" || c == "." || c == ".." then None else Some(c)
  }

  /** A trailing `/` or `/.` does not change the file name. */
  lemma FileNameIgnoresTrailing(path: string)
    ensures FileName(path + "/") == FileName(path)
    ensures FileName(path + "/.") == FileName(path)
  {
    TrimSeparator(path);
    TrimCurrentDir(path);
  }

  lemma TrimSeparator(path: string)
    ensures TrimTrailing(path + "/") == TrimTrailing(path)
  {
    var p := path + "/";
    assert p[|p| - 1] == '/';
    assert p[..|p| - 1] == path;
  }

  lemma TrimCurrentDir(path: string)
    ensures TrimTrailing(path + "/.") == TrimTrailing(path)
  {
    var p := path + "/.";
    assert p[|p| - 1] == '.';
    assert p[|p| - 2..] == "/.";
    assert p[..|p| - 2] == path;
  }

  /** `rsplit_file_at_dot`: the stem and the extension of a file name. */
  function SplitAtDot(name: string): (r: (string, Option<string>))
    ensures r.1.None? ==> r.0 == name
    ensures r.1.Some? ==> r.0 != [] && r.0 + "." + r.1.value == name && '.' !in r.1.value
  {
    if name == ".." then (name, None)
    else match LastIndexOf(name, '.')
      case None => (name, None)
      case Some(i) =>
        if i == 0 then (name, None)
        else
          assert name[..i] + "." + name[i + 1..] == name by {
            assert name == name[..i] + [name[i]] + name[i + 1..];
          }
          (name[..i], Some(name[i + 1..]))
  }

  /** `Path::extension` */
  function Extension(path: string): (r: Option<string>)
    ensures r.Some? ==> FileName(path).Some? && '.' !in r.value
    ensures FileName(path).None? ==> r.None?
  {
    match FileName(path)
    case None => None
    case Some(name) => SplitAtDot(name).1
  }

  /** `Path::file_stem` */
  function FileStem(path: string): (r: Option<string>)
    ensures r.Some? <==> FileName(path).Some?
    ensures r.Some? ==> |r.value| <= |FileName(path).value| && r.value == FileName(path).value[..|r.value|]
  {
    match FileName(path)
    case None => None
    case Some(name) => Some(SplitAtDot(name).0)
  }

  /** Stem, dot and extension put back together give the file name, and an
      extension never contains a dot or a separator. */
  lemma StemDotExtension(path: string)
    requires Extension(path).Some?
    ensures FileStem(path).Some? && FileName(path).Some?
    ensures FileStem(path).value + "." + Extension(path).value == FileName(path).value
    ensures '.' !in Extension(path).value && '/' !in Extension(path).value
  {
    var name := FileName(path).value;
    var e := Extension(path).value;
    assert '/' !in name;
    assert name == SplitAtDot(name).0 + "." + e;
    assert e == name[|name| - |e|..];
  }

  /** A file without an extension has its whole name as stem. */
  lemma StemWithoutExtension(path: string)
    requires FileName(path).Some? && Extension(path).None?
    ensures FileStem(path) == FileName(path)
  {
  }

  /** A hidden file such as `.cover` has no extension. */
  lemma HiddenFileHasNoExtension(path: string)
    requires FileName(path).Some?
    requires var name := FileName(path).value; name[0] == '.' && '.' !in name[1..]
    ensures Extension(path).None?
  {
  }
}
