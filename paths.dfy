/**
 * File-system paths as sequences of components. `PathBuf::push` and
 * `PathBuf::join` with a single component append that component. An empty
 * component stands for a trailing separator and "." for the current
 * directory; neither is ever the path's file name, so `file_name` and
 * `set_extension` look past them to the last component before them.
 */
module Paths {
  import opened Wrappers

  type Path = seq<string>

  /** `path.join(c)` / `path.push(c)` for a component without separators. */
  function Join(p: Path, c: string): (r: Path)
    ensures |r| == |p| + 1 && r[..|p|] == p && r[|p|] == c
  {
    p + [c]
  }

  /** A component that names a file: not empty, not "." and not "..". */
  predicate IsFileName(c: string) {
    c != "" && c != "." && c != ".."
  }

  /** The path without its trailing empty and "." components. */
  function Trimmed(p: Path): (r: Path)
    ensures |r| <= |p| && r == p[..|r|]
    ensures r != [] ==> r[|r| - 1] != "" && r[|r| - 1] != "."
    ensures forall k :: |r| <= k < |p| ==> p[k] == "" || p[k] == "."
  {
    if p != [] && (p[|p| - 1] == "" || p[|p| - 1] == ".") then Trimmed(p[..|p| - 1]) else p
  }

  /**
   * `Path::file_name`: the last component once trailing empty and "."
   * components are skipped, unless nothing is left or that component is "..".
   */
  function FileName(p: Path): (r: Option<string>)
    ensures r.Some? ==> IsFileName(r.value) && r.value in p
    ensures p != [] && IsFileName(p[|p| - 1]) ==> r == Some(p[|p| - 1])
    ensures p != [] && p[|p| - 1] == ".." ==> r.None?
    ensures (forall k :: 0 <= k < |p| ==> p[k] == "" || p[k] == ".") ==> r.None?
  {
    var t := Trimmed(p);
    if t == [] || t[|t| - 1] == ".." then None
    else
      assert t[|t| - 1] == p[|t| - 1];
      Some(t[|t| - 1])
  }

  /** Index of the last '.' in a file name, if any. */
  function LastDot(name: string): (r: Option<nat>)
    ensures r.Some? ==> r.value < |name| && name[r.value] == '.'
    ensures r.Some? ==> forall k :: r.value < k < |name| ==> name[k] != '.'
    ensures r.None? ==> forall k :: 0 <= k < |name| ==> name[k] != '.'
  {
    if name == [] then None
    else if name[|name| - 1] == '.' then Some(|name| - 1)
    else LastDot(name[..|name| - 1])
  }

  /**
   * `Path::file_stem` of a file name: everything before the last '.',
   * unless there is no '.' or the only one leads the name (".bashrc").
   */
  function Stem(name: string): (r: string)
    ensures name != [] ==> r != []
  {
    if name == ".." then name
    else match LastDot(name)
      case None => name
      case Some(i) => if i == 0 then name else name[..i]
  }

  /**
   * The file name `set_extension(ext)` makes of `name`: its stem, then a
   * '.' and the extension unless the extension is empty.
   */
  function WithExtension(name: string, ext: string): (r: string)
    ensures ext == [] ==> r == Stem(name)
    ensures ext != [] ==> |r| == |Stem(name)| + 1 + |ext| && r[..|Stem(name)|] == Stem(name) && r[|Stem(name)|..] == "." + ext
    ensures IsFileName(name) && ext != [] ==> IsFileName(r)
  {
    if ext == [] then Stem(name) else Stem(name) + "." + ext
  }

  /**
   * `PathBuf::set_extension(ext)` on a path that has a file name: the path
   * cut right after that name, which gets the new extension. `None` when the
   * path has no file name (nothing but empty and "." components, or ending
   * in "..").
   */
  function Renamed(p: Path, ext: string): Option<Path> {
    if p == [] then None
    else if p[|p| - 1] == "" || p[|p| - 1] == "." then Renamed(p[..|p| - 1], ext)
    else if p[|p| - 1] == ".." then None
    else Some(p[..|p| - 1] + [WithExtension(p[|p| - 1], ext)])
  }

  /** `PathBuf::set_extension(ext)`: a path without a file name is left as it is. */
  function SetExtension(p: Path, ext: string): Path {
    Renamed(p, ext).GetOr(p)
  }

  /**
   * `set_extension` leaves a path without a file name as it is; otherwise
   * it keeps every component before the file name, drops the ones after it,
   * and the file name gets the extension.
   */
  lemma {:induction false} SetExtensionRenames(p: Path, ext: string)
    ensures Renamed(p, ext).None? <==> FileName(p).None?
    ensures FileName(p).None? ==> SetExtension(p, ext) == p
    ensures FileName(p).Some? ==>
      var r := SetExtension(p, ext);
      && |r| == |Trimmed(p)| && r[..|r| - 1] == p[..|r| - 1]
      && r[|r| - 1] == WithExtension(FileName(p).value, ext)
    decreases |p|
  {
    if p == [] {
    } else if p[|p| - 1] == "" || p[|p| - 1] == "." {
      var q := p[..|p| - 1];
      SetExtensionRenames(q, ext);
      assert Trimmed(p) == Trimmed(q);
      assert FileName(p) == FileName(q);
      assert Renamed(p, ext) == Renamed(q, ext);
      if FileName(q).Some? {
        var n := |Trimmed(q)|;
        assert q[..n - 1] == p[..n - 1];
      }
    } else {
      assert Trimmed(p) == p;
    }
  }

  /** With a non-empty extension, the renamed component is the new path's file name. */
  lemma NewFileName(p: Path, ext: string)
    requires FileName(p).Some? && ext != []
    ensures FileName(SetExtension(p, ext)) == Some(WithExtension(FileName(p).value, ext))
  {
    SetExtensionRenames(p, ext);
  }

  /**
   * The stem is a prefix of the name, cut at the last '.' of the name: the
   * rest, when there is one, is a '.' followed by an extension without '.'.
   * A name kept whole has no '.' past its first character, or is "..".
   */
  lemma {:induction false} StemIsPrefix(name: string)
    ensures |Stem(name)| <= |name| && name[..|Stem(name)|] == Stem(name)
    ensures Stem(name) != name ==> name[|Stem(name)|] == '.'
    ensures Stem(name) != name ==> forall k :: |Stem(name)| < k < |name| ==> name[k] != '.'
    ensures Stem(name) == name && name != ".." ==> forall k :: 0 < k < |name| ==> name[k] != '.'
  {
  }

  /** For a path ending in a file name, `set_extension` rewrites that last component only. */
  lemma SetExtensionOfName(dir: Path, name: string, ext: string)
    requires IsFileName(name)
    ensures SetExtension(dir + [name], ext) == dir + [WithExtension(name, ext)]
  {
    assert (dir + [name])[..|dir|] == dir;
  }

  /**
   * A trailing separator or "." is skipped: the extension goes on the
   * component before it, and the trailing component is cut.
   */
  lemma SetExtensionSkipsTrailing(dir: Path, name: string, last: string, ext: string)
    requires IsFileName(name) && (last == "" || last == ".")
    ensures SetExtension(dir + [name, last], ext) == dir + [WithExtension(name, ext)]
  {
    var p := dir + [name, last];
    assert p[..|p| - 1] == dir + [name];
    assert (dir + [name])[..|dir|] == dir;
    assert Renamed(dir + [name], ext) == Some(dir + [WithExtension(name, ext)]);
  }

  /** A path ending in ".." has no file name, and `set_extension` leaves it as it is. */
  lemma SetExtensionOfParent(dir: Path, ext: string)
    ensures SetExtension(dir + [".."], ext) == dir + [".."]
  {
  }
}
