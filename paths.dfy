/** The two `System.IO.Path` queries the logger uses on caller and frame file
    paths, over paths whose directories are separated by '/' or '\\'. */
module Paths {
  import opened Text

  const DirectorySeparators: set<char> := {'/', '\\'}

  predicate HasNoSeparator(s: string) {
    forall i :: 0 <= i < |s| ==> s[i] !in DirectorySeparators
  }

  /** `Path.GetFileName`: the part of `path` after its last directory separator. */
  function GetFileName(path: string): string {
    if |path| == 0 || path[|path| - 1] in DirectorySeparators then []
    else GetFileName(path[..|path| - 1]) + [path[|path| - 1]]
  }

  /** The file name is a tail of the path. */
  lemma {:induction false} GetFileNameIsSuffix(path: string)
    ensures |GetFileName(path)| <= |path|
    ensures GetFileName(path) == path[|path| - |GetFileName(path)|..]
  {
    if |path| > 0 && path[|path| - 1] !in DirectorySeparators {
      var init := path[..|path| - 1];
      GetFileNameIsSuffix(init);
      var q := GetFileName(init);
      assert path[|path| - |q| - 1..] == init[|init| - |q|..] + [path[|path| - 1]];
    }
  }

  /** The file name holds no separator. */
  lemma {:induction false} GetFileNameHasNoSeparator(path: string)
    ensures HasNoSeparator(GetFileName(path))
  {
    if |path| > 0 && path[|path| - 1] !in DirectorySeparators {
      GetFileNameHasNoSeparator(path[..|path| - 1]);
    }
  }

  /** The character before the file name, if any, is a separator. */
  lemma {:induction false} GetFileNameFollowsSeparator(path: string)
    ensures |GetFileName(path)| < |path| ==> path[|path| - |GetFileName(path)| - 1] in DirectorySeparators
  {
    if |path| > 0 && path[|path| - 1] !in DirectorySeparators {
      var init := path[..|path| - 1];
      GetFileNameFollowsSeparator(init);
      GetFileNameIsSuffix(init);
    }
  }

  /** The file name is the longest tail of the path without a separator: it has none,
      and the character before it, if any, is one. */
  lemma GetFileNameIsLastComponent(path: string)
    ensures var r := GetFileName(path);
      |r| <= |path| && path == path[..|path| - |r|] + r && HasNoSeparator(r) &&
      (|r| < |path| ==> path[|path| - |r| - 1] in DirectorySeparators)
  {
    GetFileNameIsSuffix(path);
    GetFileNameHasNoSeparator(path);
    GetFileNameFollowsSeparator(path);
    var r := GetFileName(path);
    assert path == path[..|path| - |r|] + path[|path| - |r|..];
  }

  /** The extension `Path.GetFileNameWithoutExtension` removes: empty, or a '.' followed by no other '.'. */
  predicate IsExtension(ext: string) {
    ext == [] || (ext[0] == '.' && forall i :: 1 <= i < |ext| ==> ext[i] != '.')
  }

  /** A file name up to its last '.', or all of it when it has none. */
  function StripExtension(name: string): (r: string)
    ensures |r| <= |name| && name == r + name[|r|..]
    ensures IsExtension(name[|r|..])
    ensures ('.' !in name) == (r == name)
  {
    var dot := LastIndexOfAny(name, {'.'});
    if dot < 0 then name else name[..dot]
  }

  /** `Path.GetFileNameWithoutExtension`: the file name of `path` up to its last '.'. */
  function GetFileNameWithoutExtension(path: string): string {
    StripExtension(GetFileName(path))
  }

  /** A path without separators is its own file name. */
  lemma {:induction false} GetFileNameOfName(name: string)
    requires HasNoSeparator(name)
    ensures GetFileName(name) == name
  {
    if |name| > 0 {
      GetFileNameOfName(name[..|name| - 1]);
      assert name == name[..|name| - 1] + [name[|name| - 1]];
    }
  }

  /** A file name is its own file name, so applying `GetFileName` twice changes nothing. */
  lemma GetFileNameIdempotent(path: string)
    ensures GetFileName(GetFileName(path)) == GetFileName(path)
  {
    GetFileNameIsLastComponent(path);
    GetFileNameOfName(GetFileName(path));
  }
}
