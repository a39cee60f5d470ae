/**
  The members of System.IO.Path that ModEntry uses, with the behaviour of
  .NET Framework on Windows: '\\' is the directory separator, '/' the
  alternative one and ':' the volume separator.
*/
module DotNetPath {

  import opened Wrappers

  const DirectorySeparatorChar: char := '\\'
  const AltDirectorySeparatorChar: char := '/'
  const VolumeSeparatorChar: char := ':'

  predicate IsSeparator(ch: char) {
    ch == DirectorySeparatorChar || ch == AltDirectorySeparatorChar || ch == VolumeSeparatorChar
  }

  predicate EndsWith(s: string, suffix: string) {
    |suffix| <= |s| && s[|s| - |suffix|..] == suffix
  }

  /**
    The position of the first '.' met when scanning `path` backwards, if the
    scan meets it before a separator or the start of the string.
  */
  function ExtensionDot(path: string): (r: Option<nat>)
    ensures r.Some? ==> r.value < |path| && path[r.value] == '.'
    ensures r.Some? ==> forall j :: r.value < j < |path| ==> path[j] != '.' && !IsSeparator(path[j])
    ensures r.None? ==> forall j :: 0 <= j < |path| && path[j] == '.' ==> exists k :: j < k < |path| && IsSeparator(path[k])
    decreases |path|
  {
    if |path| == 0 then None
    else
      var i := |path| - 1;
      if path[i] == '.' then Some(i)
      else if IsSeparator(path[i]) then None
      else ExtensionDot(path[..i])
  }

  /** Path.HasExtension: the last file-name segment has a '.' that is not its last character. */
  predicate HasExtension(path: string) {
    match ExtensionDot(path)
    case Some(i) => i != |path| - 1
    case None => false
  }

  /** Path.GetExtension: from that '.' to the end, or "" when there is none. */
  function GetExtension(path: string): (ext: string)
    ensures ext != "" <==> HasExtension(path)
    ensures ext != "" ==> |ext| >= 2 && ext[0] == '.' && EndsWith(path, ext)
    ensures ext != "" ==> forall j :: 0 < j < |ext| ==> ext[j] != '.' && !IsSeparator(ext[j])
  {
    match ExtensionDot(path)
    case Some(i) => if i != |path| - 1 then path[i..] else ""
    case None => ""
  }

  /** Path.IsPathRooted: starts with a separator, or has a drive letter ("C:..."). */
  predicate IsPathRooted(path: string) {
    (|path| >= 1 && (path[0] == DirectorySeparatorChar || path[0] == AltDirectorySeparatorChar))
    || (|path| >= 2 && path[1] == VolumeSeparatorChar)
  }

  /**
    Path.Combine(path1, path2): `path2` alone when it is rooted (or `path1` is
    empty), otherwise the two joined by exactly one separator.
  */
  function Combine(path1: string, path2: string): (r: string)
    ensures path2 == "" ==> r == path1
    ensures path2 != "" && (path1 == "" || IsPathRooted(path2)) ==> r == path2
    ensures path2 != "" ==> EndsWith(r, path2)
    ensures path2 != "" && path1 != "" && !IsPathRooted(path2) ==>
      |path1| + |path2| <= |r| <= |path1| + |path2| + 1 && r[..|path1|] == path1 && IsSeparator(r[|r| - |path2| - 1])
    ensures path2 != "" && path1 != "" && !IsPathRooted(path2) ==>
      (|r| == |path1| + |path2| <==> IsSeparator(path1[|path1| - 1]))
    ensures path2 != "" && path1 != "" && !IsPathRooted(path2) && !IsSeparator(path1[|path1| - 1]) ==>
      r[|path1|] == DirectorySeparatorChar
  {
    if |path2| == 0 then path1
    else if |path1| == 0 then path2
    else if IsPathRooted(path2) then path2
    else if !IsSeparator(path1[|path1| - 1]) then path1 + [DirectorySeparatorChar] + path2
    else path1 + path2
  }

  /** The position of the last separator in `path`, or -1 when it has none. */
  function LastSeparator(path: string): (r: int)
    ensures -1 <= r < |path|
    ensures r >= 0 ==> IsSeparator(path[r])
    ensures forall j :: r < j < |path| ==> !IsSeparator(path[j])
    decreases |path|
  {
    if |path| == 0 then -1
    else if IsSeparator(path[|path| - 1]) then |path| - 1
    else LastSeparator(path[..|path| - 1])
  }

  /** Path.GetFileName: what follows the last separator. */
  function GetFileName(path: string): (r: string)
    ensures EndsWith(path, r)
    ensures forall j :: 0 <= j < |r| ==> !IsSeparator(r[j])
    ensures |r| == |path| || IsSeparator(path[|path| - |r| - 1])
  {
    path[LastSeparator(path) + 1..]
  }

  /**
    Whatever precedes a file name that has a '.' in it does not change where
    its extension starts.
  */
  lemma {:induction false} ExtensionDotOfSuffix(prefix: string, name: string)
    requires ExtensionDot(name).Some?
    ensures ExtensionDot(prefix + name) == Some(|prefix| + ExtensionDot(name).value)
    decreases |name|
  {
    var whole := prefix + name;
    var i := |name| - 1;
    assert whole[|whole| - 1] == name[i];
    if name[i] != '.' {
      assert whole[..|whole| - 1] == prefix + name[..i];
      ExtensionDotOfSuffix(prefix, name[..i]);
    }
  }

  /** Hence a prefix does not change the extension either. */
  lemma ExtensionOfSuffix(prefix: string, name: string)
    requires HasExtension(name)
    ensures HasExtension(prefix + name)
    ensures GetExtension(prefix + name) == GetExtension(name)
  {
    ExtensionDotOfSuffix(prefix, name);
    var k := ExtensionDot(name).value;
    assert (prefix + name)[|prefix| + k..] == name[k..];
  }

  /** Putting a directory in front of a file name keeps its extension. */
  lemma {:induction false} CombineKeepsExtension(path1: string, path2: string)
    requires HasExtension(path2)
    ensures HasExtension(Combine(path1, path2))
    ensures GetExtension(Combine(path1, path2)) == GetExtension(path2)
  {
    var r := Combine(path1, path2);
    var prefix := r[..|r| - |path2|];
    assert r == prefix + path2;
    ExtensionOfSuffix(prefix, path2);
  }
}
