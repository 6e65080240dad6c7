/**
  The parts of .NET's System.IO.Path that the runtime-identifier helper calls:
  the directory separator, IsPathRooted, HasExtension and Combine (two and
  three arguments). Each function takes `windows`, because the Windows and the
  Unix builds of .NET disagree on which characters separate directories and on
  what makes a path rooted.
*/
module DotNetPath {
  import opened Wrappers

  /** Path.DirectorySeparatorChar: '\' on Windows, '/' elsewhere. */
  function DirectorySeparatorChar(windows: bool): char {
    if windows then '\\' else '/'
  }

  /** A character that ends a path segment: '/' everywhere, '\' as well on Windows. */
  predicate IsDirectorySeparator(windows: bool, c: char) {
    c == '/' || (windows && c == '\\')
  }

  predicate IsValidDriveChar(c: char) {
    ('A' <= c <= 'Z') || ('a' <= c <= 'z')
  }

  /**
    Path.IsPathRooted: a leading separator, or on Windows a drive letter and ':'.
    Off Windows only a leading '/' roots a path.
  */
  predicate IsPathRooted(windows: bool, path: string)
    ensures IsPathRooted(windows, path) ==> path != ""
    ensures !windows ==> (IsPathRooted(windows, path) <==> path != "" && path[0] == '/')
  {
    || (|path| >= 1 && IsDirectorySeparator(windows, path[0]))
    || (windows && |path| >= 2 && IsValidDriveChar(path[0]) && path[1] == ':')
  }

  /** Whatever roots a path on Unix roots it on Windows too; a drive or a '\' roots it on Windows alone. */
  lemma RootedPathRules(path: string)
    ensures IsPathRooted(false, path) ==> IsPathRooted(true, path)
    ensures IsPathRooted(true, "C:x") && !IsPathRooted(false, "C:x")
    ensures IsPathRooted(true, "\\x") && !IsPathRooted(false, "\\x")
    ensures !IsPathRooted(true, "1:") && !IsPathRooted(true, "runtimes")
  {
  }

  /** No character of `path` after position `i` is a '.' or a directory separator. */
  ghost predicate NothingDelimitsAfter(windows: bool, path: string, i: int) {
    forall j :: 0 <= j < |path| && i < j ==> path[j] != '.' && !IsDirectorySeparator(windows, path[j])
  }

  /**
    The position of the '.' that opens the extension of the last path segment.
    The path is scanned back from its end; the first '.' or separator met
    decides, and there is none when a separator or the start comes first.
  */
  function ExtensionDot(windows: bool, path: string): (r: Option<nat>)
    ensures r.Some? ==> r.value < |path| && path[r.value] == '.' && NothingDelimitsAfter(windows, path, r.value)
    decreases |path|
  {
    if path == [] then None
    else
      var last := path[|path| - 1];
      if last == '.' then Some(|path| - 1)
      else if IsDirectorySeparator(windows, last) then None
      else ExtensionDot(windows, path[..|path| - 1])
  }

  /** A '.' with neither a '.' nor a separator after it is the one the backward scan finds. */
  lemma {:induction false} ExtensionDotIsLastDelimiter(windows: bool, path: string, i: nat)
    requires i < |path| && path[i] == '.' && NothingDelimitsAfter(windows, path, i)
    ensures ExtensionDot(windows, path) == Some(i)
    decreases |path|
  {
    if i < |path| - 1 {
      var init := path[..|path| - 1];
      assert path[|path| - 1] != '.' && !IsDirectorySeparator(windows, path[|path| - 1]);
      assert init[i] == '.';
      assert NothingDelimitsAfter(windows, init, i) by {
        forall j | 0 <= j < |init| && i < j
          ensures init[j] != '.' && !IsDirectorySeparator(windows, init[j])
        {
          assert init[j] == path[j];
        }
      }
      ExtensionDotIsLastDelimiter(windows, init, i);
    }
  }

  /** Path.HasExtension: the backward scan finds a '.' that is not the final character. */
  function HasExtension(windows: bool, path: string): (r: bool)
    ensures r ==> exists i :: 0 <= i < |path| - 1 && path[i] == '.' && NothingDelimitsAfter(windows, path, i)
  {
    match ExtensionDot(windows, path)
    case Some(i) => assert path[i] == '.'; i != |path| - 1
    case None => false
  }

  /**
    A path has an extension exactly when its last segment has a '.' that is not
    the final character and is followed by no other '.'.
  */
  lemma HasExtensionMeaning(windows: bool, path: string)
    ensures HasExtension(windows, path) <==>
      exists i :: 0 <= i < |path| - 1 && path[i] == '.' && NothingDelimitsAfter(windows, path, i)
  {
    if exists i :: 0 <= i < |path| - 1 && path[i] == '.' && NothingDelimitsAfter(windows, path, i) {
      var i :| 0 <= i < |path| - 1 && path[i] == '.' && NothingDelimitsAfter(windows, path, i);
      ExtensionDotIsLastDelimiter(windows, path, i);
    }
  }

  /** Text with no '.' and no directory separator in it, such as what follows the '.' of an extension. */
  ghost predicate HasNoDelimiter(windows: bool, text: string) {
    forall j :: 0 <= j < |text| ==> text[j] != '.' && !IsDirectorySeparator(windows, text[j])
  }

  /**
    Appending '.' and extension text to any path gives a path whose extension
    starts at that '.'; it has an extension exactly when the text is not empty.
  */
  lemma AppendedExtension(windows: bool, stem: string, ext: string)
    requires HasNoDelimiter(windows, ext)
    ensures ExtensionDot(windows, stem + "." + ext) == Some(|stem|)
    ensures HasExtension(windows, stem + "." + ext) <==> ext != ""
  {
    DotStartsLastSegmentSuffix(windows, stem, ext);
    ExtensionDotIsLastDelimiter(windows, stem + "." + ext, |stem|);
  }

  /** The appended '.' is followed by nothing that delimits. */
  lemma DotStartsLastSegmentSuffix(windows: bool, stem: string, ext: string)
    requires HasNoDelimiter(windows, ext)
    ensures var p := stem + "." + ext; p[|stem|] == '.' && NothingDelimitsAfter(windows, p, |stem|)
  {
    var p := stem + "." + ext;
    forall j | 0 <= j < |p| && |stem| < j
      ensures p[j] != '.' && !IsDirectorySeparator(windows, p[j])
    {
      assert p[j] == ext[j - |stem| - 1];
    }
  }

  /** The join step of Path.Combine: one separator between the parts unless one is already there. */
  function Join(windows: bool, first: string, second: string): string
    requires first != "" && second != ""
  {
    if IsDirectorySeparator(windows, first[|first| - 1]) || IsDirectorySeparator(windows, second[0])
    then first + second
    else first + [DirectorySeparatorChar(windows)] + second
  }

  /**
    Path.Combine(first, second): an empty part is dropped, a rooted second part
    replaces the first, and otherwise the two are joined so that a separator
    stands right before the second part; one is inserted only when the first
    part does not already end in one.
  */
  function Combine(windows: bool, first: string, second: string): (r: string)
    ensures first == "" ==> r == second
    ensures second == "" ==> r == first
    ensures IsPathRooted(windows, second) ==> r == second
    ensures first != "" && second != "" && !IsPathRooted(windows, second) ==>
      && |first| + |second| <= |r| <= |first| + |second| + 1
      && first <= r
      && r[|r| - |second|..] == second
      && IsDirectorySeparator(windows, r[|r| - |second| - 1])
      && (r == first + second <==> IsDirectorySeparator(windows, first[|first| - 1]))
      && (r != first + second ==> r == first + [DirectorySeparatorChar(windows)] + second)
  {
    if first == "" then second
    else if second == "" then first
    else if IsPathRooted(windows, second) then second
    else Join(windows, first, second)
  }

  /** The three-part join step of Path.Combine(first, second, third). */
  function Join3(windows: bool, first: string, second: string, third: string): string
    requires first != "" && second != "" && third != ""
  {
    var firstGlue :=
      if IsDirectorySeparator(windows, first[|first| - 1]) || IsDirectorySeparator(windows, second[0])
      then "" else [DirectorySeparatorChar(windows)];
    var secondGlue :=
      if IsDirectorySeparator(windows, second[|second| - 1]) || IsDirectorySeparator(windows, third[0])
      then "" else [DirectorySeparatorChar(windows)];
    first + firstGlue + second + secondGlue + third
  }

  /**
    Path.Combine(first, second, third): empty parts are dropped, the last
    rooted part discards everything before it, and the rest are joined.
  */
  function Combine3(windows: bool, first: string, second: string, third: string): string
  {
    if first == "" then Combine(windows, second, third)
    else if second == "" then Combine(windows, first, third)
    else if third == "" then Combine(windows, first, second)
    else if IsPathRooted(windows, third) then third
    else if IsPathRooted(windows, second) then Combine(windows, second, third)
    else Join3(windows, first, second, third)
  }

  /** Combining three parts at once is the same as combining the first two and then the third. */
  lemma Combine3IsNestedCombine(windows: bool, first: string, second: string, third: string)
    ensures Combine3(windows, first, second, third) == Combine(windows, Combine(windows, first, second), third)
  {
    if first != "" && second != "" && third != ""
      && !IsPathRooted(windows, second) && !IsPathRooted(windows, third)
    {
      Join3IsNestedJoin(windows, first, second, third);
    }
  }

  /** The three-part join equals two two-part joins. */
  lemma Join3IsNestedJoin(windows: bool, first: string, second: string, third: string)
    requires first != "" && second != "" && third != ""
    ensures Join3(windows, first, second, third) == Join(windows, Join(windows, first, second), third)
  {
    var firstTwo := Join(windows, first, second);
    assert firstTwo[|firstTwo| - 1] == second[|second| - 1];
  }

  /** Combining onto any directory keeps the end of an unrooted second part. */
  lemma CombineKeepsEnd(windows: bool, first: string, second: string, n: nat)
    requires !IsPathRooted(windows, second) && n <= |second|
    ensures var r := Combine(windows, first, second);
      n <= |r| && r[|r| - n..] == second[|second| - n..]
  {
    var r := Combine(windows, first, second);
    if first != "" && second != "" {
      assert r[|r| - n..] == r[|r| - |second|..][|second| - n..];
    }
  }

  /** Three parts that neither start nor end with a separator, the later two unrooted, are joined with one separator each. */
  lemma Combine3OfSegments(windows: bool, first: string, second: string, third: string)
    requires first != "" && second != "" && third != ""
    requires !IsDirectorySeparator(windows, first[|first| - 1])
    requires !IsDirectorySeparator(windows, second[|second| - 1])
    requires !IsPathRooted(windows, second) && !IsPathRooted(windows, third)
    ensures var sep := [DirectorySeparatorChar(windows)];
      Combine3(windows, first, second, third) == first + sep + second + sep + third
  {
  }

  /** Joining one unrooted path onto two different directories, neither ending in a separator, gives different paths. */
  lemma JoinSeparatesDirectories(windows: bool, dir1: string, dir2: string, path: string)
    requires dir1 != "" && !IsDirectorySeparator(windows, dir1[|dir1| - 1])
    requires dir2 != "" && !IsDirectorySeparator(windows, dir2[|dir2| - 1])
    requires path != "" && !IsDirectorySeparator(windows, path[0])
    requires dir1 != dir2
    ensures Join(windows, dir1, path) != Join(windows, dir2, path)
  {
    var sep := [DirectorySeparatorChar(windows)];
    var p1, p2 := Join(windows, dir1, path), Join(windows, dir2, path);
    assert p1 == dir1 + sep + path && p2 == dir2 + sep + path;
    if |dir1| == |dir2| {
      assert p1[..|dir1|] == dir1 && p2[..|dir2|] == dir2;
    }
  }

  /** A path without any '.' has no extension. */
  lemma NoDotNoExtension(windows: bool, path: string)
    requires forall i :: 0 <= i < |path| ==> path[i] != '.'
    ensures !HasExtension(windows, path)
  {
  }

  /** Path.HasExtension on a few paths: only a '.' inside the last segment and not at its end counts. */
  lemma HasExtensionExamples()
    ensures HasExtension(false, "foo.bin") && HasExtension(false, "libfoo.so.1")
    ensures !HasExtension(false, "foo") && !HasExtension(false, "foo.") && !HasExtension(false, "a.b.")
    ensures !HasExtension(false, "dir.d/foo") && HasExtension(false, "dir\\foo.d")
    ensures !HasExtension(true, "dir.d\\foo")
  {
    ExtensionDotIsLastDelimiter(false, "foo.bin", 3);
    ExtensionDotIsLastDelimiter(false, "libfoo.so.1", 9);
    ExtensionDotIsLastDelimiter(false, "foo.", 3);
    ExtensionDotIsLastDelimiter(false, "a.b.", 3);
    ExtensionDotIsLastDelimiter(false, "dir\\foo.d", 7);
    assert "dir.d/foo"[5] == '/';
    assert "dir.d\\foo"[5] == '\\';
  }
}
