/**
  The runtime-identifier helper: canonical tokens for the host's processor
  architecture and operating system, the runtime identifier "{os}-{arch}", the
  directory runtimes/<rid>/native, and the platform file name of a native
  shared library.

  What the helper asks the .NET runtime (ProcessArchitecture, the three
  IsOSPlatform answers and the current directory) is passed in as a `Host`,
  so every operation is a total function of its inputs.
*/
module RidHelper {
  import opened Wrappers
  import opened DotNetPath

  /** System.Runtime.InteropServices.Architecture; `Other` stands for every member beyond the first four. */
  datatype Architecture = X86 | X64 | Arm | Arm64 | Other

  /**
    The host as the helper sees it. The three platform answers are independent
    queries: nothing makes them mutually exclusive, so all eight combinations
    are modelled. The directory separator and the rules for rooted paths follow
    `isWindows`.
  */
  datatype Host = Host(arch: Architecture, isWindows: bool, isMacOS: bool, isLinux: bool, cwd: string)

  /** RidHelper.GetRuntimeArchName: the four known architectures by name, anything else "unknown". */
  function GetRuntimeArchName(arch: Architecture): (r: string)
    ensures r in {"x86", "x64", "arm", "arm64", "unknown"}
    ensures r == "x86" <==> arch == X86
    ensures r == "x64" <==> arch == X64
    ensures r == "arm" <==> arch == Arm
    ensures r == "arm64" <==> arch == Arm64
    ensures r == "unknown" <==> arch == Other
  {
    match arch
    case X86 => "x86"
    case X64 => "x64"
    case Arm => "arm"
    case Arm64 => "arm64"
    case Other => "unknown"
  }

  /** Different known architectures never share a token, so the token names the architecture. */
  lemma ArchNameIsInjective(a: Architecture, b: Architecture)
    requires GetRuntimeArchName(a) == GetRuntimeArchName(b)
    ensures a == b
  {
  }

  /**
    RidHelper.GetRuntimeOSPlatformName: Windows is asked first, then macOS,
    then Linux; a host that answers no to all three is "unknown".
  */
  function GetRuntimeOSPlatformName(h: Host): (r: string)
    ensures r in {"win", "osx", "linux", "unknown"}
    ensures r == "win" <==> h.isWindows
    ensures r == "osx" <==> !h.isWindows && h.isMacOS
    ensures r == "linux" <==> !h.isWindows && !h.isMacOS && h.isLinux
    ensures r == "unknown" <==> !h.isWindows && !h.isMacOS && !h.isLinux
  {
    if h.isWindows then "win"
    else if h.isMacOS then "osx"
    else if h.isLinux then "linux"
    else "unknown"
  }

  /** A canonical token: lower-case letters and digits only, so no '-', '.' or separator. */
  ghost predicate IsToken(s: string) {
    forall i :: 0 <= i < |s| ==> ('a' <= s[i] <= 'z') || ('0' <= s[i] <= '9')
  }

  /** Both kinds of token are non-empty canonical tokens. */
  lemma TokensAreCanonical(h: Host)
    ensures var os, arch := GetRuntimeOSPlatformName(h), GetRuntimeArchName(h.arch);
      os != "" && arch != "" && IsToken(os) && IsToken(arch)
  {
  }

  /**
    RidHelper.GetRuntimeIdentifier: the OS token, a '-', and the architecture
    token, for every combination.
  */
  function GetRuntimeIdentifier(h: Host): string {
    GetRuntimeOSPlatformName(h) + "-" + GetRuntimeArchName(h.arch)
  }

  /** The first position of `c` in `s`, if any. */
  function IndexOf(s: string, c: char): (r: Option<nat>)
    ensures r.Some? ==> r.value < |s| && s[r.value] == c && c !in s[..r.value]
    ensures r.None? ==> c !in s
  {
    if s == [] then None
    else if s[0] == c then Some(0)
    else match IndexOf(s[1..], c)
      case None => None
      case Some(i) =>
        assert s[..i + 1] == [s[0]] + s[1..][..i];
        Some(i + 1)
  }

  /**
    Reads a runtime identifier back: the operating-system moniker is what
    precedes the first '-', the architecture what follows it.
  */
  function ParseRuntimeIdentifier(rid: string): Option<(string, string)> {
    match IndexOf(rid, '-')
    case None => None
    case Some(i) => Some((rid[..i], rid[i + 1..]))
  }

  /** Splitting `os + "-" + arch` at its first '-' gives back both parts when `os` has no '-'. */
  lemma ParseJoinedIdentifier(os: string, arch: string)
    requires '-' !in os
    ensures ParseRuntimeIdentifier(os + "-" + arch) == Some((os, arch))
  {
    var rid := os + "-" + arch;
    assert rid[|os|] == '-';
    assert rid[..|os|] == os;
    assert rid[|os| + 1..] == arch;
  }

  /** The runtime identifier reads back as exactly the OS token and the architecture token. */
  lemma RuntimeIdentifierRoundTrip(h: Host)
    ensures ParseRuntimeIdentifier(GetRuntimeIdentifier(h))
         == Some((GetRuntimeOSPlatformName(h), GetRuntimeArchName(h.arch)))
  {
    TokensAreCanonical(h);
    ParseJoinedIdentifier(GetRuntimeOSPlatformName(h), GetRuntimeArchName(h.arch));
  }

  /** Two hosts share a runtime identifier exactly when they share both tokens. */
  lemma RuntimeIdentifierIsInjective(h1: Host, h2: Host)
    ensures GetRuntimeIdentifier(h1) == GetRuntimeIdentifier(h2) <==>
      GetRuntimeOSPlatformName(h1) == GetRuntimeOSPlatformName(h2) && GetRuntimeArchName(h1.arch) == GetRuntimeArchName(h2.arch)
  {
    RuntimeIdentifierRoundTrip(h1);
    RuntimeIdentifierRoundTrip(h2);
  }

  /**
    The runtime identifier is one unrooted path segment: non-empty, with no
    '.' and no directory separator in it.
  */
  lemma RuntimeIdentifierIsOneSegment(h: Host)
    ensures var rid := GetRuntimeIdentifier(h);
      rid != "" && HasNoDelimiter(h.isWindows, rid) && !IsPathRooted(h.isWindows, rid)
  {
    var os, arch := GetRuntimeOSPlatformName(h), GetRuntimeArchName(h.arch);
    TokensAreCanonical(h);
    var rid := os + "-" + arch;
    forall i | 0 <= i < |rid|
      ensures rid[i] != '.' && !IsDirectorySeparator(h.isWindows, rid[i])
    {
      if i < |os| {
        assert rid[i] == os[i];
      } else if i > |os| {
        assert rid[i] == arch[i - |os| - 1];
      }
    }
    assert rid[0] == os[0];
    assert |os| > 1 ==> rid[1] == os[1];
  }

  /**
    RidHelper.GetRuntimeNativePath: runtimes/<rid>/native joined with the host's
    separator, and, when `absolute`, placed under the current directory.
  */
  function GetRuntimeNativePath(h: Host, absolute: bool): (r: string)
    ensures var sep := [DirectorySeparatorChar(h.isWindows)];
      !absolute ==> r == "runtimes" + sep + GetRuntimeIdentifier(h) + sep + "native"
    ensures absolute && h.cwd == "" ==> r == GetRuntimeNativePath(h, false)
  {
    var windows := h.isWindows;
    var relative := Combine3(windows, "runtimes", GetRuntimeIdentifier(h), "native");
    RelativeNativePathShape(h);
    if absolute then Combine(windows, h.cwd, relative) else relative
  }

  /** The three parts of runtimes/<rid>/native are joined with exactly one separator between each two. */
  lemma RelativeNativePathShape(h: Host)
    ensures var sep := [DirectorySeparatorChar(h.isWindows)];
      Combine3(h.isWindows, "runtimes", GetRuntimeIdentifier(h), "native")
        == "runtimes" + sep + GetRuntimeIdentifier(h) + sep + "native"
  {
    var rid := GetRuntimeIdentifier(h);
    RuntimeIdentifierIsOneSegment(h);
    assert !IsDirectorySeparator(h.isWindows, rid[|rid| - 1]);
    Combine3OfSegments(h.isWindows, "runtimes", rid, "native");
  }

  /** Both forms of the native directory end in its last segment, "native", never in a separator. */
  lemma NativePathEndsInNative(h: Host, absolute: bool)
    ensures var path := GetRuntimeNativePath(h, absolute);
      |path| >= 6 && path[|path| - 6..] == "native"
  {
    var relative := GetRuntimeNativePath(h, false);
    RelativeNativePathIsUnrooted(h);
    if absolute {
      CombineKeepsEnd(h.isWindows, h.cwd, relative, 6);
    }
  }

  /** The relative form starts with "runtimes", so it is not rooted, and ends with "native". */
  lemma RelativeNativePathIsUnrooted(h: Host)
    ensures var relative := GetRuntimeNativePath(h, false);
      && !IsPathRooted(h.isWindows, relative)
      && |relative| >= 6 && relative[|relative| - 6..] == "native"
  {
    var sep := [DirectorySeparatorChar(h.isWindows)];
    var relative := GetRuntimeNativePath(h, false);
    assert relative == "runtimes" + sep + GetRuntimeIdentifier(h) + sep + "native";
    assert relative[0] == 'r' && relative[1] == 'u';
  }

  /**
    The current directory is read on every call: two hosts that differ only in
    a non-empty current directory without a trailing separator get different
    absolute paths.
  */
  lemma AbsoluteNativePathFollowsCwd(h1: Host, h2: Host)
    requires h1.(cwd := h2.cwd) == h2
    requires h1.cwd != "" && !IsDirectorySeparator(h1.isWindows, h1.cwd[|h1.cwd| - 1])
    requires h2.cwd != "" && !IsDirectorySeparator(h2.isWindows, h2.cwd[|h2.cwd| - 1])
    requires h1.cwd != h2.cwd
    ensures GetRuntimeNativePath(h1, true) != GetRuntimeNativePath(h2, true)
  {
    var relative := GetRuntimeNativePath(h1, false);
    assert GetRuntimeNativePath(h2, false) == relative by {
      assert GetRuntimeIdentifier(h2) == GetRuntimeIdentifier(h1);
    }
    assert relative != "" && !IsDirectorySeparator(h1.isWindows, relative[0]) by {
      RelativeNativePathIsUnrooted(h1);
    }
    AbsoluteNativePathJoinsCwd(h1);
    AbsoluteNativePathJoinsCwd(h2);
    JoinSeparatesDirectories(h1.isWindows, h1.cwd, h2.cwd, relative);
  }

  /** A trailing separator on the current directory makes no difference to the absolute path. */
  lemma TrailingSeparatorOnCwdIsAbsorbed(h: Host)
    requires h.cwd != "" && !IsDirectorySeparator(h.isWindows, h.cwd[|h.cwd| - 1])
    ensures GetRuntimeNativePath(h.(cwd := h.cwd + [DirectorySeparatorChar(h.isWindows)]), true)
         == GetRuntimeNativePath(h, true)
  {
    var h' := h.(cwd := h.cwd + [DirectorySeparatorChar(h.isWindows)]);
    var relative := GetRuntimeNativePath(h, false);
    assert GetRuntimeNativePath(h', false) == relative;
    AbsoluteNativePathJoinsCwd(h);
    AbsoluteNativePathJoinsCwd(h');
    assert h'.cwd[|h'.cwd| - 1] == DirectorySeparatorChar(h.isWindows);
  }

  /** Under a non-empty current directory the absolute path is the join of that directory and the relative path. */
  lemma AbsoluteNativePathJoinsCwd(h: Host)
    requires h.cwd != ""
    ensures GetRuntimeNativePath(h, true) == Join(h.isWindows, h.cwd, GetRuntimeNativePath(h, false))
  {
    RelativeNativePathIsUnrooted(h);
  }

  /**
    RidHelper.GetSharedLibraryExtension: "dll" on Windows, otherwise "dylib" on
    macOS, otherwise "so"; `withDot` puts one '.' in front.
  */
  function GetSharedLibraryExtension(h: Host, withDot: bool): (r: string)
    ensures withDot <==> |r| > 0 && r[0] == '.'
    ensures var base := if withDot then r[1..] else r;
      && (base == "dll" <==> h.isWindows)
      && (base == "dylib" <==> !h.isWindows && h.isMacOS)
      && (base == "so" <==> !h.isWindows && !h.isMacOS)
      && base != ""
      && HasNoDelimiter(h.isWindows, base)
  {
    var ext :=
      if h.isWindows then "dll"
      else if h.isMacOS then "dylib"
      else "so";
    if withDot then "." + ext else ext
  }

  /**
    The library extension agrees with the OS token: "dll" with "win", "dylib"
    with "osx", and "so" with both "linux" and "unknown".
  */
  lemma ExtensionMatchesPlatformName(h: Host)
    ensures var os, ext := GetRuntimeOSPlatformName(h), GetSharedLibraryExtension(h, false);
      && (ext == "dll" <==> os == "win")
      && (ext == "dylib" <==> os == "osx")
      && (ext == "so" <==> os == "linux" || os == "unknown")
  {
  }

  /**
    The prefix step of RidHelper.GetNativeLibraryName: off Windows, "lib" is put
    in front of a name that does not already start with it (an ordinal test).
  */
  function PrefixedLibraryName(h: Host, name: string): (r: string)
    ensures r == name || r == "lib" + name
    ensures !h.isWindows ==> "lib" <= r
    ensures h.isWindows || "lib" <= name ==> r == name
  {
    if !h.isWindows && !("lib" <= name) then "lib" + name else name
  }

  /**
    RidHelper.GetNativeLibraryName: the prefix step, then, when the prefixed
    name has no extension, the dotted shared-library extension. The result
    always has an extension; a name that already had one (of whatever kind)
    keeps it.
  */
  function GetNativeLibraryName(h: Host, name: string): (r: string)
    ensures var stem := PrefixedLibraryName(h, name);
      && (r == stem || r == stem + GetSharedLibraryExtension(h, true))
      && (r == stem <==> HasExtension(h.isWindows, stem))
    ensures HasExtension(h.isWindows, r)
    ensures !h.isWindows ==> "lib" <= r
  {
    var stem := PrefixedLibraryName(h, name);
    var ext := GetSharedLibraryExtension(h, true);
    if !HasExtension(h.isWindows, stem) then
      AppendedExtension(h.isWindows, stem, ext[1..]);
      assert stem + ext == stem + "." + ext[1..];
      stem + ext
    else
      stem
  }

  /** Normalising a library name twice is the same as normalising it once. */
  lemma NativeLibraryNameIsIdempotent(h: Host, name: string)
    ensures GetNativeLibraryName(h, GetNativeLibraryName(h, name)) == GetNativeLibraryName(h, name)
  {
  }

  /** A normalised name is never rooted, except on Windows where a rooted name passes through unchanged. */
  lemma NativeLibraryNameRooting(h: Host, name: string)
    ensures |GetNativeLibraryName(h, name)| >= 2
    ensures !h.isWindows ==> !IsPathRooted(h.isWindows, GetNativeLibraryName(h, name))
    ensures IsPathRooted(h.isWindows, GetNativeLibraryName(h, name)) <==>
      h.isWindows && IsPathRooted(h.isWindows, name)
  {
    var r := GetNativeLibraryName(h, name);
    if h.isWindows {
      assert PrefixedLibraryName(h, name) == name;
      if name != "" {
        assert r[0] == name[0];
      }
      if |name| >= 2 {
        assert r[1] == name[1];
      } else if |name| == 1 && r != name {
        assert r[1] == '.';
      }
    } else {
      assert r[0] == 'l';
    }
  }

  /**
    RidHelper.GetDllImportPath: the native directory and the normalised file
    name, joined by one separator; only a rooted file name (possible on
    Windows alone) replaces the directory.
  */
  function GetDllImportPath(h: Host, libraryName: string, absolute: bool): (r: string)
    ensures var dir, file := GetRuntimeNativePath(h, absolute), GetNativeLibraryName(h, libraryName);
      && (IsPathRooted(h.isWindows, file) ==> r == file)
      && (!IsPathRooted(h.isWindows, file) ==> r == dir + [DirectorySeparatorChar(h.isWindows)] + file)
      && (!h.isWindows ==> r == dir + [DirectorySeparatorChar(h.isWindows)] + file)
  {
    var nativePath := GetRuntimeNativePath(h, absolute);
    var fileName := GetNativeLibraryName(h, libraryName);
    NativeLibraryNameRooting(h, libraryName);
    NativePathEndsInNative(h, absolute);
    Combine(h.isWindows, nativePath, fileName)
  }

  /** The identifier and the native directory of a Linux host. */
  lemma LinuxPathExample()
    ensures var linux := Host(X64, false, false, true, "/app");
      && GetRuntimeIdentifier(linux) == "linux-x64"
      && GetRuntimeNativePath(linux, false) == "runtimes/linux-x64/native"
  {
    var linux := Host(X64, false, false, true, "/app");
    assert GetRuntimeIdentifier(linux) == "linux" + "-" + "x64";
    RelativeNativePathShape(linux);
  }

  /** Library file names on a Linux host: "lib" is added once, and ".so" where no extension is present. */
  lemma LinuxLibraryNameExample()
    ensures var linux := Host(X64, false, false, true, "/app");
      && GetNativeLibraryName(linux, "foo") == "libfoo.so"
      && GetNativeLibraryName(linux, "libfoo") == "libfoo.so"
  {
    var linux := Host(X64, false, false, true, "/app");
    assert GetSharedLibraryExtension(linux, true) == ".so";
    NoDotNoExtension(false, "libfoo");
    assert GetNativeLibraryName(linux, "foo") == "libfoo" + ".so";
    assert GetNativeLibraryName(linux, "libfoo") == "libfoo" + ".so";
  }

  /** On a Linux host a name with a foreign extension is prefixed but gets no ".so". */
  lemma LinuxForeignExtensionExample()
    ensures GetNativeLibraryName(Host(X64, false, false, true, "/app"), "foo.bin") == "libfoo.bin"
  {
    var linux := Host(X64, false, false, true, "/app");
    assert !("lib" <= "foo.bin") by {
      assert "foo.bin"[0] != "lib"[0];
    }
    assert PrefixedLibraryName(linux, "foo.bin") == "libfoo.bin";
    ExtensionDotIsLastDelimiter(false, "libfoo.bin", 6);
  }

  /** The identifier of a macOS host on 64-bit ARM. */
  lemma MacIdentifierExample()
    ensures GetRuntimeIdentifier(Host(Arm64, false, true, false, "/Users/me")) == "osx-arm64"
  {
    assert GetRuntimeIdentifier(Host(Arm64, false, true, false, "/Users/me")) == "osx" + "-" + "arm64";
  }

  /** On a macOS host a bare name gets "lib" and ".dylib". */
  lemma MacLibraryNameExample()
    ensures GetNativeLibraryName(Host(Arm64, false, true, false, "/Users/me"), "foo") == "libfoo.dylib"
  {
    var mac := Host(Arm64, false, true, false, "/Users/me");
    assert GetSharedLibraryExtension(mac, true) == ".dylib";
    assert PrefixedLibraryName(mac, "foo") == "libfoo" by {
      assert "foo"[0] != "lib"[0];
    }
    NoDotNoExtension(false, "libfoo");
    assert GetNativeLibraryName(mac, "foo") == "libfoo" + ".dylib";
  }

  /** The identifier and the native directory of a Windows host, with its own separator. */
  lemma WindowsPathExample()
    ensures var windows := Host(X86, true, false, false, "C:\\app");
      && GetRuntimeIdentifier(windows) == "win-x86"
      && GetRuntimeNativePath(windows, false) == "runtimes\\win-x86\\native"
  {
    var windows := Host(X86, true, false, false, "C:\\app");
    assert GetRuntimeIdentifier(windows) == "win" + "-" + "x86";
  }

  /** The relative import path of a library on a Windows host. */
  lemma WindowsImportPathExample()
    ensures GetDllImportPath(Host(X86, true, false, false, "C:\\app"), "foo", false)
         == "runtimes\\win-x86\\native\\foo.dll"
  {
    var windows := Host(X86, true, false, false, "C:\\app");
    WindowsPathExample();
    WindowsLibraryNameExample();
    assert !IsPathRooted(true, "foo.dll");
  }

  /** Library file names on a Windows host: no prefix, and ".dll" only where no extension is present. */
  lemma WindowsLibraryNameExample()
    ensures var windows := Host(X86, true, false, false, "C:\\app");
      && GetNativeLibraryName(windows, "foo") == "foo.dll"
      && GetNativeLibraryName(windows, "libfoo") == "libfoo.dll"
      && GetNativeLibraryName(windows, "foo.bin") == "foo.bin"
  {
    var windows := Host(X86, true, false, false, "C:\\app");
    assert GetSharedLibraryExtension(windows, true) == ".dll";
    assert GetNativeLibraryName(windows, "foo") == "foo" + ".dll" by {
      NoDotNoExtension(true, "foo");
    }
    assert GetNativeLibraryName(windows, "libfoo") == "libfoo" + ".dll" by {
      NoDotNoExtension(true, "libfoo");
    }
    assert GetNativeLibraryName(windows, "foo.bin") == "foo.bin" by {
      ExtensionDotIsLastDelimiter(true, "foo.bin", 3);
    }
  }

  /** On Windows a rooted library name is used as it is, whatever the native directory. */
  lemma WindowsRootedNameExample()
    ensures var windows := Host(X86, true, false, false, "C:\\app");
      GetDllImportPath(windows, "D:\\lib\\foo", true) == "D:\\lib\\foo.dll"
  {
    var windows := Host(X86, true, false, false, "C:\\app");
    var rooted := GetNativeLibraryName(windows, "D:\\lib\\foo");
    assert rooted == "D:\\lib\\foo.dll" by {
      assert GetSharedLibraryExtension(windows, true) == ".dll";
      NoDotNoExtension(true, "D:\\lib\\foo");
    }
    assert IsPathRooted(true, rooted);
  }

  /** A host that answers no to every platform query and runs an unlisted architecture. */
  lemma UnknownHostExample()
    ensures GetRuntimeIdentifier(Host(Other, false, false, false, "")) == "unknown-unknown"
  {
  }
}
