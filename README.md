# RidHelper in Dafny

This project models `RidHelper`, a small static C# class. It computes a .NET
runtime identifier (RID) for the host and derives from it where the native
library of an application lives. It provides:

- canonical tokens for the host's processor architecture (`x86`, `x64`, `arm`,
  `arm64`, else `unknown`) and operating system (`win`, `osx`, `linux`, else
  `unknown`);
- the identifier `"{os}-{arch}"`, a reduced form of the RID format
  `[os].[version]-[architecture]-[qualifiers]` with no version and no
  qualifiers;
- the directory `runtimes/<rid>/native`, relative or under the current
  directory;
- the platform file name of a shared library: a `lib` prefix off Windows, and
  `.dll`, `.dylib` or `.so` when the name has no extension;
- the import path, which joins that directory and that file name.

Everything the class asks the .NET runtime is passed in as one value,
`RidHelper.Host(arch, isWindows, isMacOS, isLinux, cwd)`:

- `arch` is `RuntimeInformation.ProcessArchitecture`.
- The three booleans answer `IsWindows()`, `IsMacOS()` and `IsLinux()`, which
  are `RuntimeInformation.IsOSPlatform` queries. They are independent: all
  eight combinations are modelled.
- `cwd` is `Directory.GetCurrentDirectory()`.

Every operation is then a total Dafny function of its inputs. The class has no
fields and no loops, so the model has no classes and no methods.

The class calls three members of `System.IO.Path`: `Combine` with two and
three arguments, and `HasExtension`. Module `DotNetPath` models them, following
.NET Core:

- `HasExtension` scans back from the end of the path to the first `.` or
  directory separator. The path has an extension when that character is a `.`
  and is not the last character.
- `Combine` drops empty parts. A rooted later part discards the earlier ones.
  Otherwise the parts are joined with one separator, unless a separator is
  already at the junction. That join step is `Join` in the model, and `Join3`
  for three parts.
- The separator is `\` on Windows and `/` elsewhere. Windows also accepts `/`
  as a separator and a drive letter followed by `:` as a root.

The model takes the separator and the rootedness rules from the `isWindows`
flag.

Modules: `Wrappers` (an `Option` type), `DotNetPath` (the `Path` members), and
`RidHelper` (the class).

Two consequences of the code are worth knowing:

- Off Windows the prefix step runs before the extension test, so
  `GetNativeLibraryName("foo.bin")` is `"libfoo.bin"`. Only on Windows is it
  `"foo.bin"`. See `LinuxForeignExtensionExample` and
  `WindowsLibraryNameExample`.
- The absolute native path follows the current directory when the directory
  does not end in a separator (`AbsoluteNativePathFollowsCwd`). A trailing
  separator on the current directory is absorbed by `Path.Combine`, so `/app`
  and `/app/` give the same absolute path (`TrailingSeparatorOnCwdIsAbsorbed`).

## Model

| member | source | states |
|---|---|---|
| `RidHelper.GetRuntimeArchName` | RidHelper.cs:24-40 | Each known architecture gets its own token, in both directions: `x86` exactly for `X86`, `x64` exactly for `X64`, `arm` exactly for `Arm`, `arm64` exactly for `Arm64`. `unknown` is returned exactly for any other architecture, and that case does not fail. The result is always one of those five. |
| `RidHelper.ArchNameIsInjective` | RidHelper.cs:28-37 | Two architectures with the same token are the same, so each listed architecture gets its own token. |
| `RidHelper.GetRuntimeOSPlatformName` | RidHelper.cs:57-70 | Checks in priority order. `win` exactly when Windows, whatever the other flags. `osx` exactly when not Windows and macOS. `linux` exactly when neither of those and Linux. `unknown` exactly when no flag is set. The result is always one of those four. |
| `RidHelper.TokensAreCanonical` | RidHelper.cs:72-76 | Both tokens are non-empty and made only of lower-case letters and digits, so neither contains `-`. |
| `RidHelper.GetRuntimeIdentifier` | RidHelper.cs:72-78 | The OS token, `-`, and the architecture token. It has no contract of its own. `RuntimeIdentifierRoundTrip`, `RuntimeIdentifierIsInjective` and `RuntimeIdentifierIsOneSegment` state what it computes. |
| `RidHelper.RuntimeIdentifierRoundTrip` | RidHelper.cs:72-78 | Splitting the identifier at its first `-` gives back exactly the OS token and the architecture token, for every combination of flags. |
| `RidHelper.RuntimeIdentifierIsInjective` | RidHelper.cs:72-78 | Two hosts have the same identifier if and only if they have the same OS token and the same architecture token. |
| `RidHelper.RuntimeIdentifierIsOneSegment` | RidHelper.cs:76 | The identifier is non-empty, contains no `.` and no directory separator, and is not rooted, so it is a single path segment. |
| `RidHelper.GetRuntimeNativePath` | RidHelper.cs:80-91 | The relative form is `runtimes`, separator, rid, separator, `native`. With an empty current directory, the absolute form equals the relative one. |
| `RidHelper.RelativeNativePathShape` | RidHelper.cs:82-83 | `Path.Combine("runtimes", rid, "native")` puts exactly one separator between each two of its parts. |
| `RidHelper.RelativeNativePathIsUnrooted` | RidHelper.cs:82-83 | The relative form is not rooted, because it starts with `runtimes`, and it ends with `native`. So the later `Path.Combine` calls never discard it. |
| `RidHelper.NativePathEndsInNative` | RidHelper.cs:80-91 | Both forms of the directory end in `native`, never in a separator. |
| `RidHelper.AbsoluteNativePathJoinsCwd` | RidHelper.cs:85-88 | Under a non-empty current directory, the absolute form is `Join` of that directory and the relative form. A separator is added at the junction only when the directory does not already end in one. |
| `RidHelper.AbsoluteNativePathFollowsCwd` | RidHelper.cs:85-88 | The current directory is read on every call. Two different non-empty directories that do not end in a separator give different absolute paths. |
| `RidHelper.TrailingSeparatorOnCwdIsAbsorbed` | RidHelper.cs:87 | Adding a trailing separator to a non-empty current directory that does not already end in one does not change the absolute path. |
| `RidHelper.GetSharedLibraryExtension` | RidHelper.cs:93-108 | The base extension is `dll` exactly on Windows. Otherwise it is `dylib` exactly on macOS, and `so` otherwise, whatever `isLinux` says. A leading `.` is present if and only if `withDot`. The base contains no `.` and no separator. |
| `RidHelper.ExtensionMatchesPlatformName` | RidHelper.cs:95-101 | The extension agrees with the OS token: `dll` with `win`, `dylib` with `osx`, and `so` with `linux` or `unknown`. |
| `RidHelper.PrefixedLibraryName` | RidHelper.cs:112-116 | Off Windows, the result starts with `lib`. The result is the name itself or `"lib" + name`. The name is left unchanged on Windows and when it already starts with `lib`, so `lib` is never added twice. |
| `RidHelper.GetNativeLibraryName` | RidHelper.cs:110-123 | The result is the prefixed name, or the prefixed name plus the dotted extension. It is the prefixed name unchanged if and only if that name already has an extension of any kind. The result always has an extension, and off Windows it starts with `lib`. |
| `RidHelper.NativeLibraryNameIsIdempotent` | RidHelper.cs:110-123 | Normalising a name that is already normalised returns it unchanged. |
| `RidHelper.NativeLibraryNameRooting` | RidHelper.cs:110-123 | The file name has at least two characters. It is rooted exactly when the host is Windows and the input name is rooted. Off Windows it is never rooted. |
| `RidHelper.GetDllImportPath` | RidHelper.cs:125-131 | The result is the native directory, one separator, and the normalised file name. Off Windows this always holds. On Windows a rooted file name is returned alone. |
| `RidHelper.LinuxPathExample` | RidHelper.cs:72-91 | On a Linux x64 host, the identifier is `linux-x64` and the relative directory is `runtimes/linux-x64/native`. |
| `RidHelper.LinuxLibraryNameExample` | RidHelper.cs:110-123 | On Linux, both `foo` and `libfoo` become `libfoo.so`. |
| `RidHelper.LinuxForeignExtensionExample` | RidHelper.cs:112-120 | On Linux, `foo.bin` becomes `libfoo.bin`: it gets the prefix but no `.so`. |
| `RidHelper.MacIdentifierExample` | RidHelper.cs:72-78 | A macOS arm64 host has the identifier `osx-arm64`. |
| `RidHelper.MacLibraryNameExample` | RidHelper.cs:110-123 | On macOS, `foo` becomes `libfoo.dylib`. |
| `RidHelper.WindowsPathExample` | RidHelper.cs:80-91 | A Windows x86 host has the identifier `win-x86` and the relative directory `runtimes\win-x86\native`. |
| `RidHelper.WindowsLibraryNameExample` | RidHelper.cs:110-123 | On Windows, `foo` becomes `foo.dll`, `libfoo` becomes `libfoo.dll`, and `foo.bin` is unchanged. |
| `RidHelper.WindowsImportPathExample` | RidHelper.cs:125-131 | On Windows, the relative import path of `foo` is `runtimes\win-x86\native\foo.dll`. |
| `RidHelper.WindowsRootedNameExample` | RidHelper.cs:125-131 | On Windows, the import path of the rooted name `D:\lib\foo` is `D:\lib\foo.dll`, whatever the current directory. |
| `RidHelper.UnknownHostExample` | RidHelper.cs:57-78 | A host with no platform flag and an unlisted architecture has the identifier `unknown-unknown`. |
| `DotNetPath.IsPathRooted` | RidHelper.cs:129 | A rooted path is non-empty. Off Windows a path is rooted if and only if it starts with `/`. |
| `DotNetPath.RootedPathRules` | RidHelper.cs:129 | Every path rooted on Unix is rooted on Windows. `C:x` and `\x` are rooted only on Windows. `1:` and `runtimes` are not rooted. |
| `DotNetPath.ExtensionDot` | RidHelper.cs:118 | The backward scan in `Path.HasExtension` finds only a `.` that has no `.` and no separator after it. |
| `DotNetPath.ExtensionDotIsLastDelimiter` | RidHelper.cs:118 | Conversely, any `.` with no `.` and no separator after it is the one the scan finds. |
| `DotNetPath.HasExtension` | RidHelper.cs:118 | A path with an extension has a `.` that is not its final character and has no `.` and no separator after it. |
| `DotNetPath.HasExtensionMeaning` | RidHelper.cs:118 | A path has an extension if and only if the last segment has a last `.` that is not the path's final character. |
| `DotNetPath.AppendedExtension` | RidHelper.cs:118-120 | When `ext` contains no `.` and no separator, appending `"." + ext` puts the extension at that `.`. The result then has an extension if and only if `ext` is not empty. |
| `DotNetPath.NoDotNoExtension` | RidHelper.cs:118 | A path with no `.` in it has no extension. |
| `DotNetPath.HasExtensionExamples` | RidHelper.cs:118 | `foo.bin` and `libfoo.so.1` have extensions. `foo`, `foo.` and `a.b.` do not. A `.` in a directory name does not count. |
| `DotNetPath.Combine` | RidHelper.cs:87 | An empty part is dropped, and a rooted second part is returned alone. Otherwise the first part is a prefix of the result and the second part a suffix, and a separator stands right before the second part. The parts are put together unchanged if and only if the first part already ends in a separator. Otherwise exactly one separator is inserted between them. |
| `DotNetPath.Combine3` | RidHelper.cs:83 | Follows .NET's three-argument algorithm: empty parts are dropped, and the last rooted part discards what comes before it. It has no contract of its own. `Combine3IsNestedCombine` and `Combine3OfSegments` state what it computes. |
| `DotNetPath.Combine3IsNestedCombine` | RidHelper.cs:83 | Combining three parts equals combining the first two and then the third. |
| `DotNetPath.Combine3OfSegments` | RidHelper.cs:83 | Three parts that have no separator at their junctions, the later two unrooted, are joined with one separator between each two. |
| `DotNetPath.CombineKeepsEnd` | RidHelper.cs:87 | Combining onto any directory keeps the end of an unrooted second part. |
| `DotNetPath.JoinSeparatesDirectories` | RidHelper.cs:87 | Joining one path onto two different directories that do not end in a separator gives two different results. |

## Left out

- The platform and process queries (`ProcessArchitecture`, the three `IsOSPlatform` calls, `Directory.GetCurrentDirectory()`) are foreign runtime calls. Their answers are the fields of `Host`. `IsWindows`, `IsMacOS` and `IsLinux` are therefore those fields rather than separate functions.
- A race with another thread that changes the working directory between two calls is not modelled. Each call sees one `cwd`.
- `string.StartsWith(string)` in the prefix step is culture-sensitive. The model uses an ordinal prefix test.
- The `Architecture` members beyond `X86`, `X64`, `Arm` and `Arm64` are one constructor, `Other`, because the code treats them all alike.
- Android and iOS appear in the code only as a TODO. Versioned or qualified RIDs are never produced by the code.
- `Path` is modelled as on .NET Core. .NET Framework differs in three ways, and none of them is modelled. Its `HasExtension` also treats `:` as a segment end. Its `Combine` treats a `:` at the junction as a separator, so `Combine("C:", "x")` is `"C:x"`. It rejects invalid path characters with an exception.
- The `null` arguments that `Path.Combine` rejects cannot occur, because Dafny strings are never null.
- A `null` library name is not modelled, because `libraryName` is always a string here. In the code, off Windows, `GetNativeLibraryName(null)` throws `NullReferenceException` at `libraryName.StartsWith("lib")`. On Windows, `Path.HasExtension(null)` is false and `null + ".dll"` is `".dll"`, so `GetDllImportPath(null, …)` returns the native directory followed by `\.dll`.
- A failing current-directory query is not modelled. In the code, `Directory.GetCurrentDirectory()` can throw, for example when the working directory has been deleted on Unix. In the model, `cwd` is always a string.
- The directory separator is taken from `isWindows`. In .NET it belongs to the build of the runtime, which agrees with that flag on every real host.
