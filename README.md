# BuildFFmpeg decision layer in Dafny

This project models the deterministic core of the `BuildFFmpeg` Swift package
plugin (`Plugins/BuildFFmpeg/main.swift`). The plugin builds FFmpeg and its
optional libraries for the Apple platforms and packages them as XCFrameworks.
The model covers the choices the plugin makes before and between its external
tool runs:

- `Build.performCommand`: how the command-line tokens pick the platforms, the
  libraries and their build order, and the flags passed through to FFmpeg
  (`Command`, with the two static variables as the fields of class `Build`);
- the `Library`, `PlatformType` and `ArchType` tables (`Catalog`, `Targets`);
- `URL +`, `thinDir`, `scratch` and `directoryURL` (`Paths`);
- `cFlags`/`ldFlags`, `pkgConfigPath` and `environment`, with the FFmpeg and
  Gnutls overrides (`Toolchain`);
- `arguments(platform:arch:)` of every builder, and SRT's CMake command line
  (`Configure`);
- the derivations of `createXCFramework`/`createFramework`: framework names,
  `xcodebuild` and `lipo` arguments, the header directory, the module map and
  the `Info.plist` values (`Packaging`).

What the plugin learns from the machine becomes a parameter:

- the current directory is a path (`cwd`, a sequence of components);
- the directories that exist are a set of paths (`existing`);
- the SDK path `xcrun --show-sdk-path` prints is a string (`sysroot`);
- a directory listing is a sequence of file names;
- the host architecture is a `HostArch`. It stands for both the compile-time
  `#if arch(x86_64)` test and `Bundle.main.executableArchitectures`.

Loops of the source are methods whose `ensures` tie the result to a
specification function. Lemmas then state what the plugin promises about those
functions.

The model follows the code where it does something surprising:

- Nettle and Gnutls look for GMP under `<cwd>/gmp/...`. GMP itself installs
  under its raw value, `<cwd>/libgmp/...` (`Paths.GmpDirIsNoInstallTree`).
- The token `enable-FFmpeg` without `disable-ffmpeg` puts FFmpeg into the build
  order twice (`Command.ScenarioFFmpegTwice`).
- The build order is the token order of the `enable-` tokens, then FFmpeg, with
  the first mpv moved to the end. Dependencies that were not requested are not
  added. So FFmpeg comes after every requested library but not necessarily after
  every library it can use.
- `pkgConfigPath` scans the whole catalog in catalog order, including the
  library being built, and tests each thin directory for the exact target
  (platform and architecture). FFmpeg's `--enable-` flags are likewise decided
  per target, never across all architectures of a platform.
- `lipo` is given `<thinDir>/lib/Lib<name>.a`, although the archive on disk is
  `lib<name>.a`. This relies on a case-insensitive file system; the model keeps
  the name as written (`Packaging.LipoArguments`; `Packaging.LipoArchiveCase`
  proves that the two names differ only in the case of the first letter).
- `--without-acl-support` (Smbclient) and `--enable-decoder=dca` (FFmpeg) are
  each listed twice, as in the code.

## Model

| member | source | states |
|---|---|---|
| Catalog.Position | Plugins/BuildFFmpeg/main.swift:118-119 | every library has a position in `allCases` that holds that library |
| Catalog.AllLibrariesDistinct | Plugins/BuildFFmpeg/main.swift:118-119 | `allCases` lists no library twice |
| Catalog.LibraryFromRaw | Plugins/BuildFFmpeg/main.swift:118-119 | `Library(rawValue:)` only returns a library whose raw value is the given string |
| Catalog.RawRoundTrip | Plugins/BuildFFmpeg/main.swift:118-119 | `Library(rawValue:)` inverts `rawValue` for every library |
| Catalog.RawInjective | Plugins/BuildFFmpeg/main.swift:118-119 | different libraries have different raw values |
| Catalog.RawIsComponent | Plugins/BuildFFmpeg/main.swift:118-119 | a raw value is one non-empty path component (no `/`) |
| Catalog.Version | Plugins/BuildFFmpeg/main.swift:120-148 | every library has a non-empty pinned version |
| Catalog.Url | Plugins/BuildFFmpeg/main.swift:150-172 | every source URL is a GitHub URL |
| Catalog.UrlStripsLibPrefix | Plugins/BuildFFmpeg/main.swift:165-170 | `DefaultRepository`, the default branch of `url`, drops the `lib` prefix from the repository name except for libass, with the resulting names |
| Targets.AllPlatformsComplete | Plugins/BuildFFmpeg/main.swift:1072-1073 | `allCases` contains every platform |
| Targets.PlatformFromRaw | Plugins/BuildFFmpeg/main.swift:1072-1073 | `PlatformType(rawValue:)` only returns a platform whose raw value is the given string |
| Targets.PlatformRawRoundTrip | Plugins/BuildFFmpeg/main.swift:1072-1073 | `PlatformType(rawValue:)` inverts `rawValue` |
| Targets.ArchRawInjective | Plugins/BuildFFmpeg/main.swift:1156-1158 | different architectures have different raw values |
| Targets.MinVersion | Plugins/BuildFFmpeg/main.swift:1074-1085 | the minimum version is 10.15 exactly on macOS and 13.0 otherwise |
| Targets.Architectures | Plugins/BuildFFmpeg/main.swift:1087-1104 | every platform has at least one architecture and none twice; on macOS the host's executable architecture comes first; arm64e is built only for iOS |
| Targets.TripleCpu | Plugins/BuildFFmpeg/main.swift:1144-1153 | the triple's CPU word is `x86_64` exactly for x86_64 |
| Targets.DeploymentTargetEmbedsMinVersion | Plugins/BuildFFmpeg/main.swift:1106-1121 | off Mac Catalyst `DeploymentTarget` is a `-m...-version-min=` flag ending in the platform's minimum version |
| Targets.DeploymentTargetCatalyst | Plugins/BuildFFmpeg/main.swift:1118-1119 | on Mac Catalyst `DeploymentTarget` is `-target <cpu>-apple-ios-macabi` |
| Targets.Sdk | Plugins/BuildFFmpeg/main.swift:1123-1138 | the SDK is MacOSX exactly on macOS and Mac Catalyst |
| Targets.HostTriple | Plugins/BuildFFmpeg/main.swift:1144-1153 | every `Host` triple starts with the CPU word and ends in `-darwin`; it has the `apple` field exactly on macOS |
| Targets.ExecutableIsHostArch | Plugins/BuildFFmpeg/main.swift:1160-1171 | at most one architecture is executable, and never arm64e |
| Targets.ArchName | Plugins/BuildFFmpeg/main.swift:1173-1180 | `aarch64` exactly for the ARM architectures, `x86_64` otherwise |
| Targets.Cpu | Plugins/BuildFFmpeg/main.swift:1182-1191 | every value is a `--cpu=` flag |
| Targets.CpuInjective | Plugins/BuildFFmpeg/main.swift:1182-1191 | different architectures get different `--cpu=` flags |
| Paths.AppendComponents | Plugins/BuildFFmpeg/main.swift:1266-1278 | `URL + [String]` appends all components in order |
| Paths.ThinDirLevels | Plugins/BuildFFmpeg/main.swift:388-390 | an install tree is `cwd` plus four non-empty, slash-free names, using `RawIsComponent` for the library's |
| Paths.ThinDirInjective | Plugins/BuildFFmpeg/main.swift:388-390 | different (library, platform, arch) targets never share an install tree (`ThinDir`) |
| Paths.ScratchSeparate | Plugins/BuildFFmpeg/main.swift:392-394 | `Scratch` directories of libraries other than Smbclient are distinct per target and never an install tree |
| Paths.SmbclientScratchShared | Plugins/BuildFFmpeg/main.swift:714-716 | Smbclient builds every target inside its source checkout, `DirectoryUrl` (`directoryURL`, main.swift:221) |
| Paths.GmpDirIsNoInstallTree | Plugins/BuildFFmpeg/main.swift:774-779 | the `gmp` tree Nettle and Gnutls use is no library's install tree, GMP's included |
| Toolchain.CFlags | Plugins/BuildFFmpeg/main.swift:295-309 | the flag string built step by step is the join of its conditional pieces |
| Toolchain.CFlagsStartWithArch | Plugins/BuildFFmpeg/main.swift:296 | the flags start with `-arch <arch> <deployment target>` |
| Toolchain.CFlagsNameSysroot | Plugins/BuildFFmpeg/main.swift:300-301 | the flags always contain ` -isysroot <sdk path>` |
| Toolchain.CFlagsNoCommon | Plugins/BuildFFmpeg/main.swift:297-299 | ` -fno-common` is added exactly on macOS and Mac Catalyst |
| Toolchain.CFlagsIFramework | Plugins/BuildFFmpeg/main.swift:302-304 | the iOS-support `-iframework` directory is added exactly on Mac Catalyst |
| Toolchain.CFlagsNoFork | Plugins/BuildFFmpeg/main.swift:305-307 | ` -DHAVE_FORK=0` is added exactly on tvOS and the tvOS simulator |
| Toolchain.CFlagsContainSegment | Plugins/BuildFFmpeg/main.swift:295-309 | every added piece occurs in the flag string |
| Toolchain.InstalledMembers | Plugins/BuildFFmpeg/main.swift:272-276 | a library contributes to the search path exactly when it is scanned and its thin directory for the target exists |
| Toolchain.PkgConfigSegments | Plugins/BuildFFmpeg/main.swift:275 | one `<thinDir>/lib/pkgconfig:` clause per contributing library, in order |
| Toolchain.PkgConfigPath | Plugins/BuildFFmpeg/main.swift:270-279 | the loop over the catalog gives the clauses of the installed libraries in catalog order |
| Toolchain.AppendPkgConfigSegments | Plugins/BuildFFmpeg/main.swift:271-278 | the loop over any library list gives the clauses of its installed libraries, in order |
| Toolchain.InstalledLibrariesGrow | Plugins/BuildFFmpeg/main.swift:272-276 | over a list without repetitions, one more existing thin directory adds one contributing library if it is listed and none otherwise |
| Toolchain.PkgConfigPathGrowsByOne | Plugins/BuildFFmpeg/main.swift:270-279 | one more catalog library installed for the target adds exactly one clause |
| Toolchain.PkgConfigSegmentTerminated | Plugins/BuildFFmpeg/main.swift:275 | every clause ends in `/lib/pkgconfig:` |
| Toolchain.LibraryEnvironment | Plugins/BuildFFmpeg/main.swift:281-293 | `BaseEnvironment` with its seven variables and values (CFLAGS, CXXFLAGS and LDFLAGS all equal to `cFlags`), plus CPPFLAGS on FFmpeg and the GMP pair on Gnutls, and no other key |
| Toolchain.Environment | Plugins/BuildFFmpeg/main.swift:281-289 | each builder's environment for a target has the key set of its override, CFLAGS and LDFLAGS are `cFlags`, PKG_CONFIG_PATH is `pkgConfigPath`, the arch is the raw arch value, and Gnutls's GMP_CFLAGS points into the `gmp` tree |
| Configure.OpenSslTarget | Plugins/BuildFFmpeg/main.swift:700-707 | `iphoneos-cross` exactly for arm64e, a `darwin64-` target otherwise, ending in `x86_64` exactly for x86_64 |
| Configure.OpenSslArguments | Plugins/BuildFFmpeg/main.swift:700-707 | seven arguments: the prefix, the Configure target, and a static-only build |
| Configure.SmbclientArguments | Plugins/BuildFFmpeg/main.swift:718-744 | 22 arguments from the prefix to the host flag, with `--without-acl-support` twice |
| Configure.GmpArguments | Plugins/BuildFFmpeg/main.swift:751-763 | nine arguments from the prefix to the host and sysroot flags, static only |
| Configure.NettleArchFlag | Plugins/BuildFFmpeg/main.swift:790 | ARM NEON exactly on the ARM architectures, AES-NI exactly on x86_64 |
| Configure.NettleArguments | Plugins/BuildFFmpeg/main.swift:774-793 | 14 arguments; GMP's include and lib paths point into the `gmp` tree; static only |
| Configure.GnutlsArguments | Plugins/BuildFFmpeg/main.swift:818-844 | 22 arguments from the prefix to the host and sysroot flags, static only |
| Configure.MonotonicClockFlag | Plugins/BuildFFmpeg/main.swift:877 | the monotonic clock is off exactly on Mac Catalyst |
| Configure.SrtCMakeArguments | Plugins/BuildFFmpeg/main.swift:858-880 | 16 CMake arguments: the checkout's `CMakeLists.txt`, the thin directory as prefix path and install prefix, the clock option last |
| Configure.CMakeCommandLine | Plugins/BuildFFmpeg/main.swift:861-878 | the shape of SRT's CMake line for any `CMakeLists.txt`, thin directory and clock option |
| Configure.FribidiArguments | Plugins/BuildFFmpeg/main.swift:898-912 | ten arguments from the prefix to the host and sysroot flags, static only |
| Configure.HarfbuzzArguments | Plugins/BuildFFmpeg/main.swift:919-934 | eleven arguments from the prefix to the host and sysroot flags, static only |
| Configure.FreetypeArguments | Plugins/BuildFFmpeg/main.swift:941-961 | 16 arguments from the prefix to the host and sysroot flags, static only |
| Configure.PngAsmOption | Plugins/BuildFFmpeg/main.swift:969 | SSE exactly on x86_64, NEON exactly on the ARM architectures |
| Configure.PngArguments | Plugins/BuildFFmpeg/main.swift:968-983 | ten arguments: the prefix, the SIMD option, ..., the host and sysroot flags, static only |
| Configure.AssArguments | Plugins/BuildFFmpeg/main.swift:990-1012 | 15 arguments from the prefix to the host and sysroot flags, assembly disabled, static only |
| Configure.MpvGlFlag | Plugins/BuildFFmpeg/main.swift:1059 | VideoToolbox GL exactly on macOS, plain GL exactly on Mac Catalyst, iOS GL exactly elsewhere |
| Configure.MpvArguments | Plugins/BuildFFmpeg/main.swift:1045-1061 | 13 arguments: the prefix first, the GL flag last, static libmpv |
| Configure.AsmFlags | Plugins/BuildFFmpeg/main.swift:551-557 | NEON and assembly are disabled exactly on Mac Catalyst or x86_64 and enabled otherwise |
| Configure.ProgramFlags | Plugins/BuildFFmpeg/main.swift:558-575 | ffplay is built exactly for the executable macOS architecture, programs are disabled exactly otherwise, avdevice is always disabled |
| Configure.FFmpegArguments | Plugins/BuildFFmpeg/main.swift:540-589 | the argument list built by appending is the prefix, the fixed options, the user's flags, the target, assembly and program flags, then the enable flags |
| Configure.AppendTargetFlags | Plugins/BuildFFmpeg/main.swift:541-575 | the appends before the library loop give prefix, options, user flags, target triple options, assembly and program flags in that order |
| Configure.AppendEnableFlags | Plugins/BuildFFmpeg/main.swift:579-587 | the library loop appends the enable flags of the installed FFmpeg-dependent libraries, in order |
| Configure.AppendEnableFlag | Plugins/BuildFFmpeg/main.swift:580-586 | one iteration adds `--enable-<lib>` (and the SRT protocol) exactly when the install tree exists and FFmpeg depends on the library |
| Configure.FFmpegArgumentsOf | Plugins/BuildFFmpeg/main.swift:540-589 | FFmpeg's arguments start with its prefix |
| Configure.EnableFlagsExactly | Plugins/BuildFFmpeg/main.swift:579-587 | `--enable-<lib>` appears exactly when the library is scanned, installed for the target and one FFmpeg depends on |
| Configure.ProtocolFollowsLibsrt | Plugins/BuildFFmpeg/main.swift:582-585 | `--enable-protocol=libsrt` only ever directly follows `--enable-libsrt` |
| Configure.NeverEnabled | Plugins/BuildFFmpeg/main.swift:174-181 | png, harfbuzz, nettle, mpv and FFmpeg, the libraries `IsFFmpegDependentLibrary` rejects, are never enabled by the library loop of FFmpeg's arguments |
| Configure.UserFlagsReachFFmpeg | Plugins/BuildFFmpeg/main.swift:540-543 | every `--` token the user passes is in FFmpeg's argument list, so `--enable-png` on the command line does reach configure |
| Configure.EnableInjective | Plugins/BuildFFmpeg/main.swift:582 | `--enable-x` flags are equal only for equal `x` |
| Configure.Arguments | Plugins/BuildFFmpeg/main.swift:183-212 | every builder's argument list starts with its `--prefix=` thin directory |
| Packaging.ArchiveFileLength | Plugins/BuildFFmpeg/main.swift:328 | a `lib*.a` name is at least five characters, so dropping both ends is defined |
| Packaging.FrameworkName | Plugins/BuildFFmpeg/main.swift:329 | framework names start with `Lib` and are two characters shorter than the archive name |
| Packaging.FrameworkNameOfStem | Plugins/BuildFFmpeg/main.swift:328-329 | `lib<stem>.a` is an archive whose framework is `Lib<stem>` |
| Packaging.ArchiveFromFrameworkName | Plugins/BuildFFmpeg/main.swift:328-329 | an archive name is recovered from its framework name |
| Packaging.FrameworkNames | Plugins/BuildFFmpeg/main.swift:326-331 | the loop over the listing yields the framework names of its archives, in listing order |
| Packaging.FrameworkNamesExactly | Plugins/BuildFFmpeg/main.swift:326-331 | framework `Lib<stem>` is made exactly when `lib<stem>.a` is listed |
| Packaging.FrameworkNamesShape | Plugins/BuildFFmpeg/main.swift:326-331 | at most one framework per file, each named `Lib...` |
| Packaging.ListingDir | Plugins/BuildFFmpeg/main.swift:323-325 | there is a listing exactly when some platform is active |
| Packaging.ListingIsFirstLipoSource | Plugins/BuildFFmpeg/main.swift:323-325 | the listed directory followed by `<framework>.a` is the first archive `lipo` is given for the first platform |
| Packaging.LipoArchiveCase | Plugins/BuildFFmpeg/main.swift:329 | the archive `lipo` is given for a listed `lib<stem>.a` has the same length and differs only in the case of its first letter |
| Packaging.XCFrameworkArguments | Plugins/BuildFFmpeg/main.swift:334-342 | `2·|platforms|+3` arguments: `-create-xcframework`, one `-framework <FrameworkDir>` pair per platform in order, `-output` and the `XCFrameworkOutput` path |
| Packaging.LipoArguments | Plugins/BuildFFmpeg/main.swift:354-365 | `-create`, one archive per architecture of the platform in order, `-output` and the framework binary |
| Packaging.HeaderSource | Plugins/BuildFFmpeg/main.swift:358-361 | `include/<framework>` when it exists, `include` otherwise |
| Packaging.FrameworkExcludeHeaders | Plugins/BuildFFmpeg/main.swift:522-532 | headers are excluded only by FFmpeg, and exactly for avcodec, avutil and avformat |
| Packaging.ExcludeHeadersOneLine | Plugins/BuildFFmpeg/main.swift:522-532 | no excluded header name holds a newline |
| Packaging.ExcludeHeaderLines | Plugins/BuildFFmpeg/main.swift:373-378 | one exclude line per header, in order |
| Packaging.ModuleMap | Plugins/BuildFFmpeg/main.swift:368-382 | the text built by appending is `ModuleMapOf`: the header and umbrella lines, one exclude line per header, `export *` and the closing brace |
| Packaging.ModuleMapIsUnlines | Plugins/BuildFFmpeg/main.swift:368-382 | the module map is its lines joined by newlines |
| Packaging.ModuleMapReadsBack | Plugins/BuildFFmpeg/main.swift:368-382 | splitting the module map at newlines gives back exactly its lines, including every exclude line in order |
| Packaging.PlistOf | Plugins/BuildFFmpeg/main.swift:400-437 | the `InfoPlist` values: executable and name are the framework, the identifier is `com.kintan.ksplayer.<framework>`, minimum OS and supported platform come from the platform |
| Command.ClassifyCases | Plugins/BuildFFmpeg/main.swift:69-88 | each class `Classify` gives, in terms of the token: the two keywords exactly, `platform=`/`enable-` tokens carry the rest of the token, `--` tokens pass through |
| Command.DebugFlags | Plugins/BuildFFmpeg/main.swift:89-97 | the debug or the release triple: `--enable-debug` exactly for a debug build, `--disable-debug` and `--enable-optimizations` exactly for a release build |
| Command.DebugFlagsExclusive | Plugins/BuildFFmpeg/main.swift:89-97 | the debug and release triples share no flag |
| Command.SelectedPlatforms | Plugins/BuildFFmpeg/main.swift:98-102 | the platform list is never empty |
| Command.FirstIndex | Plugins/BuildFFmpeg/main.swift:107 | `firstIndex(of:)` finds the first occurrence |
| Command.ScanToken | Plugins/BuildFFmpeg/main.swift:70-87 | one pass of the token switch adds the token's platform, library, switch and flag, and nothing else |
| Command.MoveMpvLast | Plugins/BuildFFmpeg/main.swift:107-110 | moving mpv is a permutation that puts mpv last when present and changes nothing otherwise; the order of the others is `MoveMpvLastExactly` |
| Command.MoveMpvLastExactly | Plugins/BuildFFmpeg/main.swift:107-110 | moving mpv removes its first occurrence, keeps every other library in order, and appends mpv |
| Command.MoveMpvPastTail | Plugins/BuildFFmpeg/main.swift:104-110 | a first mpv before an mpv-free tail ends up after that tail, the rest keeping its order |
| Command.BuildOrderExactly | Plugins/BuildFFmpeg/main.swift:104-110 | `BuildOrder` in full: the requested libraries in token order (`RequestedLibraries`), then FFmpeg unless disabled (`WithFFmpeg`); a requested mpv is removed at its first occurrence and built last |
| Command.Build.constructor | Plugins/BuildFFmpeg/main.swift:33 | the platforms start as all six and the FFmpeg flags as empty |
| Command.Build.PerformCommand | Plugins/BuildFFmpeg/main.swift:40-110 | sets the selected platforms, appends the `--` tokens and one debug/release triple to the FFmpeg flags, and returns the build order |
| Command.Build.AppendDebugFlags | Plugins/BuildFFmpeg/main.swift:89-97 | appends exactly the debug or the release triple |
| Command.Build.ScanArguments | Plugins/BuildFFmpeg/main.swift:65-88 | the main loop collects the named platforms and requested libraries in token order, notes the two switches and appends the `--` tokens |
| Command.MoveMpvToEnd | Plugins/BuildFFmpeg/main.swift:107-110 | the in-place move of mpv computes `MoveMpvLast`, so it removes mpv's first occurrence and appends it, the others keeping their order |
| Command.NamedPlatformList | Plugins/BuildFFmpeg/main.swift:56-63 | the `compactMap` gives the named platforms in token order |
| Command.NamedPlatformsAppend | Plugins/BuildFFmpeg/main.swift:56-63 | splitting the tokens splits the named platforms the same way, in order |
| Command.RequestedLibrariesAppend | Plugins/BuildFFmpeg/main.swift:80-84 | splitting the tokens splits the requested libraries the same way, in order |
| Command.ConfigureFlagsAppend | Plugins/BuildFFmpeg/main.swift:86-87 | the pass-through flags keep the token order |
| Command.ConfigureFlagsExactly | Plugins/BuildFFmpeg/main.swift:86-87 | the pass-through flags are exactly the `--` tokens |
| Command.NamedPlatformsExactly | Plugins/BuildFFmpeg/main.swift:75-79 | a platform is named exactly when `platform=<raw value>` is a token |
| Command.RequestedLibrariesExactly | Plugins/BuildFFmpeg/main.swift:80-84 | a library is requested exactly when `enable-<raw value>` is a token |
| Command.EnableDebugIsNoLibrary | Plugins/BuildFFmpeg/main.swift:73-74 | `enable-debug` requests no library and passes no flag |
| Command.PlatformSelection | Plugins/BuildFFmpeg/main.swift:98-102 | all six platforms when none is named, otherwise exactly the named ones |
| Command.BuildOrderFFmpeg | Plugins/BuildFFmpeg/main.swift:104-110 | the build order is a permutation of the requested libraries plus FFmpeg unless disabled; FFmpeg is built exactly when not disabled or requested; the order itself is `BuildOrderExactly` |
| Command.BuildOrderMpvLast | Plugins/BuildFFmpeg/main.swift:107-110 | a requested mpv is built last |
| Command.BuildOrderFFmpegAfterRequested | Plugins/BuildFFmpeg/main.swift:104-110 | unless disabled, FFmpeg comes after every requested library except mpv, and only mpv after it |
| Command.ScenarioOpensslOnMacos | Plugins/BuildFFmpeg/main.swift:40-110 | tokens `enable-openssl platform=macos` select macOS only and build OpenSSL then FFmpeg |
| Command.ScenarioMpvOnly | Plugins/BuildFFmpeg/main.swift:40-110 | tokens `disable-ffmpeg enable-mpv` build mpv only |
| Command.ScenarioDefaults | Plugins/BuildFFmpeg/main.swift:40-110 | no tokens: all platforms, FFmpeg alone, a release build |
| Command.ScenarioFFmpegTwice | Plugins/BuildFFmpeg/main.swift:80-84 | `enable-FFmpeg` without `disable-ffmpeg` builds FFmpeg twice |

## Left out

- Running processes: `git clone`, `make`, `configure`, `autogen.sh`/`bootstrap`, `cmake`, `waf`, `lipo`, `xcodebuild`, `xcrun` and the `brew`/`pkg-config` checks. Their command lines are modelled where they are computed; their effects are not.
- File-system effects: creating, copying and removing directories, and writing the module map and `Info.plist`. The directories that exist are an input set, and a listing is an input sequence.
- The order of phases: `buildALL`, `build(platform:arch:)` and `configure(...)`, and the text patches that FFmpeg, Fribidi and mpv apply to their sources before building.
- The `Info.plist` XML template. Only the values substituted into it are modelled; the other keys are constants of the template.
- `PlatformType.isysroot()` runs `xcrun`. Its output is the `sysroot` parameter.
- Configure.Arguments: for SRT it returns only the base `--prefix=` list. SRT's `configure` override never uses it and runs CMake with `Configure.SrtCMakeArguments` instead.
- Configure.Arguments: states only that every list starts with the builder's prefix. The content of each list is stated by the per-library function it returns.
- Configure.FFmpegArgumentsOf: states only the first element. The full list is stated by `Configure.FFmpegArguments` and the lemmas about `EnableFlags`, `AsmFlags` and `ProgramFlags`.
- Configure.OpenSslArguments, Configure.SmbclientArguments, Configure.GmpArguments, Configure.NettleArguments, Configure.GnutlsArguments, Configure.FribidiArguments, Configure.HarfbuzzArguments, Configure.FreetypeArguments, Configure.PngArguments, Configure.AssArguments, Configure.MpvArguments: each contract fixes the length, the prefix, the target-dependent entries and the static-build options, not every fixed literal in between.
- Toolchain.Environment: keys are a datatype with the environment spelling (`Toolchain.Name`), not strings; the values not named in its contract are those of `Toolchain.LibraryEnvironment`.
- Strings.HasPrefix, Strings.HasSuffix and the other string tests work on Unicode scalars (`seq<char>`), not on Swift's grapheme-cluster `Character`s. Swift's `hasPrefix("--")` is false for a token such as `--` followed by a combining mark, so Swift ignores that token; the model passes it to FFmpeg's configure.
- Configure.NeverEnabled: covers the library loop only. That none of the 188 fixed options and target flags is `--enable-png`, `--enable-harfbuzz`, `--enable-nettle`, `--enable-mpv` or `--enable-FFmpeg` is not proved: comparing those string literals exceeds the proof budget. A user's `--` token can add any of them (`Configure.UserFlagsReachFFmpeg`).
- Targets.Architectures: the host architecture is one input for both `#if arch(x86_64)` and the bundle's executable architecture. The model does not capture a build where the two disagree.
- Concurrency, logging and the process environment inherited by the child processes.
