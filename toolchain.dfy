/**
 * The toolchain environment every configure step runs in: `BaseBuild.cFlags`
 * (and `ldFlags`, which is the same string), `pkgConfigPath` and `environment`,
 * with the FFmpeg and Gnutls overrides of `environment`.
 */
module Toolchain {
  import opened Strings
  import opened Targets
  import opened Catalog
  import opened Paths

  /** Where Mac Catalyst's iOS-support frameworks sit inside the macOS SDK. */
  const IOSSupportFrameworks: string := "/System/iOSSupport/System/Library/Frameworks"

  const NoCommon: string := " -fno-common"
  const NoFork: string := " -DHAVE_FORK=0"

  function ArchFlag(p: Platform, a: Arch): string {
    "-arch " + ArchRaw(a) + " " + DeploymentTarget(p, a)
  }

  function SysrootFlag(sysroot: string): string {
    " -isysroot " + sysroot
  }

  function IFrameworkFlag(sysroot: string): string {
    " -iframework " + sysroot + IOSSupportFrameworks
  }

  /**
   * The pieces `cFlags` appends, in order: the arch and deployment target,
   * ` -fno-common` on the two Mac platforms, the SDK root, the iOS-support
   * framework directory on Mac Catalyst, and ` -DHAVE_FORK=0` on tvOS.
   * `sysroot` is the SDK path `xcrun --show-sdk-path` reports for the platform.
   */
  function CFlagSegments(p: Platform, a: Arch, sysroot: string): seq<string> {
    [ArchFlag(p, a)]
    + (if p == Macos || p == Maccatalyst then [NoCommon] else [])
    + [SysrootFlag(sysroot)]
    + (if p == Maccatalyst then [IFrameworkFlag(sysroot)] else [])
    + (if p == Tvos || p == Tvsimulator then [NoFork] else [])
  }

  /** The `cFlags` string: its segments joined. */
  function CFlagsOf(p: Platform, a: Arch, sysroot: string): string {
    Concat(CFlagSegments(p, a, sysroot))
  }

  /** `BaseBuild.cFlags`: the flag string grown one conditional piece at a time. */
  method CFlags(p: Platform, a: Arch, sysroot: string) returns (cflags: string)
    ensures cflags == CFlagsOf(p, a, sysroot)
  {
    cflags := ArchFlag(p, a);
    ghost var segments := [ArchFlag(p, a)];
    ConcatSingleton(cflags);
    if p == Macos || p == Maccatalyst {
      cflags := cflags + NoCommon;
    }
    ConcatOptional(segments, p == Macos || p == Maccatalyst, NoCommon);
    segments := segments + (if p == Macos || p == Maccatalyst then [NoCommon] else []);
    assert cflags == Concat(segments);
    var syslibroot := sysroot;
    cflags := cflags + SysrootFlag(syslibroot);
    ConcatSnoc(segments, SysrootFlag(syslibroot));
    segments := segments + [SysrootFlag(syslibroot)];
    assert cflags == Concat(segments);
    if p == Maccatalyst {
      cflags := cflags + IFrameworkFlag(syslibroot);
    }
    ConcatOptional(segments, p == Maccatalyst, IFrameworkFlag(syslibroot));
    segments := segments + (if p == Maccatalyst then [IFrameworkFlag(syslibroot)] else []);
    assert cflags == Concat(segments);
    if p == Tvos || p == Tvsimulator {
      cflags := cflags + NoFork;
    }
    ConcatOptional(segments, p == Tvos || p == Tvsimulator, NoFork);
    segments := segments + (if p == Tvos || p == Tvsimulator then [NoFork] else []);
    assert cflags == Concat(segments);
  }

  /** `cFlags` starts with the arch and the deployment target. */
  lemma CFlagsStartWithArch(p: Platform, a: Arch, sysroot: string)
    ensures HasPrefix(CFlagsOf(p, a, sysroot), "-arch " + ArchRaw(a) + " " + DeploymentTarget(p, a))
  {
    var segments := CFlagSegments(p, a, sysroot);
    var rest := segments[1..];
    assert segments == [ArchFlag(p, a)] + rest;
    ConcatAppend([ArchFlag(p, a)], rest);
    ConcatSingleton(ArchFlag(p, a));
    PrefixOfAppend(ArchFlag(p, a), Concat(rest));
  }

  /** `cFlags` always names the SDK root. */
  lemma CFlagsNameSysroot(p: Platform, a: Arch, sysroot: string)
    ensures Contains(CFlagsOf(p, a, sysroot), " -isysroot " + sysroot)
  {
    var segments := CFlagSegments(p, a, sysroot);
    var k := if p == Macos || p == Maccatalyst then 2 else 1;
    assert segments[k] == SysrootFlag(sysroot);
    ConcatContainsPart(segments, k);
  }

  /** ` -fno-common` is among the pieces of `cFlags` exactly on macOS and Mac Catalyst. */
  lemma CFlagsNoCommon(p: Platform, a: Arch, sysroot: string)
    ensures NoCommon in CFlagSegments(p, a, sysroot) <==> p == Macos || p == Maccatalyst
  {
    var arch, root, framework := ArchFlag(p, a), SysrootFlag(sysroot), IFrameworkFlag(sysroot);
    assert arch[0] == '-' && NoCommon[0] == ' ';
    assert root[2] == 'i' && framework[2] == 'i' && NoCommon[2] == 'f' && NoFork[2] == 'D';
  }

  /** The iOS-support `-iframework` directory is among the pieces exactly on Mac Catalyst. */
  lemma CFlagsIFramework(p: Platform, a: Arch, sysroot: string)
    ensures IFrameworkFlag(sysroot) in CFlagSegments(p, a, sysroot) <==> p == Maccatalyst
  {
    var arch, root, framework := ArchFlag(p, a), SysrootFlag(sysroot), IFrameworkFlag(sysroot);
    assert arch[0] == '-' && framework[0] == ' ';
    assert framework[2] == 'i' && NoCommon[2] == 'f' && NoFork[2] == 'D';
    assert framework[3] == 'f' && root[3] == 's';
  }

  /** ` -DHAVE_FORK=0` is among the pieces exactly on the two tvOS platforms. */
  lemma CFlagsNoFork(p: Platform, a: Arch, sysroot: string)
    ensures NoFork in CFlagSegments(p, a, sysroot) <==> p == Tvos || p == Tvsimulator
  {
    var arch, root, framework := ArchFlag(p, a), SysrootFlag(sysroot), IFrameworkFlag(sysroot);
    assert arch[0] == '-' && NoFork[0] == ' ';
    assert root[2] == 'i' && framework[2] == 'i' && NoCommon[2] == 'f' && NoFork[2] == 'D';
  }

  /** Each piece that is present is a substring of the flag string. */
  lemma CFlagsContainSegment(p: Platform, a: Arch, sysroot: string, segment: string)
    requires segment in CFlagSegments(p, a, sysroot)
    ensures Contains(CFlagsOf(p, a, sysroot), segment)
  {
    var segments := CFlagSegments(p, a, sysroot);
    var k :| 0 <= k < |segments| && segments[k] == segment;
    ConcatContainsPart(segments, k);
  }

  /** The thin directory clause `<thinDir>/lib/pkgconfig:` of one library. */
  function PkgConfigSegment(l: Library, cwd: Path, p: Platform, a: Arch): string {
    PathString(ThinDir(l, cwd, p, a)) + "/lib/pkgconfig:"
  }

  /** The libraries of `libs`, in order, whose thin directory for the target exists. */
  function InstalledLibraries(libs: seq<Library>, cwd: Path, p: Platform, a: Arch, existing: set<Path>): (r: seq<Library>)
    ensures |r| <= |libs|
  {
    if libs == [] then []
    else
      var rest := InstalledLibraries(libs[..|libs| - 1], cwd, p, a, existing);
      var l := libs[|libs| - 1];
      assert libs == libs[..|libs| - 1] + [l];
      if ThinDir(l, cwd, p, a) in existing then rest + [l] else rest
  }

  /** The installed libraries are exactly the listed ones whose thin directory exists. */
  lemma {:induction false} InstalledMembers(libs: seq<Library>, m: Library, cwd: Path, p: Platform, a: Arch, existing: set<Path>)
    ensures m in InstalledLibraries(libs, cwd, p, a, existing) <==> m in libs && ThinDir(m, cwd, p, a) in existing
  {
    if libs != [] {
      var init, last := libs[..|libs| - 1], libs[|libs| - 1];
      InstalledMembers(init, m, cwd, p, a, existing);
      assert libs == init + [last];
      InstalledSnoc(init, last, cwd, p, a, existing);
    }
  }

  /** One `pkgconfig:` clause per library, in order. */
  function PkgConfigSegments(libs: seq<Library>, cwd: Path, p: Platform, a: Arch): (r: seq<string>)
    ensures |r| == |libs|
    ensures forall k :: 0 <= k < |libs| ==> r[k] == PkgConfigSegment(libs[k], cwd, p, a)
  {
    if libs == [] then []
    else PkgConfigSegments(libs[..|libs| - 1], cwd, p, a) + [PkgConfigSegment(libs[|libs| - 1], cwd, p, a)]
  }

  lemma InstalledSnoc(libs: seq<Library>, l: Library, cwd: Path, p: Platform, a: Arch, existing: set<Path>)
    ensures InstalledLibraries(libs + [l], cwd, p, a, existing)
         == InstalledLibraries(libs, cwd, p, a, existing) + (if ThinDir(l, cwd, p, a) in existing then [l] else [])
  {
    assert (libs + [l])[..|libs|] == libs;
  }

  lemma SegmentsSnoc(libs: seq<Library>, l: Library, cwd: Path, p: Platform, a: Arch)
    ensures PkgConfigSegments(libs + [l], cwd, p, a) == PkgConfigSegments(libs, cwd, p, a) + [PkgConfigSegment(l, cwd, p, a)]
  {
    assert (libs + [l])[..|libs|] == libs;
  }

  /** The path string over `libs`: the clauses of the installed ones, in order. */
  function PkgConfigPathFor(libs: seq<Library>, cwd: Path, p: Platform, a: Arch, existing: set<Path>): string {
    Concat(PkgConfigSegments(InstalledLibraries(libs, cwd, p, a, existing), cwd, p, a))
  }

  /** The `pkgConfigPath` string: the clauses of the installed catalog libraries, in catalog order. */
  function PkgConfigPathOf(cwd: Path, p: Platform, a: Arch, existing: set<Path>): string {
    PkgConfigPathFor(AllLibraries, cwd, p, a, existing)
  }

  /** `BaseBuild.pkgConfigPath`: walks the catalog and appends a clause for each installed library. */
  method PkgConfigPath(cwd: Path, p: Platform, a: Arch, existing: set<Path>) returns (pkgConfigPath: string)
    ensures pkgConfigPath == PkgConfigPathOf(cwd, p, a, existing)
  {
    pkgConfigPath := AppendPkgConfigSegments(AllLibraries, cwd, p, a, existing);
  }

  /** The loop of `pkgConfigPath`, over the libraries of `libs`. */
  method AppendPkgConfigSegments(libs: seq<Library>, cwd: Path, p: Platform, a: Arch, existing: set<Path>)
    returns (pkgConfigPath: string)
    ensures pkgConfigPath == PkgConfigPathFor(libs, cwd, p, a, existing)
  {
    pkgConfigPath := "";
    ghost var installed: seq<Library> := [];
    var i := 0;
    assert libs[..0] == [];
    while i < |libs|
      invariant 0 <= i <= |libs|
      invariant installed == InstalledLibraries(libs[..i], cwd, p, a, existing)
      invariant pkgConfigPath == Concat(PkgConfigSegments(installed, cwd, p, a))
    {
      var library := libs[i];
      var path := ThinDir(library, cwd, p, a);
      InstalledStep(libs, i, cwd, p, a, existing);
      if path in existing {
        PkgConfigPathSnoc(installed, library, cwd, p, a);
        pkgConfigPath := pkgConfigPath + PkgConfigSegment(library, cwd, p, a);
        installed := installed + [library];
      }
      i := i + 1;
    }
    assert libs[..i] == libs;
  }

  lemma InstalledStep(libs: seq<Library>, i: nat, cwd: Path, p: Platform, a: Arch, existing: set<Path>)
    requires i < |libs|
    ensures InstalledLibraries(libs[..i + 1], cwd, p, a, existing)
         == InstalledLibraries(libs[..i], cwd, p, a, existing) + (if ThinDir(libs[i], cwd, p, a) in existing then [libs[i]] else [])
  {
    assert libs[..i + 1] == libs[..i] + [libs[i]];
    InstalledSnoc(libs[..i], libs[i], cwd, p, a, existing);
  }

  lemma PkgConfigPathSnoc(installed: seq<Library>, l: Library, cwd: Path, p: Platform, a: Arch)
    ensures Concat(PkgConfigSegments(installed + [l], cwd, p, a))
         == Concat(PkgConfigSegments(installed, cwd, p, a)) + PkgConfigSegment(l, cwd, p, a)
  {
    SegmentsSnoc(installed, l, cwd, p, a);
    ConcatSnoc(PkgConfigSegments(installed, cwd, p, a), PkgConfigSegment(l, cwd, p, a));
  }

  /**
   * Over a list without repetitions, making one more thin directory exist adds
   * one clause when its library is listed and none otherwise: other libraries'
   * thin directories are different paths.
   */
  lemma {:induction false} InstalledLibrariesGrow(libs: seq<Library>, l: Library, cwd: Path, p: Platform, a: Arch, existing: set<Path>)
    requires ThinDir(l, cwd, p, a) !in existing
    requires Distinct(libs)
    ensures |InstalledLibraries(libs, cwd, p, a, existing + {ThinDir(l, cwd, p, a)})|
         == |InstalledLibraries(libs, cwd, p, a, existing)| + (if l in libs then 1 else 0)
  {
    if libs != [] {
      var init, last := libs[..|libs| - 1], libs[|libs| - 1];
      var grown := existing + {ThinDir(l, cwd, p, a)};
      DistinctInit(libs);
      InstalledLibrariesGrow(init, l, cwd, p, a, existing);
      assert libs == init + [last];
      InstalledSnoc(init, last, cwd, p, a, existing);
      InstalledSnoc(init, last, cwd, p, a, grown);
      ThinDirAdded(last, l, cwd, p, a, existing);
      assert l in libs <==> l in init || l == last;
    }
  }

  /** Adding `l`'s thin directory makes exactly one more library's thin directory exist. */
  lemma ThinDirAdded(m: Library, l: Library, cwd: Path, p: Platform, a: Arch, existing: set<Path>)
    ensures (ThinDir(m, cwd, p, a) in existing + {ThinDir(l, cwd, p, a)}) == (ThinDir(m, cwd, p, a) in existing || m == l)
  {
    if m != l && ThinDir(m, cwd, p, a) == ThinDir(l, cwd, p, a) {
      ThinDirInjective(m, p, a, l, p, a, cwd);
    }
  }

  /** No library occurs twice in `libs`. */
  predicate Distinct(libs: seq<Library>) {
    forall i, j :: 0 <= i < j < |libs| ==> libs[i] != libs[j]
  }

  /** Dropping the last element keeps a list without repetitions, and that element is not among the rest. */
  lemma DistinctInit(libs: seq<Library>)
    requires |libs| > 0 && Distinct(libs)
    ensures Distinct(libs[..|libs| - 1]) && libs[|libs| - 1] !in libs[..|libs| - 1]
  {
    var init := libs[..|libs| - 1];
    assert forall k :: 0 <= k < |init| ==> init[k] == libs[k];
  }

  /**
   * The path string gains exactly one `:`-terminated clause when one more
   * catalog library's thin directory exists for the target.
   */
  lemma PkgConfigPathGrowsByOne(l: Library, cwd: Path, p: Platform, a: Arch, existing: set<Path>)
    requires ThinDir(l, cwd, p, a) !in existing
    ensures |PkgConfigSegments(InstalledLibraries(AllLibraries, cwd, p, a, existing + {ThinDir(l, cwd, p, a)}), cwd, p, a)|
         == |PkgConfigSegments(InstalledLibraries(AllLibraries, cwd, p, a, existing), cwd, p, a)| + 1
  {
    assert Distinct(AllLibraries) by {
      forall i, j | 0 <= i < j < |AllLibraries|
        ensures AllLibraries[i] != AllLibraries[j]
      {
        AllLibrariesDistinct(i, j);
      }
    }
    InstalledLibrariesGrow(AllLibraries, l, cwd, p, a, existing);
    assert AllLibraries[Position(l)] == l;
  }

  /** Every clause ends with the `:` separator. */
  lemma PkgConfigSegmentTerminated(l: Library, cwd: Path, p: Platform, a: Arch)
    ensures HasSuffix(PkgConfigSegment(l, cwd, p, a), "/lib/pkgconfig:")
  {
    var s := PkgConfigSegment(l, cwd, p, a);
    assert s[|s| - |"/lib/pkgconfig:"|..] == "/lib/pkgconfig:";
  }

  /** The compiler driver every library builds with (`ccFlags`). */
  const Clang: string := "/usr/bin/clang "

  /** The environment variables the builders set, each spelled as in the environment. */
  datatype Variable =
    | LC_CTYPE | CC | CFLAGS | CXXFLAGS | LDFLAGS | PKG_CONFIG_PATH | CMAKE_OSX_ARCHITECTURES
    | CPPFLAGS | GMP_CFLAGS | GMP_LIBS

  function Name(v: Variable): string {
    match v
    case LC_CTYPE => "LC_CTYPE"
    case CC => "CC"
    case CFLAGS => "CFLAGS"
    case CXXFLAGS => "CXXFLAGS"
    case LDFLAGS => "LDFLAGS"
    case PKG_CONFIG_PATH => "PKG_CONFIG_PATH"
    case CMAKE_OSX_ARCHITECTURES => "CMAKE_OSX_ARCHITECTURES"
    case CPPFLAGS => "CPPFLAGS"
    case GMP_CFLAGS => "GMP_CFLAGS"
    case GMP_LIBS => "GMP_LIBS"
  }

  /** The keys `BaseBuild.environment` always sets. */
  const BaseKeys: set<Variable> := {LC_CTYPE, CC, CFLAGS, CXXFLAGS, LDFLAGS, PKG_CONFIG_PATH, CMAKE_OSX_ARCHITECTURES}

  /**
   * The variables `BaseBuild.environment` sets, from the flag string, the
   * pkg-config search path and the arch.
   */
  function BaseEnvironment(cflags: string, pkgConfigPath: string, arch: string): map<Variable, string> {
    map[LC_CTYPE := "C",
        CC := Clang,
        CFLAGS := cflags,
        CXXFLAGS := cflags,
        LDFLAGS := cflags,
        PKG_CONFIG_PATH := pkgConfigPath,
        CMAKE_OSX_ARCHITECTURES := arch]
  }

  /** The overrides: FFmpeg adds CPPFLAGS, Gnutls points GMP_CFLAGS and GMP_LIBS at `gmpPath`. */
  function LibraryEnvironment(l: Library, cflags: string, pkgConfigPath: string, arch: string, gmpPath: string): (env: map<Variable, string>)
    ensures env.Keys == BaseKeys
      + (if l == FFmpeg then {CPPFLAGS} else {})
      + (if l == Libgnutls then {GMP_CFLAGS, GMP_LIBS} else {})
    ensures env[CFLAGS] == cflags && env[CXXFLAGS] == cflags && env[LDFLAGS] == cflags
    ensures l == FFmpeg ==> env[CPPFLAGS] == cflags
    ensures l == Libgnutls ==> env[GMP_CFLAGS] == "-I" + gmpPath + "/include" && env[GMP_LIBS] == "-L" + gmpPath + "/lib -lgmp"
    ensures env[PKG_CONFIG_PATH] == pkgConfigPath && env[CMAKE_OSX_ARCHITECTURES] == arch
    ensures env[LC_CTYPE] == "C" && env[CC] == Clang
  {
    var environ := BaseEnvironment(cflags, pkgConfigPath, arch);
    if l == FFmpeg then environ[CPPFLAGS := cflags]
    else if l == Libgnutls then
      environ[GMP_CFLAGS := "-I" + gmpPath + "/include"][GMP_LIBS := "-L" + gmpPath + "/lib -lgmp"]
    else environ
  }

  /**
   * `environment(platform:arch:)` as each library's builder overrides it,
   * with `cFlags`, `pkgConfigPath` and the `gmp` tree of the target.
   */
  function Environment(l: Library, cwd: Path, p: Platform, a: Arch, sysroot: string, existing: set<Path>): (env: map<Variable, string>)
    ensures env.Keys == BaseKeys
      + (if l == FFmpeg then {CPPFLAGS} else {})
      + (if l == Libgnutls then {GMP_CFLAGS, GMP_LIBS} else {})
    ensures env[CFLAGS] == CFlagsOf(p, a, sysroot) && env[LDFLAGS] == CFlagsOf(p, a, sysroot)
    ensures env[PKG_CONFIG_PATH] == PkgConfigPathOf(cwd, p, a, existing)
    ensures env[CMAKE_OSX_ARCHITECTURES] == ArchRaw(a)
    ensures l == Libgnutls ==> env[GMP_CFLAGS] == "-I" + PathString(GmpDir(cwd, p, a)) + "/include"
  {
    LibraryEnvironment(l, CFlagsOf(p, a, sysroot), PkgConfigPathOf(cwd, p, a, existing), ArchRaw(a), PathString(GmpDir(cwd, p, a)))
  }
}
