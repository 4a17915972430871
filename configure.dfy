/**
 * The per-library configure arguments: `BaseBuild.arguments` (`--prefix=`), the
 * `arguments(platform:arch:)` override of every builder, SRT's CMake command
 * line, and FFmpeg's argument list, which also depends on the user's
 * pass-through flags and on which libraries are already installed.
 */
module Configure {
  import opened Strings
  import opened Targets
  import opened Catalog
  import opened Paths

  /** `BaseBuild.arguments`: install into the library's thin directory for the target. */
  function PrefixArgument(l: Library, cwd: Path, p: Platform, a: Arch): string {
    "--prefix=" + PathString(ThinDir(l, cwd, p, a))
  }

  /** The autotools `--host=` flag for the target. */
  function HostFlag(p: Platform, a: Arch): string {
    "--host=" + Host(p, a)
  }

  /** The `--with-sysroot=` flag; `sysroot` is the SDK path `xcrun` reports for the platform. */
  function WithSysroot(sysroot: string): string {
    "--with-sysroot=" + sysroot
  }

  /** OpenSSL's `Configure` target: arm64e builds use `iphoneos-cross`, the others a `darwin64-` target. */
  function OpenSslTarget(a: Arch): (r: string)
    ensures r == "iphoneos-cross" <==> a == Arm64e
    ensures HasPrefix(r, "darwin64-") <==> a != Arm64e
    ensures HasSuffix(r, "x86_64") <==> a == X86_64
  {
    if a == X86_64 then "darwin64-x86_64"
    else if a == Arm64e then NotPrefixAt("iphoneos-cross", "darwin64-", 0); "iphoneos-cross"
    else "darwin64-arm64"
  }

  /** `BuildOpenSSL.arguments`. */
  function OpenSslArguments(cwd: Path, p: Platform, a: Arch): (r: seq<string>)
    ensures |r| == 7 && r[0] == PrefixArgument(Openssl, cwd, p, a) && r[1] == OpenSslTarget(a)
    ensures "no-shared" in r
  {
    [PrefixArgument(Openssl, cwd, p, a)]
    + [OpenSslTarget(a), "no-async", "no-shared", "no-dso", "no-engine", "no-tests"]
  }

  /** `BuildSmbclient.arguments`; `--without-acl-support` really is listed twice. */
  function SmbclientArguments(cwd: Path, p: Platform, a: Arch): (r: seq<string>)
    ensures |r| == 22 && r[0] == PrefixArgument(Libsmbclient, cwd, p, a) && r[|r| - 1] == HostFlag(p, a)
    ensures r[7] == "--without-acl-support" && r[18] == "--without-acl-support"
  {
    [PrefixArgument(Libsmbclient, cwd, p, a)]
    + ["--bundled-libraries=NONE,ldb,tdb,tevent", "--disable-cephfs", "--disable-cups", "--disable-iprint",
       "--disable-glusterfs", "--disable-python", "--without-acl-support", "--without-ad-dc", "--without-ads",
       "--without-ldap", "--without-libarchive", "--without-json", "--without-pam", "--without-regedit",
       "--without-syslog", "--without-utmp", "--without-winbind", "--without-acl-support",
       "--with-shared-modules=!vfs_snapper", "--with-system-mitkrb5", HostFlag(p, a)]
  }

  /** `BuildGmp.arguments`. */
  function GmpArguments(cwd: Path, p: Platform, a: Arch, sysroot: string): (r: seq<string>)
    ensures |r| == 9 && r[0] == PrefixArgument(Libgmp, cwd, p, a)
    ensures r[|r| - 2] == HostFlag(p, a) && r[|r| - 1] == WithSysroot(sysroot)
    ensures "--enable-static" in r && "--disable-shared" in r
  {
    [PrefixArgument(Libgmp, cwd, p, a)]
    + ["--disable-maintainer-mode", "--disable-assembly", "--with-pic", "--enable-static",
       "--disable-shared", "--disable-fast-install", HostFlag(p, a), WithSysroot(sysroot)]
  }

  /** Nettle's architecture option: ARM NEON on both ARM architectures, AES-NI on x86_64. */
  function NettleArchFlag(a: Arch): (r: string)
    ensures r == "--enable-arm-neon" <==> a != X86_64
    ensures r == "--enable-x86-aesni" <==> a == X86_64
  {
    match a
    case Arm64 | Arm64e => "--enable-arm-neon"
    case X86_64 => "--enable-x86-aesni"
  }

  /** `BuildNettle.arguments`: GMP is looked up under the `gmp` tree. */
  function NettleArguments(cwd: Path, p: Platform, a: Arch): (r: seq<string>)
    ensures |r| == 14 && r[0] == PrefixArgument(Nettle, cwd, p, a)
    ensures r[1] == "--with-include-path=" + PathString(GmpDir(cwd, p, a)) + "/include"
    ensures r[2] == "--with-lib-path=" + PathString(GmpDir(cwd, p, a)) + "/lib"
    ensures r[|r| - 2] == HostFlag(p, a) && r[|r| - 1] == NettleArchFlag(a)
    ensures "--enable-static" in r && "--disable-shared" in r
  {
    var gmpPath := PathString(GmpDir(cwd, p, a));
    [PrefixArgument(Nettle, cwd, p, a)]
    + ["--with-include-path=" + gmpPath + "/include", "--with-lib-path=" + gmpPath + "/lib",
       "--disable-mini-gmp", "--disable-assembler", "--disable-openssl", "--disable-gcov",
       "--disable-documentation", "--enable-pic", "--enable-static", "--disable-shared",
       "--disable-dependency-tracking", HostFlag(p, a), NettleArchFlag(a)]
  }

  /** `BuildGnutls.arguments`. */
  function GnutlsArguments(cwd: Path, p: Platform, a: Arch, sysroot: string): (r: seq<string>)
    ensures |r| == 22 && r[0] == PrefixArgument(Libgnutls, cwd, p, a)
    ensures r[|r| - 2] == HostFlag(p, a) && r[|r| - 1] == WithSysroot(sysroot)
    ensures "--enable-static" in r && "--disable-shared" in r
  {
    [PrefixArgument(Libgnutls, cwd, p, a)]
    + ["--with-included-libtasn1", "--with-included-unistring", "--without-idn", "--without-p11-kit",
       "--enable-hardware-acceleration", "--disable-openssl-compatibility", "--disable-code-coverage",
       "--disable-doc", "--disable-manpages", "--disable-guile", "--disable-tests", "--disable-tools",
       "--disable-maintainer-mode", "--disable-full-test-suite", "--with-pic", "--enable-static",
       "--disable-shared", "--disable-fast-install", "--disable-dependency-tracking",
       HostFlag(p, a), WithSysroot(sysroot)]
  }

  /** SRT's monotonic-clock option: off only on Mac Catalyst. */
  function MonotonicClockFlag(p: Platform): (r: string)
    ensures r == "-DENABLE_MONOTONIC_CLOCK=0" <==> p == Maccatalyst
    ensures r == "-DENABLE_MONOTONIC_CLOCK=1" <==> p != Maccatalyst
  {
    if p == Maccatalyst then "-DENABLE_MONOTONIC_CLOCK=0" else "-DENABLE_MONOTONIC_CLOCK=1"
  }

  /**
   * `BuildSRT.configure`: the CMake command line, which names the source
   * checkout's `CMakeLists.txt` and uses the thin directory as both the prefix
   * path and the install prefix.
   */
  function SrtCMakeArguments(cwd: Path, p: Platform, a: Arch): (r: seq<string>)
    ensures |r| == 16 && r[0] == PathString(DirectoryUrl(Libsrt, cwd) + ["CMakeLists.txt"])
    ensures r[5] == "-DCMAKE_PREFIX_PATH=" + PathString(ThinDir(Libsrt, cwd, p, a))
    ensures r[6] == "-DCMAKE_INSTALL_PREFIX=" + PathString(ThinDir(Libsrt, cwd, p, a))
    ensures r[|r| - 1] == MonotonicClockFlag(p)
  {
    CMakeCommandLine(PathString(DirectoryUrl(Libsrt, cwd) + ["CMakeLists.txt"]),
                     PathString(ThinDir(Libsrt, cwd, p, a)), MonotonicClockFlag(p))
  }

  /** SRT's CMake command line for a given `CMakeLists.txt`, thin directory path and clock option. */
  function CMakeCommandLine(cmakeLists: string, thinDirPath: string, clock: string): (r: seq<string>)
    ensures |r| == 16 && r[0] == cmakeLists && r[|r| - 1] == clock
    ensures r[5] == "-DCMAKE_PREFIX_PATH=" + thinDirPath && r[6] == "-DCMAKE_INSTALL_PREFIX=" + thinDirPath
  {
    [cmakeLists, "-Wno-dev", "-DUSE_ENCLIB=openssl", "-DCMAKE_VERBOSE_MAKEFILE=0", "-DCMAKE_BUILD_TYPE=Release",
     "-DCMAKE_PREFIX_PATH=" + thinDirPath, "-DCMAKE_INSTALL_PREFIX=" + thinDirPath,
     "-DENABLE_STDCXX_SYNC=1", "-DENABLE_CXX11=1", "-DUSE_OPENSSL_PC=1", "-DENABLE_DEBUG=0",
     "-DENABLE_LOGGING=0", "-DENABLE_HEAVY_LOGGING=0", "-DENABLE_APPS=0", "-DENABLE_SHARED=0", clock]
  }

  /** `BuildFribidi.arguments`. */
  function FribidiArguments(cwd: Path, p: Platform, a: Arch, sysroot: string): (r: seq<string>)
    ensures |r| == 10 && r[0] == PrefixArgument(Libfribidi, cwd, p, a)
    ensures r[|r| - 2] == HostFlag(p, a) && r[|r| - 1] == WithSysroot(sysroot)
    ensures "--enable-static" in r && "--disable-shared" in r
  {
    [PrefixArgument(Libfribidi, cwd, p, a)]
    + ["--disable-deprecated", "--disable-debug", "--with-pic", "--enable-static", "--disable-shared",
       "--disable-fast-install", "--disable-dependency-tracking", HostFlag(p, a), WithSysroot(sysroot)]
  }

  /** `BuildHarfbuzz.arguments`. */
  function HarfbuzzArguments(cwd: Path, p: Platform, a: Arch, sysroot: string): (r: seq<string>)
    ensures |r| == 11 && r[0] == PrefixArgument(Harfbuzz, cwd, p, a)
    ensures r[|r| - 2] == HostFlag(p, a) && r[|r| - 1] == WithSysroot(sysroot)
    ensures "--enable-static" in r && "--disable-shared" in r
  {
    [PrefixArgument(Harfbuzz, cwd, p, a)]
    + ["--with-glib=no", "--with-freetype=no", "--with-directwrite=no", "--with-pic", "--enable-static",
       "--disable-shared", "--disable-fast-install", "--disable-dependency-tracking",
       HostFlag(p, a), WithSysroot(sysroot)]
  }

  /** `BuildFreetype.arguments`. */
  function FreetypeArguments(cwd: Path, p: Platform, a: Arch, sysroot: string): (r: seq<string>)
    ensures |r| == 16 && r[0] == PrefixArgument(Libfreetype, cwd, p, a)
    ensures r[|r| - 2] == HostFlag(p, a) && r[|r| - 1] == WithSysroot(sysroot)
    ensures "--enable-static" in r && "--disable-shared" in r
  {
    [PrefixArgument(Libfreetype, cwd, p, a)]
    + ["--with-zlib", "--without-harfbuzz", "--without-bzip2", "--without-fsref",
       "--without-quickdraw-toolbox", "--without-quickdraw-carbon", "--without-ats", "--disable-mmap",
       "--with-png=no", "--with-pic", "--enable-static", "--disable-shared", "--disable-fast-install",
       HostFlag(p, a), WithSysroot(sysroot)]
  }

  /** libpng's SIMD option: SSE on x86_64, NEON on both ARM architectures. */
  function PngAsmOption(a: Arch): (r: string)
    ensures r == "--enable-intel-sse=yes" <==> a == X86_64
    ensures r == "--enable-arm-neon=yes" <==> a != X86_64
  {
    if a == X86_64 then "--enable-intel-sse=yes" else "--enable-arm-neon=yes"
  }

  /** `BuildPng.arguments`. */
  function PngArguments(cwd: Path, p: Platform, a: Arch, sysroot: string): (r: seq<string>)
    ensures |r| == 10 && r[0] == PrefixArgument(Png, cwd, p, a) && r[1] == PngAsmOption(a)
    ensures r[|r| - 2] == HostFlag(p, a) && r[|r| - 1] == WithSysroot(sysroot)
    ensures "--enable-static" in r && "--disable-shared" in r
  {
    [PrefixArgument(Png, cwd, p, a)]
    + [PngAsmOption(a), "--disable-unversioned-libpng-pc", "--disable-unversioned-libpng-config",
       "--with-pic", "--enable-static", "--disable-shared", "--disable-fast-install",
       HostFlag(p, a), WithSysroot(sysroot)]
  }

  /** `BuildASS.arguments`: assembly stays disabled on every target. */
  function AssArguments(cwd: Path, p: Platform, a: Arch, sysroot: string): (r: seq<string>)
    ensures |r| == 15 && r[0] == PrefixArgument(Libass, cwd, p, a)
    ensures r[|r| - 2] == HostFlag(p, a) && r[|r| - 1] == WithSysroot(sysroot)
    ensures "--disable-asm" in r && "--enable-static" in r && "--disable-shared" in r
  {
    var asmOptions := "--disable-asm";
    [PrefixArgument(Libass, cwd, p, a)]
    + ["--disable-libtool-lock", "--disable-fontconfig", "--disable-require-system-font-provider",
       "--disable-test", "--disable-profile", "--disable-coretext", asmOptions, "--with-pic",
       "--enable-static", "--disable-shared", "--disable-fast-install", "--disable-dependency-tracking",
       HostFlag(p, a), WithSysroot(sysroot)]
  }

  /** mpv's GL backend: VideoToolbox GL on macOS, plain GL on Mac Catalyst, iOS GL elsewhere. */
  function MpvGlFlag(p: Platform): (r: string)
    ensures r == "--enable-videotoolbox-gl" <==> p == Macos
    ensures r == "--enable-gl" <==> p == Maccatalyst
    ensures r == "--enable-ios-gl" <==> p != Macos && p != Maccatalyst
  {
    if p == Macos then "--enable-videotoolbox-gl"
    else if p == Maccatalyst then "--enable-gl"
    else "--enable-ios-gl"
  }

  /** `BuildMPV.arguments`, passed to `waf configure`. */
  function MpvArguments(cwd: Path, p: Platform, a: Arch): (r: seq<string>)
    ensures |r| == 13 && r[0] == PrefixArgument(Mpv, cwd, p, a) && r[|r| - 1] == MpvGlFlag(p)
    ensures "--enable-libmpv-static" in r
  {
    [PrefixArgument(Mpv, cwd, p, a)]
    + ["--disable-cplayer", "--disable-lcms2", "--disable-lua", "--disable-rubberband", "--disable-zimg",
       "--disable-javascript", "--disable-jpeg", "--disable-swift", "--disable-vapoursynth",
       "--enable-lgpl", "--enable-libmpv-static", MpvGlFlag(p)]
  }

  /** `BuildFFMPEG.ffmpegConfiguers`: the fixed FFmpeg options, `--enable-decoder=dca` listed twice. */
  const FFmpegOptions: seq<string> := [
    "--disable-armv5te", "--disable-armv6", "--disable-armv6t2", "--disable-bsfs",
    "--disable-bzlib", "--disable-gray", "--disable-iconv", "--disable-linux-perf",
    "--disable-xlib", "--disable-swscale-alpha", "--disable-symver", "--disable-small",
    "--enable-cross-compile", "--enable-gpl", "--enable-libxml2", "--enable-nonfree",
    "--enable-runtime-cpudetect", "--enable-thumb", "--enable-version3",
    "--pkg-config-flags=--static", "--enable-static", "--disable-shared", "--disable-doc",
    "--disable-htmlpages", "--disable-manpages", "--disable-podpages", "--disable-txtpages",
    "--enable-avcodec", "--enable-avformat", "--enable-avutil", "--enable-network",
    "--enable-swresample", "--enable-swscale", "--disable-devices", "--disable-outdevs",
    "--disable-indevs", "--disable-postproc", "--disable-d3d11va", "--disable-dxva2",
    "--disable-vaapi", "--disable-vdpau", "--enable-videotoolbox", "--enable-audiotoolbox",
    "--disable-encoders", "--disable-decoders", "--enable-decoder=av1", "--enable-decoder=dca",
    "--enable-decoder=flv", "--enable-decoder=h263", "--enable-decoder=h263i",
    "--enable-decoder=h263p", "--enable-decoder=h264", "--enable-decoder=hevc",
    "--enable-decoder=mjpeg", "--enable-decoder=mjpegb", "--enable-decoder=mpeg1video",
    "--enable-decoder=mpeg2video", "--enable-decoder=mpeg4", "--enable-decoder=mpegvideo",
    "--enable-decoder=rv30", "--enable-decoder=rv40", "--enable-decoder=tscc",
    "--enable-decoder=wmv1", "--enable-decoder=wmv2", "--enable-decoder=wmv3",
    "--enable-decoder=vc1", "--enable-decoder=vp6", "--enable-decoder=vp6a",
    "--enable-decoder=vp6f", "--enable-decoder=vp7", "--enable-decoder=vp8",
    "--enable-decoder=vp9", "--enable-decoder=aac*", "--enable-decoder=ac3*",
    "--enable-decoder=alac*", "--enable-decoder=amr*", "--enable-decoder=ape",
    "--enable-decoder=cook", "--enable-decoder=dca", "--enable-decoder=dolby_e",
    "--enable-decoder=eac3*", "--enable-decoder=flac", "--enable-decoder=mp1*",
    "--enable-decoder=mp2*", "--enable-decoder=mp3*", "--enable-decoder=opus",
    "--enable-decoder=pcm*", "--enable-decoder=truehd", "--enable-decoder=vorbis",
    "--enable-decoder=wma*", "--enable-decoder=ass", "--enable-decoder=ccaption",
    "--enable-decoder=dvbsub", "--enable-decoder=dvdsub", "--enable-decoder=movtext",
    "--enable-decoder=pgssub", "--enable-decoder=srt", "--enable-decoder=ssa",
    "--enable-decoder=subrip", "--enable-decoder=webvtt", "--disable-muxers",
    "--enable-muxer=dash", "--enable-muxer=hevc", "--enable-muxer=mp4", "--enable-muxer=m4v",
    "--enable-muxer=mov", "--enable-muxer=mpegts", "--enable-muxer=webm*", "--disable-demuxers",
    "--enable-demuxer=aac", "--enable-demuxer=ac3", "--enable-demuxer=aiff",
    "--enable-demuxer=amr", "--enable-demuxer=ape", "--enable-demuxer=asf", "--enable-demuxer=ass",
    "--enable-demuxer=avi", "--enable-demuxer=caf", "--enable-demuxer=concat",
    "--enable-demuxer=dash", "--enable-demuxer=data", "--enable-demuxer=eac3",
    "--enable-demuxer=flac", "--enable-demuxer=flv", "--enable-demuxer=h264",
    "--enable-demuxer=hevc", "--enable-demuxer=hls", "--enable-demuxer=live_flv",
    "--enable-demuxer=loas", "--enable-demuxer=m4v", "--enable-demuxer=matroska",
    "--enable-demuxer=mov", "--enable-demuxer=mp3", "--enable-demuxer=mpeg*",
    "--enable-demuxer=ogg", "--enable-demuxer=rm", "--enable-demuxer=rtsp", "--enable-demuxer=rtp",
    "--enable-demuxer=srt", "--enable-demuxer=vc1", "--enable-demuxer=wav",
    "--enable-demuxer=webm_dash_manifest", "--enable-protocols", "--disable-protocol=bluray",
    "--disable-protocol=ffrtmpcrypt", "--disable-protocol=gopher", "--disable-protocol=icecast",
    "--disable-protocol=librtmp*", "--disable-protocol=libssh", "--disable-protocol=md5",
    "--disable-protocol=mmsh", "--disable-protocol=mmst", "--disable-protocol=sctp",
    "--disable-protocol=subfile", "--disable-protocol=unix", "--disable-filters",
    "--enable-filter=aformat", "--enable-filter=amix", "--enable-filter=anull",
    "--enable-filter=aresample", "--enable-filter=areverse", "--enable-filter=asetrate",
    "--enable-filter=atempo", "--enable-filter=atrim", "--enable-filter=bwdif",
    "--enable-filter=estdif", "--enable-filter=format", "--enable-filter=fps",
    "--enable-filter=hflip", "--enable-filter=hwdownload", "--enable-filter=hwmap",
    "--enable-filter=hwupload", "--enable-filter=idet", "--enable-filter=null",
    "--enable-filter=overlay", "--enable-filter=palettegen", "--enable-filter=paletteuse",
    "--enable-filter=pan", "--enable-filter=rotate", "--enable-filter=scale",
    "--enable-filter=setpts", "--enable-filter=transpose", "--enable-filter=trim",
    "--enable-filter=vflip", "--enable-filter=volume", "--enable-filter=w3fdif",
    "--enable-filter=yadif", "--enable-filter=yadif_videotoolbox"
  ]

  /** Assembly and NEON are off for Mac Catalyst and for x86_64, on otherwise. */
  function AsmFlags(p: Platform, a: Arch): (r: seq<string>)
    ensures |r| == 2
    ensures r == ["--disable-neon", "--disable-asm"] <==> p == Maccatalyst || a == X86_64
    ensures r == ["--enable-neon", "--enable-asm"] <==> !(p == Maccatalyst || a == X86_64)
  {
    if p == Maccatalyst || a == X86_64 then ["--disable-neon", "--disable-asm"]
    else ["--enable-neon", "--enable-asm"]
  }

  /**
   * The programs FFmpeg builds: ffplay with SDL2 and a few extra components
   * only for the macOS arch the host can execute; otherwise no programs.
   * avdevice is disabled either way.
   */
  function ProgramFlags(p: Platform, a: Arch, host: HostArch): (r: seq<string>)
    ensures "--enable-ffplay" in r <==> p == Macos && IsExecutable(a, host)
    ensures "--disable-programs" in r <==> !(p == Macos && IsExecutable(a, host))
    ensures "--disable-avdevice" in r
  {
    if p == Macos && IsExecutable(a, host) then
      ["--enable-ffplay", "--enable-sdl2", "--enable-encoder=aac", "--enable-encoder=movtext",
       "--enable-encoder=mpeg4", "--enable-decoder=rawvideo", "--enable-filter=color",
       "--enable-filter=lut", "--enable-filter=negate", "--enable-filter=testsrc", "--disable-avdevice"]
    else ["--disable-avdevice", "--disable-programs"]
  }

  /** The flags one installed library contributes: `--enable-<raw>`, plus the protocol for SRT. */
  function EnableFlag(l: Library): seq<string> {
    ["--enable-" + Raw(l)] + (if l == Libsrt then ["--enable-protocol=" + Raw(l)] else [])
  }

  /** The `--enable-` flags for the libraries of `libs`, in order, that are installed and FFmpeg-dependent. */
  function EnableFlags(libs: seq<Library>, cwd: Path, p: Platform, a: Arch, existing: set<Path>): seq<string> {
    if libs == [] then []
    else
      var l := libs[|libs| - 1];
      EnableFlags(libs[..|libs| - 1], cwd, p, a, existing)
      + (if ThinDir(l, cwd, p, a) in existing && IsFFmpegDependentLibrary(l) then EnableFlag(l) else [])
  }

  /** The fixed part of FFmpeg's argument list, before the per-library `--enable-` flags. */
  function FFmpegHead(cwd: Path, p: Platform, a: Arch, host: HostArch, userFlags: seq<string>): (r: seq<string>)
    ensures |r| > 0 && r[0] == PrefixArgument(FFmpeg, cwd, p, a)
  {
    [PrefixArgument(FFmpeg, cwd, p, a)] + FFmpegOptions + userFlags
    + ["--target-os=darwin", "--arch=" + ArchName(a), Cpu(a)]
    + AsmFlags(p, a) + ProgramFlags(p, a, host)
  }

  /** `BuildFFMPEG.arguments`: `userFlags` is `Build.ffmpegConfiguers`. */
  function FFmpegArgumentsOf(cwd: Path, p: Platform, a: Arch, host: HostArch, existing: set<Path>, userFlags: seq<string>): (r: seq<string>)
    ensures |r| > 0 && r[0] == PrefixArgument(FFmpeg, cwd, p, a)
  {
    FFmpegHead(cwd, p, a, host, userFlags) + EnableFlags(AllLibraries, cwd, p, a, existing)
  }

  lemma EnableFlagsSnoc(libs: seq<Library>, l: Library, cwd: Path, p: Platform, a: Arch, existing: set<Path>)
    ensures EnableFlags(libs + [l], cwd, p, a, existing)
         == EnableFlags(libs, cwd, p, a, existing)
            + (if ThinDir(l, cwd, p, a) in existing && IsFFmpegDependentLibrary(l) then EnableFlag(l) else [])
  {
    assert (libs + [l])[..|libs|] == libs;
  }

  /** `BuildFFMPEG.arguments`, appending as the builder does. */
  method FFmpegArguments(cwd: Path, p: Platform, a: Arch, host: HostArch, existing: set<Path>, userFlags: seq<string>)
    returns (arguments: seq<string>)
    ensures arguments == FFmpegArgumentsOf(cwd, p, a, host, existing, userFlags)
  {
    arguments := AppendTargetFlags(FFmpegOptions, cwd, p, a, host, userFlags);
    arguments := AppendEnableFlags(arguments, AllLibraries, cwd, p, a, existing);
  }

  /**
   * The first part of `BuildFFMPEG.arguments`, up to the per-library flags: the
   * prefix, the fixed `options`, the user's flags, the target and the
   * assembly and program flags.
   */
  method AppendTargetFlags(options: seq<string>, cwd: Path, p: Platform, a: Arch, host: HostArch, userFlags: seq<string>)
    returns (arguments: seq<string>)
    ensures arguments == [PrefixArgument(FFmpeg, cwd, p, a)] + options + userFlags
                         + ["--target-os=darwin", "--arch=" + ArchName(a), Cpu(a)]
                         + AsmFlags(p, a) + ProgramFlags(p, a, host)
  {
    arguments := [PrefixArgument(FFmpeg, cwd, p, a)];
    arguments := arguments + options;
    arguments := arguments + userFlags;
    arguments := arguments + ["--target-os=darwin", "--arch=" + ArchName(a), Cpu(a)];
    if p == Maccatalyst || a == X86_64 {
      arguments := arguments + ["--disable-neon", "--disable-asm"];
    } else {
      arguments := arguments + ["--enable-neon", "--enable-asm"];
    }
    if p == Macos && IsExecutable(a, host) {
      arguments := arguments + ["--enable-ffplay", "--enable-sdl2", "--enable-encoder=aac", "--enable-encoder=movtext",
        "--enable-encoder=mpeg4", "--enable-decoder=rawvideo", "--enable-filter=color",
        "--enable-filter=lut", "--enable-filter=negate", "--enable-filter=testsrc", "--disable-avdevice"];
    } else {
      arguments := arguments + ["--disable-avdevice", "--disable-programs"];
    }
  }

  /** The loop over the catalog at the end of `BuildFFMPEG.arguments`, over the libraries of `libs`. */
  method AppendEnableFlags(head: seq<string>, libs: seq<Library>, cwd: Path, p: Platform, a: Arch, existing: set<Path>)
    returns (arguments: seq<string>)
    ensures arguments == head + EnableFlags(libs, cwd, p, a, existing)
  {
    arguments := head;
    ghost var enabled: seq<string> := [];
    var i := 0;
    assert libs[..0] == [];
    while i < |libs|
      invariant 0 <= i <= |libs|
      invariant enabled == EnableFlags(libs[..i], cwd, p, a, existing)
      invariant arguments == head + enabled
    {
      var library := libs[i];
      var path := ThinDir(library, cwd, p, a);
      assert libs[..i + 1] == libs[..i] + [library];
      EnableFlagsSnoc(libs[..i], library, cwd, p, a, existing);
      ghost var step := if path in existing && IsFFmpegDependentLibrary(library) then EnableFlag(library) else [];
      Associative(head, enabled, step);
      arguments := AppendEnableFlag(arguments, library, path, existing);
      enabled := enabled + step;
      i := i + 1;
    }
    assert libs[..i] == libs;
  }

  /** One iteration of that loop: the library's flags when its install tree exists and FFmpeg links it. */
  method AppendEnableFlag(arguments: seq<string>, library: Library, path: Path, existing: set<Path>)
    returns (r: seq<string>)
    ensures r == arguments + (if path in existing && IsFFmpegDependentLibrary(library) then EnableFlag(library) else [])
  {
    r := arguments;
    if path in existing && IsFFmpegDependentLibrary(library) {
      r := r + ["--enable-" + Raw(library)];
      if library == Libsrt {
        r := r + ["--enable-protocol=" + Raw(library)];
      }
    }
  }

  /** `--enable-<x>` flags are equal only for equal `x`. */
  lemma EnableInjective(x: string, y: string)
    requires "--enable-" + x == "--enable-" + y
    ensures x == y
  {
    assert x == ("--enable-" + x)[9..];
    assert y == ("--enable-" + y)[9..];
  }

  /** No library's raw value is `protocol=libsrt`, so the protocol flag never reads as a library's flag. */
  lemma ProtocolIsNoLibraryFlag(l: Library)
    ensures "--enable-protocol=libsrt" != "--enable-" + Raw(l)
  {
    assert ("--enable-" + Raw(l))[9..] == Raw(l);
    assert "--enable-protocol=libsrt"[9..] == "protocol=libsrt";
    assert |Raw(l)| < |"protocol=libsrt"|;
  }

  /**
   * FFmpeg enables a library exactly when it is listed, its thin directory for
   * the target exists and it is one FFmpeg depends on.
   */
  lemma {:induction false} EnableFlagsExactly(libs: seq<Library>, l: Library, cwd: Path, p: Platform, a: Arch, existing: set<Path>)
    ensures "--enable-" + Raw(l) in EnableFlags(libs, cwd, p, a, existing)
        <==> l in libs && ThinDir(l, cwd, p, a) in existing && IsFFmpegDependentLibrary(l)
  {
    if libs != [] {
      var init, last := libs[..|libs| - 1], libs[|libs| - 1];
      assert libs == init + [last];
      EnableFlagsExactly(init, l, cwd, p, a, existing);
      EnableFlagNames(l, last);
    }
  }

  /** The flags of `m` enable library `l` exactly when `m` is `l`. */
  lemma EnableFlagNames(l: Library, m: Library)
    ensures "--enable-" + Raw(l) in EnableFlag(m) <==> l == m
  {
    ProtocolIsNoLibraryFlag(l);
    if "--enable-" + Raw(l) == "--enable-" + Raw(m) {
      EnableInjective(Raw(l), Raw(m));
      RawInjective(l, m);
    }
  }

  /** `--enable-protocol=libsrt` only ever comes directly after `--enable-libsrt`. */
  lemma {:induction false} ProtocolFollowsLibsrt(libs: seq<Library>, cwd: Path, p: Platform, a: Arch, existing: set<Path>, k: nat)
    requires k < |EnableFlags(libs, cwd, p, a, existing)|
    requires EnableFlags(libs, cwd, p, a, existing)[k] == "--enable-protocol=libsrt"
    ensures k > 0 && EnableFlags(libs, cwd, p, a, existing)[k - 1] == "--enable-libsrt"
  {
    var init, last := libs[..|libs| - 1], libs[|libs| - 1];
    var before := EnableFlags(init, cwd, p, a, existing);
    if k < |before| {
      ProtocolFollowsLibsrt(init, cwd, p, a, existing, k);
    } else {
      ProtocolIsNoLibraryFlag(last);
      assert last == Libsrt;
    }
  }

  /** png, harfbuzz, nettle, mpv and FFmpeg itself are never enabled by the library loop of FFmpeg's arguments. */
  lemma NeverEnabled(l: Library, cwd: Path, p: Platform, a: Arch, existing: set<Path>)
    requires !IsFFmpegDependentLibrary(l)
    ensures "--enable-" + Raw(l) !in EnableFlags(AllLibraries, cwd, p, a, existing)
  {
    EnableFlagsExactly(AllLibraries, l, cwd, p, a, existing);
  }

  /**
   * The user's `--` tokens reach FFmpeg's argument list unfiltered, so a
   * `--enable-png` token does enable png there.
   */
  lemma UserFlagsReachFFmpeg(cwd: Path, p: Platform, a: Arch, host: HostArch, existing: set<Path>,
                             userFlags: seq<string>, flag: string)
    requires flag in userFlags
    ensures flag in FFmpegArgumentsOf(cwd, p, a, host, existing, userFlags)
  {
    InsideAppend(PrefixArgument(FFmpeg, cwd, p, a), FFmpegOptions, userFlags,
                 ["--target-os=darwin", "--arch=" + ArchName(a), Cpu(a)] + AsmFlags(p, a) + ProgramFlags(p, a, host),
                 EnableFlags(AllLibraries, cwd, p, a, existing), flag);
  }

  lemma InsideAppend(prefix: string, options: seq<string>, userFlags: seq<string>, target: seq<string>,
                     enable: seq<string>, flag: string)
    requires flag in userFlags
    ensures flag in [prefix] + options + userFlags + target + enable
  {
  }

  /** `Library.build.arguments(platform:arch:)`: the argument list of each library's builder. */
  function Arguments(l: Library, cwd: Path, p: Platform, a: Arch, sysroot: string, host: HostArch,
                     existing: set<Path>, userFlags: seq<string>): (r: seq<string>)
    ensures |r| > 0 && r[0] == PrefixArgument(l, cwd, p, a)
  {
    match l
    case FFmpeg => FFmpegArgumentsOf(cwd, p, a, host, existing, userFlags)
    case Openssl => OpenSslArguments(cwd, p, a)
    case Libsmbclient => SmbclientArguments(cwd, p, a)
    case Libgmp => GmpArguments(cwd, p, a, sysroot)
    case Nettle => NettleArguments(cwd, p, a)
    case Libgnutls => GnutlsArguments(cwd, p, a, sysroot)
    case Libsrt => [PrefixArgument(Libsrt, cwd, p, a)]
    case Libfribidi => FribidiArguments(cwd, p, a, sysroot)
    case Harfbuzz => HarfbuzzArguments(cwd, p, a, sysroot)
    case Libfreetype => FreetypeArguments(cwd, p, a, sysroot)
    case Png => PngArguments(cwd, p, a, sysroot)
    case Libass => AssArguments(cwd, p, a, sysroot)
    case Mpv => MpvArguments(cwd, p, a)
  }
}
