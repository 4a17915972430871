/** The target matrix: `PlatformType` and `ArchType` with their per-target toolchain parameters. */
module Targets {
  import opened Wrappers
  import opened Strings

  /** `PlatformType`, in the order of its `allCases`. */
  datatype Platform = Ios | Isimulator | Tvos | Tvsimulator | Macos | Maccatalyst

  /** `ArchType`. */
  datatype Arch = Arm64 | X86_64 | Arm64e

  /**
   * The architecture of the machine running the script. It stands for both the
   * compile-time `#if arch(x86_64)` test and the first executable architecture
   * the main bundle reports; `HostUnknown` is a bundle that reports neither
   * ARM64 nor x86_64 (or none at all).
   */
  datatype HostArch = HostArm64 | HostX86_64 | HostUnknown

  /** `PlatformType.allCases`. */
  const AllPlatforms: seq<Platform> := [Ios, Isimulator, Tvos, Tvsimulator, Macos, Maccatalyst]

  lemma AllPlatformsComplete(p: Platform)
    ensures p in AllPlatforms
  {
  }

  /** `PlatformType.rawValue`. */
  function PlatformRaw(p: Platform): string {
    match p
    case Ios => "ios"
    case Isimulator => "isimulator"
    case Tvos => "tvos"
    case Tvsimulator => "tvsimulator"
    case Macos => "macos"
    case Maccatalyst => "maccatalyst"
  }

  /** `PlatformType(rawValue:)`: only the exact raw values are recognised. */
  function PlatformFromRaw(s: string): (r: Option<Platform>)
    ensures r.Some? ==> PlatformRaw(r.value) == s
  {
    if s == "ios" then Some(Ios)
    else if s == "isimulator" then Some(Isimulator)
    else if s == "tvos" then Some(Tvos)
    else if s == "tvsimulator" then Some(Tvsimulator)
    else if s == "macos" then Some(Macos)
    else if s == "maccatalyst" then Some(Maccatalyst)
    else None
  }

  lemma PlatformRawRoundTrip(p: Platform)
    ensures PlatformFromRaw(PlatformRaw(p)) == Some(p)
  {
    match p
    case Ios =>
    case Isimulator =>
    case Tvos =>
    case Tvsimulator =>
    case Macos =>
    case Maccatalyst =>
  }

  /** `ArchType.rawValue`. */
  function ArchRaw(a: Arch): string {
    match a
    case Arm64 => "arm64"
    case X86_64 => "x86_64"
    case Arm64e => "arm64e"
  }

  lemma ArchRawInjective(a: Arch, b: Arch)
    requires ArchRaw(a) == ArchRaw(b)
    ensures a == b
  {
    assert ArchRaw(a)[..5] == ArchRaw(b)[..5];
  }

  /** `PlatformType.minVersion`: macOS is the only platform whose minimum is not 13.0. */
  function MinVersion(p: Platform): (r: string)
    ensures r == "10.15" <==> p == Macos
    ensures r != "10.15" ==> r == "13.0"
  {
    match p
    case Ios | Isimulator => "13.0"
    case Tvos | Tvsimulator => "13.0"
    case Macos => "10.15"
    case Maccatalyst => "13.0"
  }

  /**
   * `PlatformType.architectures()`: every platform builds at least one
   * architecture and none twice; on macOS the host's own architecture comes first.
   */
  function Architectures(p: Platform, host: HostArch): (r: seq<Arch>)
    ensures |r| > 0
    ensures forall i, j :: 0 <= i < j < |r| ==> r[i] != r[j]
    ensures p == Macos && host != HostUnknown ==> IsExecutable(r[0], host)
    ensures Arm64e in r <==> p == Ios
  {
    match p
    case Ios => [Arm64, Arm64e]
    case Tvos => [Arm64]
    case Isimulator | Tvsimulator => [Arm64, X86_64]
    case Macos => if host == HostX86_64 then [X86_64, Arm64] else [Arm64, X86_64]
    case Maccatalyst => [Arm64, X86_64]
  }

  /** The architecture word used in host triples and catalyst targets: x86_64, else arm64. */
  function TripleCpu(a: Arch): (r: string)
    ensures r == "x86_64" <==> a == X86_64
  {
    if a == X86_64 then "x86_64" else "arm64"
  }

  /** The OS word of the `-m<os>-version-min=` flag of the platforms other than Mac Catalyst. */
  function VersionOs(p: Platform): string
    requires p != Maccatalyst
  {
    match p
    case Ios => "ios"
    case Isimulator => "ios-simulator"
    case Tvos => "tvos"
    case Tvsimulator => "tvos-simulator"
    case Macos => "macosx"
  }

  /**
   * `PlatformType.deploymentTarget(_:)`: `-mios-version-min=`, `-mios-simulator-version-min=`,
   * `-mtvos-version-min=`, `-mtvos-simulator-version-min=` or `-mmacosx-version-min=` followed
   * by the minimum version, and a `-target` triple on Mac Catalyst.
   */
  function DeploymentTarget(p: Platform, a: Arch): string {
    if p == Maccatalyst then
      (if a == X86_64 then "-target x86_64-apple-ios-macabi" else "-target arm64-apple-ios-macabi")
    else "-m" + VersionOs(p) + "-version-min=" + MinVersion(p)
  }

  /** A `-m<os>-version-min=<v>` flag starts with `-m` and ends with the version. */
  lemma VersionFlag(os: string, v: string)
    ensures HasPrefix("-m" + os + "-version-min=" + v, "-m")
    ensures HasSuffix("-m" + os + "-version-min=" + v, "-version-min=" + v)
  {
    var s := "-m" + os + "-version-min=" + v;
    assert s[..2] == "-m";
    assert s[2 + |os|..] == "-version-min=" + v;
  }

  /**
   * On every platform but Mac Catalyst the deployment target is a
   * `-m<os>-version-min=` flag that ends with the platform's minimum version.
   */
  lemma DeploymentTargetEmbedsMinVersion(p: Platform, a: Arch)
    requires p != Maccatalyst
    ensures HasPrefix(DeploymentTarget(p, a), "-m")
    ensures HasSuffix(DeploymentTarget(p, a), "-version-min=" + MinVersion(p))
  {
    VersionFlag(VersionOs(p), MinVersion(p));
  }

  /** On Mac Catalyst the deployment target names the arch's `-apple-ios-macabi` target. */
  lemma DeploymentTargetCatalyst(a: Arch)
    ensures DeploymentTarget(Maccatalyst, a) == "-target " + TripleCpu(a) + "-apple-ios-macabi"
  {
    if a == X86_64 {
      assert "-target x86_64-apple-ios-macabi" == "-target " + "x86_64" + "-apple-ios-macabi";
    } else {
      assert "-target arm64-apple-ios-macabi" == "-target " + "arm64" + "-apple-ios-macabi";
    }
  }

  /** `PlatformType.sdk()`: both Mac platforms use the MacOSX SDK, every other platform its own. */
  function Sdk(p: Platform): (r: string)
    ensures r == "MacOSX" <==> p == Macos || p == Maccatalyst
  {
    match p
    case Ios => "iPhoneOS"
    case Isimulator => "iPhoneSimulator"
    case Tvos => "AppleTVOS"
    case Tvsimulator => "AppleTVSimulator"
    case Macos => "MacOSX"
    case Maccatalyst => "MacOSX"
  }

  /** `PlatformType.host(arch:)`: the autotools `--host` triple `<cpu>-<os>-darwin`. */
  function Host(p: Platform, a: Arch): string {
    Triple(TripleCpu(a), HostOs(p))
  }

  /** The middle field of the host triple: `ios` also for the simulator and Mac Catalyst, `tvos`, or `apple` on macOS. */
  function HostOs(p: Platform): string {
    match p
    case Ios | Isimulator | Maccatalyst => "ios"
    case Tvos | Tvsimulator => "tvos"
    case Macos => "apple"
  }

  function Triple(cpu: string, os: string): string {
    cpu + "-" + os + "-darwin"
  }

  /**
   * Every host triple starts with the arch word and ends with `-darwin`; only
   * macOS uses the `apple` vendor field.
   */
  lemma HostTriple(p: Platform, a: Arch)
    ensures HasPrefix(Host(p, a), TripleCpu(a) + "-") && HasSuffix(Host(p, a), "-darwin")
    ensures Host(p, a) == Triple(TripleCpu(a), "apple") <==> p == Macos
  {
    TripleShape(TripleCpu(a), HostOs(p));
    if p != Macos {
      TripleFieldsDiffer(TripleCpu(a), HostOs(p), "apple");
    }
  }

  /** A triple `<cpu>-<os>-darwin` starts with `<cpu>-` and ends with `-darwin`. */
  lemma TripleShape(cpu: string, os: string)
    ensures HasPrefix(Triple(cpu, os), cpu + "-") && HasSuffix(Triple(cpu, os), "-darwin")
  {
    var h := cpu + "-" + os + "-darwin";
    assert h[..|cpu| + 1] == cpu + "-";
    assert h[|h| - 7..] == "-darwin";
  }

  /** Triples whose middle fields start differently are different. */
  lemma TripleFieldsDiffer(cpu: string, os: string, os': string)
    requires |os| > 0 && |os'| > 0 && os[0] != os'[0]
    ensures Triple(cpu, os) != Triple(cpu, os')
  {
    assert (cpu + "-" + os + "-darwin")[|cpu| + 1] == os[0];
    assert (cpu + "-" + os' + "-darwin")[|cpu| + 1] == os'[0];
  }

  /**
   * `ArchType.executable()`: true only for arm64 on an ARM64 host and for x86_64
   * on an x86_64 host; arm64e is never the executable architecture.
   */
  predicate IsExecutable(a: Arch, host: HostArch) {
    (host == HostArm64 && a == Arm64) || (host == HostX86_64 && a == X86_64)
  }

  lemma ExecutableIsHostArch(a: Arch, b: Arch, host: HostArch)
    requires IsExecutable(a, host) && IsExecutable(b, host)
    ensures a == b && a != Arm64e
  {
  }

  /** `ArchType.arch()`: FFmpeg's `--arch=` value; both ARM architectures are aarch64. */
  function ArchName(a: Arch): (r: string)
    ensures r == "aarch64" <==> a != X86_64
    ensures r != "aarch64" ==> r == "x86_64"
  {
    match a
    case Arm64 | Arm64e => "aarch64"
    case X86_64 => "x86_64"
  }

  /** `ArchType.cpu()`: a `--cpu=` flag, different for each architecture. */
  function Cpu(a: Arch): (r: string)
    ensures HasPrefix(r, "--cpu=")
  {
    match a
    case Arm64 => "--cpu=armv8"
    case X86_64 => "--cpu=x86_64"
    case Arm64e => "--cpu=armv8.3-a"
  }

  lemma CpuInjective(a: Arch, b: Arch)
    requires Cpu(a) == Cpu(b)
    ensures a == b
  {
    assert Cpu(a)[6] == Cpu(b)[6];
    assert |Cpu(a)| == |Cpu(b)|;
  }
}
