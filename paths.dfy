/**
 * File URLs as sequences of path components, `URL +`, and the per-library
 * directory layout under the script directory (`thinDir`, `scratch`, `directoryURL`).
 */
module Paths {
  import opened Targets
  import opened Catalog

  /** A file URL, as its path components below the file-system root. */
  type Path = seq<string>

  /** `URL + String`: `appendPathComponent`. */
  function Plus(url: Path, component: string): Path {
    url + [component]
  }

  /** `URL + [String]`: appends the components one after another, so they end up in order. */
  method AppendComponents(url: Path, components: seq<string>) returns (r: Path)
    ensures r == url + components
  {
    r := url;
    var i := 0;
    while i < |components|
      invariant 0 <= i <= |components|
      invariant r == url + components[..i]
    {
      r := Plus(r, components[i]);
      assert components[..i + 1] == components[..i] + [components[i]];
      i := i + 1;
    }
    assert components[..i] == components;
  }

  /** `URL.path`: every component preceded by a slash. */
  function PathString(url: Path): string {
    if url == [] then "" else PathString(url[..|url| - 1]) + "/" + url[|url| - 1]
  }

  /**
   * `BaseBuild.thinDir`: the install tree `<cwd>/<library>/<platform>/thin/<arch>`.
   * No subclass overrides it.
   */
  function ThinDir(l: Library, cwd: Path, p: Platform, a: Arch): Path {
    cwd + [Raw(l), PlatformRaw(p), "thin", ArchRaw(a)]
  }

  /** `BaseBuild.directoryURL`: the source checkout `<cwd>/<library>-<version>`. */
  function DirectoryUrl(l: Library, cwd: Path): Path {
    cwd + [Raw(l) + "-" + Version(l)]
  }

  /**
   * `BaseBuild.scratch`: the out-of-tree build directory
   * `<cwd>/<library>/<platform>/scratch/<arch>`; Smbclient overrides it to build
   * inside its source checkout.
   */
  function Scratch(l: Library, cwd: Path, p: Platform, a: Arch): Path {
    if l == Libsmbclient then DirectoryUrl(l, cwd)
    else cwd + [Raw(l), PlatformRaw(p), "scratch", ArchRaw(a)]
  }

  /** The GMP tree that Nettle and Gnutls point at: `<cwd>/gmp/<platform>/thin/<arch>`. */
  function GmpDir(cwd: Path, p: Platform, a: Arch): Path {
    cwd + ["gmp", PlatformRaw(p), "thin", ArchRaw(a)]
  }

  /**
   * An install tree lies four levels below `cwd`, each level one non-empty
   * name without a slash, so its `URL.path` has exactly those four levels.
   */
  lemma ThinDirLevels(l: Library, cwd: Path, p: Platform, a: Arch)
    ensures var t := ThinDir(l, cwd, p, a);
      |t| == |cwd| + 4 && t[..|cwd|] == cwd
      && forall k :: |cwd| <= k < |t| ==> t[k] != "" && '/' !in t[k]
  {
    RawIsComponent(l);
  }

  /** Different (library, platform, arch) targets never share an install tree. */
  lemma ThinDirInjective(l: Library, p: Platform, a: Arch, l': Library, p': Platform, a': Arch, cwd: Path)
    requires ThinDir(l, cwd, p, a) == ThinDir(l', cwd, p', a')
    ensures l == l' && p == p' && a == a'
  {
    var t, t' := ThinDir(l, cwd, p, a), ThinDir(l', cwd, p', a');
    assert t[|cwd|] == Raw(l) && t'[|cwd|] == Raw(l');
    RawInjective(l, l');
    assert t[|cwd| + 1] == PlatformRaw(p) && t'[|cwd| + 1] == PlatformRaw(p');
    PlatformRawRoundTrip(p);
    PlatformRawRoundTrip(p');
    assert t[|cwd| + 3] == ArchRaw(a) && t'[|cwd| + 3] == ArchRaw(a');
    ArchRawInjective(a, a');
  }

  /**
   * Every library except Smbclient gets its own scratch directory per target,
   * and no scratch directory is an install tree.
   */
  lemma ScratchSeparate(l: Library, p: Platform, a: Arch, l': Library, p': Platform, a': Arch, cwd: Path)
    requires l != Libsmbclient
    ensures Scratch(l, cwd, p, a) == Scratch(l', cwd, p', a') ==> l == l' && p == p' && a == a'
    ensures Scratch(l, cwd, p, a) != ThinDir(l', cwd, p', a')
    ensures Scratch(l', cwd, p', a') != ThinDir(l, cwd, p, a)
  {
    var s := Scratch(l, cwd, p, a);
    assert s[|cwd| + 2] == "scratch" && ThinDir(l', cwd, p', a')[|cwd| + 2] == "thin";
    if l' != Libsmbclient {
      assert Scratch(l', cwd, p', a')[|cwd| + 2] == "scratch" && ThinDir(l, cwd, p, a)[|cwd| + 2] == "thin";
    }
    if s == Scratch(l', cwd, p', a') {
      var s' := Scratch(l', cwd, p', a');
      assert |s'| == |cwd| + 4;
      assert l' != Libsmbclient;
      assert s[|cwd|] == Raw(l) && s'[|cwd|] == Raw(l');
      RawInjective(l, l');
      assert s[|cwd| + 1] == PlatformRaw(p) && s'[|cwd| + 1] == PlatformRaw(p');
      PlatformRawRoundTrip(p);
      PlatformRawRoundTrip(p');
      assert s[|cwd| + 3] == ArchRaw(a) && s'[|cwd| + 3] == ArchRaw(a');
      ArchRawInjective(a, a');
    }
  }

  /** Smbclient builds every target in its one source checkout. */
  lemma SmbclientScratchShared(cwd: Path, p: Platform, a: Arch, p': Platform, a': Arch)
    ensures Scratch(Libsmbclient, cwd, p, a) == Scratch(Libsmbclient, cwd, p', a') == DirectoryUrl(Libsmbclient, cwd)
  {
  }

  /**
   * The GMP tree that Nettle and Gnutls use is not the install tree of any
   * library: GMP itself installs under its raw value `libgmp`, not `gmp`.
   */
  lemma GmpDirIsNoInstallTree(l: Library, cwd: Path, p: Platform, a: Arch)
    ensures GmpDir(cwd, p, a) != ThinDir(l, cwd, p, a)
    ensures GmpDir(cwd, p, a) != ThinDir(Libgmp, cwd, p, a)
  {
    assert GmpDir(cwd, p, a)[|cwd|] == "gmp";
    assert ThinDir(l, cwd, p, a)[|cwd|] == Raw(l);
    RawRoundTrip(l);
  }
}
