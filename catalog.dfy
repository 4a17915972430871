/** The library catalog: `enum Library` with its pinned versions, source URLs and dependency role. */
module Catalog {
  import opened Wrappers
  import opened Strings

  /** `Library`, in the order of its `allCases`. */
  datatype Library =
    | Libfreetype | Libfribidi | Libass | Openssl | Libsrt | Libsmbclient | Libgnutls
    | Libgmp | FFmpeg | Nettle | Harfbuzz | Png | Mpv

  /** `Library.allCases`. */
  const AllLibraries: seq<Library> :=
    [Libfreetype, Libfribidi, Libass, Openssl, Libsrt, Libsmbclient, Libgnutls,
     Libgmp, FFmpeg, Nettle, Harfbuzz, Png, Mpv]

  /** The position of a library in `allCases`. */
  function Position(l: Library): (i: nat)
    ensures i < |AllLibraries| && AllLibraries[i] == l
  {
    match l
    case Libfreetype => 0
    case Libfribidi => 1
    case Libass => 2
    case Openssl => 3
    case Libsrt => 4
    case Libsmbclient => 5
    case Libgnutls => 6
    case Libgmp => 7
    case FFmpeg => 8
    case Nettle => 9
    case Harfbuzz => 10
    case Png => 11
    case Mpv => 12
  }

  lemma PositionOf(i: nat)
    requires i < |AllLibraries|
    ensures Position(AllLibraries[i]) == i
  {
  }

  /** Every library is listed exactly once: different positions hold different libraries. */
  lemma AllLibrariesDistinct(i: nat, j: nat)
    requires i < j < |AllLibraries|
    ensures AllLibraries[i] != AllLibraries[j]
  {
    PositionOf(i);
    PositionOf(j);
  }

  /** `Library.rawValue`. */
  function Raw(l: Library): string {
    match l
    case Libfreetype => "libfreetype"
    case Libfribidi => "libfribidi"
    case Libass => "libass"
    case Openssl => "openssl"
    case Libsrt => "libsrt"
    case Libsmbclient => "libsmbclient"
    case Libgnutls => "libgnutls"
    case Libgmp => "libgmp"
    case FFmpeg => "FFmpeg"
    case Nettle => "nettle"
    case Harfbuzz => "harfbuzz"
    case Png => "png"
    case Mpv => "mpv"
  }

  /** `Library(rawValue:)`: only the exact raw values are recognised (case matters). */
  function LibraryFromRaw(s: string): (r: Option<Library>)
    ensures r.Some? ==> Raw(r.value) == s
  {
    if s == "libfreetype" then Some(Libfreetype)
    else if s == "libfribidi" then Some(Libfribidi)
    else if s == "libass" then Some(Libass)
    else if s == "openssl" then Some(Openssl)
    else if s == "libsrt" then Some(Libsrt)
    else if s == "libsmbclient" then Some(Libsmbclient)
    else if s == "libgnutls" then Some(Libgnutls)
    else if s == "libgmp" then Some(Libgmp)
    else if s == "FFmpeg" then Some(FFmpeg)
    else if s == "nettle" then Some(Nettle)
    else if s == "harfbuzz" then Some(Harfbuzz)
    else if s == "png" then Some(Png)
    else if s == "mpv" then Some(Mpv)
    else None
  }

  lemma RawRoundTrip(l: Library)
    ensures LibraryFromRaw(Raw(l)) == Some(l)
  {
    match l
    case Libfreetype =>
    case Libfribidi =>
    case Libass =>
    case Openssl =>
    case Libsrt =>
    case Libsmbclient =>
    case Libgnutls =>
    case Libgmp =>
    case FFmpeg =>
    case Nettle =>
    case Harfbuzz =>
    case Png =>
    case Mpv =>
  }

  /** Distinct libraries have distinct raw values. */
  lemma RawInjective(l: Library, m: Library)
    requires Raw(l) == Raw(m)
    ensures l == m
  {
    RawRoundTrip(l);
    RawRoundTrip(m);
  }

  /** Raw values hold no path separator, so each is a single path component. */
  lemma RawIsComponent(l: Library)
    ensures '/' !in Raw(l) && Raw(l) != ""
  {
  }

  /** `Library.version`: the pinned tag or branch passed to `git clone --branch`. */
  function Version(l: Library): (r: string)
    ensures r != ""
  {
    match l
    case FFmpeg => "n5.1.2"
    case Libfreetype => "VER-2-12-1"
    case Libfribidi => "v1.0.12"
    case Harfbuzz => "5.3.1"
    case Libass => "0.17.0"
    case Png => "v1.6.39"
    case Mpv => "v0.35.0"
    case Openssl => "openssl-3.0.7"
    case Libsrt => "v1.5.1"
    case Libsmbclient => "samba-4.17.5"
    case Libgnutls => "3.7.8"
    case Nettle => "nettle_3.8.1_release_20220727"
    case Libgmp => "v6.2.1"
  }

  const GitHub: string := "https://github.com/"

  /** The repository name of the default URL branch: the raw value without a `lib` prefix, except for libass. */
  function DefaultRepository(l: Library): string {
    var value := Raw(l);
    if l != Libass && HasPrefix(value, "lib") then value[3..] else value
  }

  /** `Library.url`: the GitHub repository the source is cloned from. */
  function Url(l: Library): (r: string)
    ensures HasPrefix(r, GitHub)
  {
    match l
    case Png => "https://github.com/glennrp/libpng"
    case Mpv => GitHub + Raw(l) + "-player/" + Raw(l)
    case Libsrt => "https://github.com/Haivision/srt"
    case Libsmbclient => "https://github.com/samba-team/samba"
    case Nettle => "https://github.com/gnutls/nettle"
    case Libgmp => "https://github.com/alisw/GMP"
    case _ => GitHub + DefaultRepository(l) + "/" + DefaultRepository(l)
  }

  /**
   * The default URL branch fetches `<name>/<name>`, where `<name>` is the raw
   * value with its `lib` prefix dropped, except for libass, which keeps it.
   */
  lemma UrlStripsLibPrefix(l: Library)
    ensures l != Libass ==> !HasPrefix(DefaultRepository(l), "lib")
    ensures DefaultRepository(Libass) == "libass"
    ensures DefaultRepository(Libfreetype) == "freetype"
    ensures DefaultRepository(Libfribidi) == "fribidi"
    ensures DefaultRepository(Libgnutls) == "gnutls"
    ensures DefaultRepository(Openssl) == "openssl"
    ensures DefaultRepository(FFmpeg) == "FFmpeg"
  {
    assert HasPrefix("libfreetype", "lib") && "libfreetype"[3..] == "freetype";
    assert HasPrefix("libfribidi", "lib") && "libfribidi"[3..] == "fribidi";
    assert HasPrefix("libgnutls", "lib") && "libgnutls"[3..] == "gnutls";
    NotPrefixAt("openssl", "lib", 0);
    NotPrefixAt("FFmpeg", "lib", 0);
    match l
    case Libfreetype => NotPrefixAt("freetype", "lib", 0);
    case Libfribidi => NotPrefixAt("fribidi", "lib", 0);
    case Libgnutls => NotPrefixAt("gnutls", "lib", 0);
    case Libsrt => assert "libsrt"[3..] == "srt"; NotPrefixAt("srt", "lib", 0);
    case Libsmbclient => assert "libsmbclient"[3..] == "smbclient"; NotPrefixAt("smbclient", "lib", 0);
    case Libgmp => assert "libgmp"[3..] == "gmp"; NotPrefixAt("gmp", "lib", 0);
    case Nettle => NotPrefixAt("nettle", "lib", 0);
    case Harfbuzz => NotPrefixAt("harfbuzz", "lib", 0);
    case Png => NotPrefixAt("png", "lib", 0);
    case Mpv => NotPrefixAt("mpv", "lib", 0);
    case _ =>
  }

  /**
   * `Library.isFFmpegDependentLibrary`: whether FFmpeg's configure step enables
   * the library when it has been built; png, harfbuzz, nettle, mpv and FFmpeg
   * itself never are.
   */
  predicate IsFFmpegDependentLibrary(l: Library) {
    match l
    case Png | Harfbuzz | Nettle | Mpv | FFmpeg => false
    case _ => true
  }
}
