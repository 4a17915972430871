/**
 * `Build.performCommand`: the command-line tokens select the platforms, the
 * libraries and their build order, and the flags passed through to FFmpeg's
 * configure step.
 */
module Command {
  import opened Wrappers
  import opened Strings
  import opened Targets
  import opened Catalog

  /** What one command-line token asks for. */
  datatype Token =
    | DisableFFmpeg
    | EnableDebug
    | PlatformToken(value: string)
    | EnableToken(value: string)
    | ConfigureFlag(flag: string)
    | Ignored

  /**
   * The classification `performCommand` applies to each token, tests in the
   * order the source makes them: `disable-ffmpeg`, `enable-debug`,
   * `platform=<name>`, `enable-<library>`, then `--<flag>`; anything else is ignored.
   */
  function Classify(argument: string): Token {
    if argument == "disable-ffmpeg" then DisableFFmpeg
    else if argument == "enable-debug" then EnableDebug
    else if HasPrefix(argument, "platform=") then PlatformToken(argument[9..])
    else if HasPrefix(argument, "enable-") then EnableToken(argument[7..])
    else if HasPrefix(argument, "--") then ConfigureFlag(argument)
    else Ignored
  }

  /**
   * Each classification in terms of the token: the two keywords exactly, a
   * `platform=` or `enable-` token carries the rest of the token as its value,
   * and a token is passed through exactly when it starts with `--`.
   */
  lemma ClassifyCases(argument: string)
    ensures Classify(argument) == DisableFFmpeg <==> argument == "disable-ffmpeg"
    ensures Classify(argument) == EnableDebug <==> argument == "enable-debug"
    ensures Classify(argument).PlatformToken? <==> HasPrefix(argument, "platform=")
    ensures Classify(argument).PlatformToken? ==> argument == "platform=" + Classify(argument).value
    ensures Classify(argument).EnableToken? ==> argument == "enable-" + Classify(argument).value && argument != "enable-debug"
    ensures Classify(argument).ConfigureFlag? <==> HasPrefix(argument, "--")
    ensures Classify(argument).ConfigureFlag? ==> Classify(argument).flag == argument
  {
    if argument == "disable-ffmpeg" || argument == "enable-debug" {
      NotPrefixAt(argument, "platform=", 0);
      NotPrefixAt(argument, "--", 0);
    } else if HasPrefix(argument, "platform=") {
      assert argument == argument[..9] + argument[9..];
      NotPrefixAt(argument, "--", 0);
    } else if HasPrefix(argument, "enable-") {
      assert argument == argument[..7] + argument[7..];
      NotPrefixAt(argument, "--", 0);
    }
  }

  /** The platform a token names, if it is `platform=<raw value>` for one. */
  function TokenPlatforms(argument: string): seq<Platform> {
    match Classify(argument)
    case PlatformToken(value) => (match PlatformFromRaw(value) case Some(p) => [p] case None => [])
    case _ => []
  }

  /** The library a token enables, if it is `enable-<raw value>` for one. */
  function TokenLibraries(argument: string): seq<Library> {
    match Classify(argument)
    case EnableToken(value) => (match LibraryFromRaw(value) case Some(l) => [l] case None => [])
    case _ => []
  }

  /** The flag a token passes through to FFmpeg, if it starts with `--`. */
  function TokenFlags(argument: string): seq<string> {
    match Classify(argument)
    case ConfigureFlag(flag) => [flag]
    case _ => []
  }

  /** The recognised `platform=` values, in token order. */
  function NamedPlatforms(arguments: seq<string>): seq<Platform> {
    if arguments == [] then []
    else NamedPlatforms(arguments[..|arguments| - 1]) + TokenPlatforms(arguments[|arguments| - 1])
  }

  /** The recognised `enable-<library>` tokens, in token order. */
  function RequestedLibraries(arguments: seq<string>): seq<Library> {
    if arguments == [] then []
    else RequestedLibraries(arguments[..|arguments| - 1]) + TokenLibraries(arguments[|arguments| - 1])
  }

  /** The `--` tokens, in token order. */
  function ConfigureFlags(arguments: seq<string>): seq<string> {
    if arguments == [] then []
    else ConfigureFlags(arguments[..|arguments| - 1]) + TokenFlags(arguments[|arguments| - 1])
  }

  predicate IsDisabled(arguments: seq<string>) {
    "disable-ffmpeg" in arguments
  }

  predicate IsDebug(arguments: seq<string>) {
    "enable-debug" in arguments
  }

  /** The three flags that make FFmpeg a debug or a release build. */
  function DebugFlags(debug: bool): (r: seq<string>)
    ensures |r| == 3
    ensures "--enable-debug" in r <==> debug
    ensures "--disable-debug" in r <==> !debug
    ensures "--enable-optimizations" in r <==> !debug
  {
    if debug then ["--enable-debug", "--disable-stripping", "--disable-optimizations"]
    else ["--disable-debug", "--enable-stripping", "--enable-optimizations"]
  }

  /** Debug and release flags have nothing in common. */
  lemma DebugFlagsExclusive(f: string)
    ensures !(f in DebugFlags(true) && f in DebugFlags(false))
  {
    if f in DebugFlags(true) {
      assert |f| == 14 || |f| == 19 || |f| == 23;
    }
  }

  /** The platforms the libraries are built for: the named ones, or all six when none is named. */
  function SelectedPlatforms(arguments: seq<string>): (r: seq<Platform>)
    ensures r != []
  {
    var platforms := NamedPlatforms(arguments);
    if platforms == [] then AllPlatforms else platforms
  }

  /** The position of the first `x` in `s`. */
  function FirstIndex(s: seq<Library>, x: Library): (i: nat)
    requires x in s
    ensures i < |s| && s[i] == x
    ensures forall k :: 0 <= k < i ==> s[k] != x
  {
    if s[0] == x then 0 else 1 + FirstIndex(s[1..], x)
  }

  /**
   * One pass of the main loop's `switch` over a token: what it adds to the
   * platform and library lists, the two switches it may turn on, and the flag
   * (none or one) it appends to `ffmpegConfiguers`.
   */
  method ScanToken(argument: string, platforms: seq<Platform>, librarys: seq<Library>, disableFFmpeg: bool, isFFmpegDebug: bool)
    returns (platforms': seq<Platform>, librarys': seq<Library>, disableFFmpeg': bool, isFFmpegDebug': bool, flag: seq<string>)
    ensures platforms' == platforms + TokenPlatforms(argument)
    ensures librarys' == librarys + TokenLibraries(argument)
    ensures disableFFmpeg' == (disableFFmpeg || argument == "disable-ffmpeg")
    ensures isFFmpegDebug' == (isFFmpegDebug || argument == "enable-debug")
    ensures flag == TokenFlags(argument)
  {
    ClassifyCases(argument);
    TokenFacts(argument);
    platforms', librarys', disableFFmpeg', isFFmpegDebug', flag := platforms, librarys, disableFFmpeg, isFFmpegDebug, [];
    match Classify(argument) {
      case DisableFFmpeg => disableFFmpeg' := true;
      case EnableDebug => isFFmpegDebug' := true;
      case PlatformToken(value) =>
        match PlatformFromRaw(value) {
          case Some(platform) => platforms' := platforms + [platform];
          case None =>
        }
      case EnableToken(value) =>
        match LibraryFromRaw(value) {
          case Some(library) => librarys' := librarys + [library];
          case None =>
        }
      case ConfigureFlag(f) => flag := [f];
      case Ignored =>
    }
  }

  /** `firstIndex(of: .mpv)`, `remove(at:)`, `append(.mpv)`: the first mpv goes to the end. */
  function MoveMpvLast(libs: seq<Library>): (r: seq<Library>)
    ensures |r| == |libs| && multiset(r) == multiset(libs)
    ensures Mpv in libs ==> r[|r| - 1] == Mpv
    ensures Mpv !in libs ==> r == libs
  {
    if Mpv in libs then
      var index := FirstIndex(libs, Mpv);
      assert libs == libs[..index] + [libs[index]] + libs[index + 1..];
      libs[..index] + libs[index + 1..] + [Mpv]
    else libs
  }

  /** The requested libraries with FFmpeg appended unless disabled. */
  function WithFFmpeg(arguments: seq<string>): seq<Library> {
    var librarys := RequestedLibraries(arguments);
    if IsDisabled(arguments) then librarys else librarys + [FFmpeg]
  }

  /** The libraries `performCommand` builds, in the order it builds them. */
  function BuildOrder(arguments: seq<string>): seq<Library> {
    MoveMpvLast(WithFFmpeg(arguments))
  }

  /** The process-wide state `performCommand` sets: `BaseBuild.platforms` and `Build.ffmpegConfiguers`. */
  class Build {
    /** `BaseBuild.platforms`: the platforms every library is built for. */
    var platforms: seq<Platform>
    /** `Build.ffmpegConfiguers`: the flags passed through to FFmpeg's configure. */
    var ffmpegConfiguers: seq<string>

    /** The initial values of the two static variables. */
    constructor ()
      ensures platforms == AllPlatforms && ffmpegConfiguers == []
    {
      platforms := AllPlatforms;
      ffmpegConfiguers := [];
    }

    /**
     * `Build.performCommand` up to the point where it starts building: sets
     * both static variables and returns the libraries in build order.
     */
    method PerformCommand(arguments: seq<string>) returns (librarys: seq<Library>)
      modifies this
      ensures platforms == SelectedPlatforms(arguments)
      ensures ffmpegConfiguers == old(ffmpegConfiguers) + ConfigureFlags(arguments) + DebugFlags(IsDebug(arguments))
      ensures librarys == BuildOrder(arguments)
    {
      this.platforms := NamedPlatformList(arguments);
      var platforms, disableFFmpeg, isFFmpegDebug;
      platforms, librarys, disableFFmpeg, isFFmpegDebug := ScanArguments(arguments);
      AppendDebugFlags(isFFmpegDebug);
      if platforms == [] {
        this.platforms := AllPlatforms;
      } else {
        this.platforms := platforms;
      }
      if !disableFFmpeg {
        librarys := librarys + [FFmpeg];
      }
      assert librarys == WithFFmpeg(arguments);
      librarys := MoveMpvToEnd(librarys);
    }

    /** Appends the debug or the release triple of FFmpeg flags. */
    method AppendDebugFlags(isFFmpegDebug: bool)
      modifies this
      ensures ffmpegConfiguers == old(ffmpegConfiguers) + DebugFlags(isFFmpegDebug)
      ensures platforms == old(platforms)
    {
      if isFFmpegDebug {
        ffmpegConfiguers := ffmpegConfiguers + ["--enable-debug"];
        ffmpegConfiguers := ffmpegConfiguers + ["--disable-stripping"];
        ffmpegConfiguers := ffmpegConfiguers + ["--disable-optimizations"];
      } else {
        ffmpegConfiguers := ffmpegConfiguers + ["--disable-debug"];
        ffmpegConfiguers := ffmpegConfiguers + ["--enable-stripping"];
        ffmpegConfiguers := ffmpegConfiguers + ["--enable-optimizations"];
      }
    }

    /**
     * The main loop of `performCommand`: collects platforms and libraries,
     * notes `disable-ffmpeg` and `enable-debug`, and appends every `--` token
     * to `ffmpegConfiguers`.
     */
    method ScanArguments(arguments: seq<string>) returns (platforms: seq<Platform>, librarys: seq<Library>, disableFFmpeg: bool, isFFmpegDebug: bool)
      modifies this
      ensures platforms == NamedPlatforms(arguments)
      ensures librarys == RequestedLibraries(arguments)
      ensures disableFFmpeg == IsDisabled(arguments)
      ensures isFFmpegDebug == IsDebug(arguments)
      ensures ffmpegConfiguers == old(ffmpegConfiguers) + ConfigureFlags(arguments)
      ensures this.platforms == old(this.platforms)
    {
      platforms := [];
      librarys := [];
      disableFFmpeg := false;
      isFFmpegDebug := false;
      var i := 0;
      assert arguments[..0] == [];
      ghost var flags: seq<string> := [];
      while i < |arguments|
        invariant 0 <= i <= |arguments|
        invariant platforms == NamedPlatforms(arguments[..i])
        invariant librarys == RequestedLibraries(arguments[..i])
        invariant flags == ConfigureFlags(arguments[..i])
        invariant ffmpegConfiguers == old(ffmpegConfiguers) + flags
        invariant disableFFmpeg == ("disable-ffmpeg" in arguments[..i])
        invariant isFFmpegDebug == ("enable-debug" in arguments[..i])
        invariant this.platforms == old(this.platforms)
      {
        var argument := arguments[i];
        ArgumentsSnoc(arguments, i);
        var flag;
        platforms, librarys, disableFFmpeg, isFFmpegDebug, flag := ScanToken(argument, platforms, librarys, disableFFmpeg, isFFmpegDebug);
        Associative(old(ffmpegConfiguers), flags, flag);
        ffmpegConfiguers := ffmpegConfiguers + flag;
        flags := flags + flag;
        i := i + 1;
      }
      assert arguments[..i] == arguments;
    }
  }

  /** `firstIndex(of: .mpv)`, then `remove(at:)` and `append(.mpv)` on the library list. */
  method MoveMpvToEnd(librarys: seq<Library>) returns (r: seq<Library>)
    ensures r == MoveMpvLast(librarys)
  {
    r := librarys;
    if Mpv in r {
      var index := FirstIndex(r, Mpv);
      r := r[..index] + r[index + 1..];
      r := r + [Mpv];
    }
  }

  /** The `compactMap` over the tokens that names the platforms before the main loop. */
  method NamedPlatformList(arguments: seq<string>) returns (named: seq<Platform>)
    ensures named == NamedPlatforms(arguments)
  {
    named := [];
    var i := 0;
    assert arguments[..0] == [];
    while i < |arguments|
      invariant 0 <= i <= |arguments|
      invariant named == NamedPlatforms(arguments[..i])
    {
      var argument := arguments[i];
      ArgumentsSnoc(arguments, i);
      ClassifyCases(argument);
      if HasPrefix(argument, "platform=") {
        var value := argument[9..];
        match PlatformFromRaw(value) {
          case Some(platform) => named := named + [platform];
          case None =>
        }
      }
      i := i + 1;
    }
    assert arguments[..i] == arguments;
  }

  /** Each token feeds at most one of the collected lists. */
  lemma TokenFacts(argument: string)
    ensures Classify(argument).ConfigureFlag? ==> TokenFlags(argument) == [argument]
    ensures !Classify(argument).ConfigureFlag? ==> TokenFlags(argument) == []
    ensures !Classify(argument).PlatformToken? ==> TokenPlatforms(argument) == []
    ensures !Classify(argument).EnableToken? ==> TokenLibraries(argument) == []
  {
  }

  /** What one more token adds to each of the collected lists. */
  lemma ArgumentsSnoc(arguments: seq<string>, i: nat)
    requires i < |arguments|
    ensures NamedPlatforms(arguments[..i + 1]) == NamedPlatforms(arguments[..i]) + TokenPlatforms(arguments[i])
    ensures RequestedLibraries(arguments[..i + 1]) == RequestedLibraries(arguments[..i]) + TokenLibraries(arguments[i])
    ensures ConfigureFlags(arguments[..i + 1]) == ConfigureFlags(arguments[..i]) + TokenFlags(arguments[i])
    ensures "disable-ffmpeg" in arguments[..i + 1] <==> "disable-ffmpeg" in arguments[..i] || arguments[i] == "disable-ffmpeg"
    ensures "enable-debug" in arguments[..i + 1] <==> "enable-debug" in arguments[..i] || arguments[i] == "enable-debug"
  {
    assert arguments[..i + 1] == arguments[..i] + [arguments[i]];
    assert arguments[..i + 1][..i] == arguments[..i];
  }

  lemma {:induction false} NamedPlatformsAppend(a: seq<string>, b: seq<string>)
    ensures NamedPlatforms(a + b) == NamedPlatforms(a) + NamedPlatforms(b)
    decreases |b|
  {
    if b == [] {
      assert a + b == a;
    } else {
      var init, last := b[..|b| - 1], b[|b| - 1];
      assert (a + b)[..|a + b| - 1] == a + init;
      assert (a + b)[|a + b| - 1] == last;
      NamedPlatformsAppend(a, init);
      Associative(NamedPlatforms(a), NamedPlatforms(init), TokenPlatforms(last));
    }
  }

  lemma {:induction false} RequestedLibrariesAppend(a: seq<string>, b: seq<string>)
    ensures RequestedLibraries(a + b) == RequestedLibraries(a) + RequestedLibraries(b)
    decreases |b|
  {
    if b == [] {
      assert a + b == a;
    } else {
      var init, last := b[..|b| - 1], b[|b| - 1];
      assert (a + b)[..|a + b| - 1] == a + init;
      assert (a + b)[|a + b| - 1] == last;
      RequestedLibrariesAppend(a, init);
      Associative(RequestedLibraries(a), RequestedLibraries(init), TokenLibraries(last));
    }
  }

  /** Splitting the token list splits the pass-through flags the same way: their order is kept. */
  lemma {:induction false} ConfigureFlagsAppend(a: seq<string>, b: seq<string>)
    ensures ConfigureFlags(a + b) == ConfigureFlags(a) + ConfigureFlags(b)
    decreases |b|
  {
    if b == [] {
      assert a + b == a;
    } else {
      var init, last := b[..|b| - 1], b[|b| - 1];
      assert (a + b)[..|a + b| - 1] == a + init;
      assert (a + b)[|a + b| - 1] == last;
      ConfigureFlagsAppend(a, init);
      Associative(ConfigureFlags(a), ConfigureFlags(init), TokenFlags(last));
    }
  }

  /** The pass-through flags are exactly the `--` tokens. */
  lemma {:induction false} ConfigureFlagsExactly(arguments: seq<string>, x: string)
    ensures x in ConfigureFlags(arguments) <==> x in arguments && HasPrefix(x, "--")
  {
    if arguments != [] {
      var init, last := arguments[..|arguments| - 1], arguments[|arguments| - 1];
      assert arguments == init + [last];
      ClassifyCases(last);
      ConfigureFlagsExactly(init, x);
    }
  }

  /** `platform=<raw value>` selects that platform and nothing else. */
  lemma PlatformTokenOf(p: Platform)
    ensures TokenPlatforms("platform=" + PlatformRaw(p)) == [p]
    ensures TokenLibraries("platform=" + PlatformRaw(p)) == []
    ensures TokenFlags("platform=" + PlatformRaw(p)) == []
  {
    var argument := "platform=" + PlatformRaw(p);
    assert argument[..9] == "platform=" && argument[9..] == PlatformRaw(p);
    PlatformRawRoundTrip(p);
    assert Classify(argument) == PlatformToken(PlatformRaw(p));
  }

  /** A `platform=` token selects a platform exactly when it carries that platform's raw value. */
  lemma TokenPlatformExactly(argument: string, p: Platform)
    ensures p in TokenPlatforms(argument) <==> argument == "platform=" + PlatformRaw(p)
  {
    ClassifyCases(argument);
    PlatformTokenOf(p);
  }

  /** A platform is named exactly when some token is `platform=<its raw value>`. */
  lemma {:induction false} NamedPlatformsExactly(arguments: seq<string>, p: Platform)
    ensures p in NamedPlatforms(arguments) <==> "platform=" + PlatformRaw(p) in arguments
  {
    if arguments != [] {
      var init, last := arguments[..|arguments| - 1], arguments[|arguments| - 1];
      assert arguments == init + [last];
      NamedPlatformsExactly(init, p);
      TokenPlatformExactly(last, p);
    }
  }

  /** `enable-<raw value>` requests that library and nothing else. */
  lemma EnableTokenOf(l: Library)
    ensures TokenLibraries("enable-" + Raw(l)) == [l]
    ensures TokenPlatforms("enable-" + Raw(l)) == []
    ensures TokenFlags("enable-" + Raw(l)) == []
  {
    var argument := "enable-" + Raw(l);
    assert argument[..7] == "enable-" && argument[7..] == Raw(l);
    RawRoundTrip(l);
    assert |Raw(l)| != |"debug"|;
    assert argument != "enable-debug";
    NotPrefixAt(argument, "platform=", 0);
    assert Classify(argument) == EnableToken(Raw(l));
  }

  /** An `enable-` token requests a library exactly when it carries that library's raw value. */
  lemma TokenLibraryExactly(argument: string, l: Library)
    ensures l in TokenLibraries(argument) <==> argument == "enable-" + Raw(l)
  {
    ClassifyCases(argument);
    EnableTokenOf(l);
  }

  /** A library is requested exactly when some token is `enable-<its raw value>`. */
  lemma {:induction false} RequestedLibrariesExactly(arguments: seq<string>, l: Library)
    ensures l in RequestedLibraries(arguments) <==> "enable-" + Raw(l) in arguments
  {
    if arguments != [] {
      var init, last := arguments[..|arguments| - 1], arguments[|arguments| - 1];
      assert arguments == init + [last];
      RequestedLibrariesExactly(init, l);
      TokenLibraryExactly(last, l);
    }
  }

  /** `enable-debug` switches FFmpeg to a debug build; it never requests a library. */
  lemma EnableDebugIsNoLibrary()
    ensures TokenLibraries("enable-debug") == []
    ensures TokenFlags("enable-debug") == []
  {
  }

  /**
   * The platform list: every named platform, in token order, or all six
   * platforms in declaration order when no token names a known platform.
   */
  lemma PlatformSelection(arguments: seq<string>, p: Platform)
    ensures NamedPlatforms(arguments) == [] ==> SelectedPlatforms(arguments) == AllPlatforms
    ensures p in SelectedPlatforms(arguments) <==> NamedPlatforms(arguments) == [] || "platform=" + PlatformRaw(p) in arguments
  {
    NamedPlatformsExactly(arguments, p);
    AllPlatformsComplete(p);
  }

  /**
   * FFmpeg is built unless `disable-ffmpeg` is given, or when it is requested
   * explicitly; moving mpv neither loses nor adds a library.
   */
  lemma BuildOrderFFmpeg(arguments: seq<string>)
    ensures multiset(BuildOrder(arguments)) == multiset(WithFFmpeg(arguments))
    ensures FFmpeg in BuildOrder(arguments) <==> !IsDisabled(arguments) || FFmpeg in RequestedLibraries(arguments)
  {
    var r := BuildOrder(arguments);
    var libs := WithFFmpeg(arguments);
    assert FFmpeg in r <==> FFmpeg in multiset(r);
    assert FFmpeg in libs <==> FFmpeg in multiset(libs);
  }

  /** A requested mpv is built last. */
  lemma BuildOrderMpvLast(arguments: seq<string>)
    ensures Mpv in RequestedLibraries(arguments) ==> BuildOrder(arguments)[|BuildOrder(arguments)| - 1] == Mpv
  {
  }

  /**
   * Moving mpv takes out its first occurrence, keeps every other library in
   * its order, and appends mpv.
   */
  lemma MoveMpvLastExactly(libs: seq<Library>, i: nat)
    requires i < |libs| && libs[i] == Mpv && Mpv !in libs[..i]
    ensures MoveMpvLast(libs) == libs[..i] + libs[i + 1..] + [Mpv]
  {
    var j := FirstIndex(libs, Mpv);
    assert forall k :: 0 <= k < i ==> libs[..i][k] == libs[k];
    assert j == i;
  }

  /** Moving mpv last in a list whose tail holds no mpv moves it past that tail. */
  lemma MoveMpvPastTail(requested: seq<Library>, tail: seq<Library>)
    requires Mpv !in tail
    ensures Mpv !in requested ==> MoveMpvLast(requested + tail) == requested + tail
    ensures Mpv in requested ==>
      MoveMpvLast(requested + tail)
      == requested[..FirstIndex(requested, Mpv)] + requested[FirstIndex(requested, Mpv) + 1..] + tail + [Mpv]
  {
    var libs := requested + tail;
    if Mpv in requested {
      var i := FirstIndex(requested, Mpv);
      assert libs[..i] == requested[..i];
      assert libs[i + 1..] == requested[i + 1..] + tail;
      assert forall k :: 0 <= k < i ==> requested[..i][k] == requested[k];
      MoveMpvLastExactly(libs, i);
      Associative(requested[..i], requested[i + 1..], tail);
    } else {
      assert Mpv !in libs;
    }
  }

  /**
   * The build order in full: the requested libraries in token order, then
   * FFmpeg unless disabled; a requested mpv is taken out at its first
   * occurrence and built last, after FFmpeg.
   */
  lemma BuildOrderExactly(arguments: seq<string>)
    ensures
      var requested := RequestedLibraries(arguments);
      var ffmpeg := if IsDisabled(arguments) then [] else [FFmpeg];
      (Mpv !in requested ==> BuildOrder(arguments) == requested + ffmpeg)
      && (Mpv in requested ==>
            BuildOrder(arguments)
            == requested[..FirstIndex(requested, Mpv)] + requested[FirstIndex(requested, Mpv) + 1..] + ffmpeg + [Mpv])
  {
    var requested := RequestedLibraries(arguments);
    var ffmpeg := if IsDisabled(arguments) then [] else [FFmpeg];
    assert WithFFmpeg(arguments) == requested + ffmpeg;
    MoveMpvPastTail(requested, ffmpeg);
  }

  /** Removing the element at `index` keeps every other value. */
  lemma RemoveAtKeeps(s: seq<Library>, index: nat, l: Library)
    requires index < |s| && l in s && l != s[index]
    ensures l in s[..index] + s[index + 1..]
  {
    var k :| 0 <= k < |s| && s[k] == l;
    var r := s[..index] + s[index + 1..];
    if k < index {
      assert r[k] == l;
    } else {
      assert r[k - 1] == l;
    }
  }

  /** With mpv requested, FFmpeg comes right before it and after every other library. */
  lemma FFmpegThenMovedMpv(requested: seq<Library>)
    requires Mpv in requested
    ensures
      var r := MoveMpvLast(requested + [FFmpeg]);
      |r| >= 2 && r[|r| - 2] == FFmpeg
      && forall l :: l in requested && l != Mpv ==> l in r[..|r| - 2]
  {
    var libs := requested + [FFmpeg];
    var index := FirstIndex(libs, Mpv);
    assert index < |requested| && requested[index] == Mpv;
    var before := requested[..index] + requested[index + 1..];
    assert libs[..index] + libs[index + 1..] == before + [FFmpeg];
    var r := before + [FFmpeg] + [Mpv];
    assert MoveMpvLast(libs) == r;
    assert r[..|r| - 2] == before;
    forall l | l in requested && l != Mpv
      ensures l in before
    {
      RemoveAtKeeps(requested, index, l);
    }
  }

  /**
   * Appending FFmpeg and then moving mpv last leaves FFmpeg right after every
   * other library, and only mpv after it.
   */
  lemma FFmpegThenMpv(requested: seq<Library>)
    ensures
      var r := MoveMpvLast(requested + [FFmpeg]);
      var j := if Mpv in requested then |r| - 2 else |r| - 1;
      0 <= j && r[j] == FFmpeg
      && forall l :: l in requested && l != Mpv ==> l in r[..j]
  {
    if Mpv in requested {
      FFmpegThenMovedMpv(requested);
    } else {
      var r := requested + [FFmpeg];
      assert Mpv !in r;
      assert r[..|r| - 1] == requested;
    }
  }

  /**
   * Unless disabled, FFmpeg is built right after every requested library
   * except mpv, and only mpv comes after it.
   */
  lemma BuildOrderFFmpegAfterRequested(arguments: seq<string>)
    requires !IsDisabled(arguments)
    ensures
      var r := BuildOrder(arguments);
      var j := if Mpv in RequestedLibraries(arguments) then |r| - 2 else |r| - 1;
      0 <= j && r[j] == FFmpeg
      && forall l :: l in RequestedLibraries(arguments) && l != Mpv ==> l in r[..j]
  {
    FFmpegThenMpv(RequestedLibraries(arguments));
  }

  /** What two tokens select is what each selects, in order. */
  lemma TwoTokens(x: string, y: string)
    ensures NamedPlatforms([x, y]) == TokenPlatforms(x) + TokenPlatforms(y)
    ensures RequestedLibraries([x, y]) == TokenLibraries(x) + TokenLibraries(y)
  {
    var args := [x, y];
    assert args[..1] == [x] && [x][..0] == [];
    assert NamedPlatforms([x]) == TokenPlatforms(x);
    assert RequestedLibraries([x]) == TokenLibraries(x);
  }

  /** Tokens `["enable-openssl", "platform=macos"]`: macOS only, OpenSSL then FFmpeg. */
  lemma ScenarioOpensslOnMacos()
    ensures SelectedPlatforms(["enable-openssl", "platform=macos"]) == [Macos]
    ensures BuildOrder(["enable-openssl", "platform=macos"]) == [Openssl, FFmpeg]
  {
    var args := ["enable-openssl", "platform=macos"];
    assert "enable-" + Raw(Openssl) == args[0];
    assert "platform=" + PlatformRaw(Macos) == args[1];
    EnableTokenOf(Openssl);
    PlatformTokenOf(Macos);
    TwoTokens(args[0], args[1]);
    assert args[0][0] != 'd' && args[1][0] != 'd';
    assert !IsDisabled(args);
    assert WithFFmpeg(args) == [Openssl, FFmpeg];
  }

  /** Tokens `["disable-ffmpeg", "enable-mpv"]`: only mpv is built. */
  lemma ScenarioMpvOnly()
    ensures BuildOrder(["disable-ffmpeg", "enable-mpv"]) == [Mpv]
  {
    var args := ["disable-ffmpeg", "enable-mpv"];
    assert args[..1] == ["disable-ffmpeg"] && args[..1][..0] == [];
    assert "enable-" + Raw(Mpv) == "enable-mpv";
    EnableTokenOf(Mpv);
    assert Classify("disable-ffmpeg") == DisableFFmpeg;
    assert RequestedLibraries(args) == [Mpv];
    assert IsDisabled(args);
  }

  /** No tokens: all six platforms, FFmpeg alone, a release build. */
  lemma ScenarioDefaults()
    ensures SelectedPlatforms([]) == AllPlatforms
    ensures BuildOrder([]) == [FFmpeg]
    ensures ConfigureFlags([]) + DebugFlags(IsDebug([])) == ["--disable-debug", "--enable-stripping", "--enable-optimizations"]
  {
  }

  /** `enable-FFmpeg` without `disable-ffmpeg` puts FFmpeg in the build order twice. */
  lemma ScenarioFFmpegTwice()
    ensures BuildOrder(["enable-FFmpeg"]) == [FFmpeg, FFmpeg]
  {
    var args := ["enable-FFmpeg"];
    assert args[..0] == [];
    assert "enable-" + Raw(FFmpeg) == "enable-FFmpeg";
    EnableTokenOf(FFmpeg);
    assert RequestedLibraries(args) == [FFmpeg];
  }
}
