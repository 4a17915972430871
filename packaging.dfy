/**
 * Packaging a built library: `createXCFramework` and `createFramework` derive
 * framework names from the installed `lib*.a` archives, the `xcodebuild` and
 * `lipo` command lines, the header directory to copy, the module map and the
 * values written into `Info.plist`.
 */
module Packaging {
  import opened Wrappers
  import opened Strings
  import opened Targets
  import opened Catalog
  import opened Paths

  /** A `lib<name>.a` static archive. */
  predicate IsArchiveFile(fileName: string) {
    HasPrefix(fileName, "lib") && HasSuffix(fileName, ".a")
  }

  /** The `lib` prefix and the `.a` suffix of an archive never overlap. */
  lemma ArchiveFileLength(fileName: string)
    requires IsArchiveFile(fileName)
    ensures |fileName| >= 5
  {
    assert fileName[..3] == "lib";
    assert fileName[1] == 'i' && fileName[2] == 'b';
    assert fileName[|fileName| - 2..] == ".a";
    assert fileName[|fileName| - 2] == '.';
  }

  /** The archive's file name with `lib` and `.a` dropped and `Lib` in front. */
  function FrameworkName(fileName: string): (name: string)
    requires IsArchiveFile(fileName)
    ensures HasPrefix(name, "Lib") && |name| == |fileName| - 2
  {
    ArchiveFileLength(fileName);
    "Lib" + fileName[3..|fileName| - 2]
  }

  /** The archive a framework is made from, as `lipo` names it: `<framework>.a`. */
  function FrameworkArchive(framework: string): string {
    framework + ".a"
  }

  /** Dropping `lib` and `.a` and adding `Lib` loses nothing: the stem comes back unchanged. */
  lemma FrameworkNameOfStem(stem: string)
    ensures IsArchiveFile("lib" + stem + ".a")
    ensures FrameworkName("lib" + stem + ".a") == "Lib" + stem
  {
    var f := "lib" + stem + ".a";
    assert f[..3] == "lib";
    assert f[|f| - 2..] == ".a";
    assert f[3..|f| - 2] == stem;
  }

  /** Every archive file is `lib<stem>.a` for the stem its framework name carries. */
  lemma ArchiveFromFrameworkName(fileName: string)
    requires IsArchiveFile(fileName)
    ensures fileName == "lib" + FrameworkName(fileName)[3..] + ".a"
  {
    ArchiveFileLength(fileName);
    var stem := fileName[3..|fileName| - 2];
    assert FrameworkName(fileName)[3..] == stem;
    assert fileName == fileName[..3] + stem + fileName[|fileName| - 2..];
  }

  /** The framework names of the archives among `fileNames`, in listing order. */
  function FrameworkNamesOf(fileNames: seq<string>): seq<string> {
    if fileNames == [] then []
    else
      var f := fileNames[|fileNames| - 1];
      FrameworkNamesOf(fileNames[..|fileNames| - 1]) + (if IsArchiveFile(f) then [FrameworkName(f)] else [])
  }

  lemma FrameworkNamesSnoc(fileNames: seq<string>, f: string)
    ensures FrameworkNamesOf(fileNames + [f]) == FrameworkNamesOf(fileNames) + (if IsArchiveFile(f) then [FrameworkName(f)] else [])
  {
    assert (fileNames + [f])[..|fileNames|] == fileNames;
  }

  /** The loop of `createXCFramework` over the listing of the first target's `lib` directory. */
  method FrameworkNames(fileNames: seq<string>) returns (frameworks: seq<string>)
    ensures frameworks == FrameworkNamesOf(fileNames)
  {
    frameworks := [];
    var i := 0;
    while i < |fileNames|
      invariant 0 <= i <= |fileNames|
      invariant frameworks == FrameworkNamesOf(fileNames[..i])
    {
      var fileName := fileNames[i];
      assert fileNames[..i + 1] == fileNames[..i] + [fileName];
      FrameworkNamesSnoc(fileNames[..i], fileName);
      if HasPrefix(fileName, "lib") && HasSuffix(fileName, ".a") {
        frameworks := frameworks + ["Lib" + fileName[3..|fileName| - 2]];
      }
      i := i + 1;
    }
    assert fileNames[..i] == fileNames;
  }

  /**
   * A framework `Lib<stem>` is created exactly when the listing holds the
   * archive `lib<stem>.a`; no other file yields a framework.
   */
  lemma {:induction false} FrameworkNamesExactly(fileNames: seq<string>, stem: string)
    ensures "Lib" + stem in FrameworkNamesOf(fileNames) <==> "lib" + stem + ".a" in fileNames
  {
    if fileNames != [] {
      var init, f := fileNames[..|fileNames| - 1], fileNames[|fileNames| - 1];
      assert fileNames == init + [f];
      FrameworkNamesExactly(init, stem);
      FrameworkNameOfStem(stem);
      if IsArchiveFile(f) && FrameworkName(f) == "Lib" + stem {
        ArchiveFromFrameworkName(f);
        assert ("Lib" + stem)[3..] == stem;
      }
    }
  }

  /** At most one framework per listed file, and each one is named `Lib...`. */
  lemma {:induction false} FrameworkNamesShape(fileNames: seq<string>)
    ensures |FrameworkNamesOf(fileNames)| <= |fileNames|
    ensures forall k :: 0 <= k < |FrameworkNamesOf(fileNames)| ==> HasPrefix(FrameworkNamesOf(fileNames)[k], "Lib")
  {
    if fileNames != [] {
      FrameworkNamesShape(fileNames[..|fileNames| - 1]);
    }
  }

  /**
   * The directory whose listing names the frameworks: the `lib` directory of
   * the first active platform's first architecture; none without platforms.
   */
  function ListingDir(l: Library, cwd: Path, platforms: seq<Platform>, host: HostArch): (r: Option<Path>)
    ensures r.None? <==> platforms == []
  {
    if platforms == [] then None
    else
      var platform := platforms[0];
      var arch := Architectures(platform, host)[0];
      Some(ThinDir(l, cwd, platform, arch) + ["lib"])
  }

  /**
   * The directory whose listing names the frameworks is where the first `lipo`
   * input for the first platform lies: `LipoArguments` for `platforms[0]`
   * passes this directory followed by `<framework>.a` as its first archive.
   */
  lemma ListingIsFirstLipoSource(l: Library, cwd: Path, platforms: seq<Platform>, host: HostArch, framework: string)
    requires platforms != []
    ensures ListingDir(l, cwd, platforms, host).Some?
    ensures ListingDir(l, cwd, platforms, host).value + [FrameworkArchive(framework)]
         == ThinDir(l, cwd, platforms[0], Architectures(platforms[0], host)[0]) + ["lib", FrameworkArchive(framework)]
  {
    var dir := ThinDir(l, cwd, platforms[0], Architectures(platforms[0], host)[0]);
    Associative(dir, ["lib"], [FrameworkArchive(framework)]);
  }

  /**
   * The archive `lipo` is given for a listed `lib<stem>.a` is `Lib<stem>.a`:
   * the same length, and different only in the case of the first letter.
   */
  lemma LipoArchiveCase(fileName: string)
    requires IsArchiveFile(fileName)
    ensures var archive := FrameworkArchive(FrameworkName(fileName));
      |archive| == |fileName| && archive[0] == 'L' && fileName[0] == 'l' && archive[1..] == fileName[1..]
  {
    ArchiveFromFrameworkName(fileName);
    var stem := FrameworkName(fileName)[3..];
    assert FrameworkName(fileName) == "Lib" + stem;
    assert FrameworkArchive(FrameworkName(fileName)) == "Lib" + stem + ".a";
    assert ("Lib" + stem + ".a")[1..] == "ib" + stem + ".a";
    assert ("lib" + stem + ".a")[1..] == "ib" + stem + ".a";
  }

  /** `createFramework`'s output directory `<cwd>/<library>/<platform>/<framework>.framework`. */
  function FrameworkDir(l: Library, cwd: Path, p: Platform, framework: string): Path {
    cwd + [Raw(l), PlatformRaw(p), framework + ".framework"]
  }

  /** Where the XCFramework goes: `<cwd>/../Sources/<framework>.xcframework`. */
  function XCFrameworkOutput(cwd: Path, framework: string): Path {
    cwd + ["../Sources", framework + ".xcframework"]
  }

  /**
   * `createXCFramework`'s `xcodebuild` arguments for one framework: one
   * `-framework <dir>` pair per active platform, in order, then the output.
   */
  method XCFrameworkArguments(l: Library, cwd: Path, platforms: seq<Platform>, framework: string)
    returns (arguments: seq<string>)
    ensures |arguments| == 2 * |platforms| + 3
    ensures arguments[0] == "-create-xcframework"
    ensures forall k :: 0 <= k < |platforms| ==>
      arguments[2 * k + 1] == "-framework" && arguments[2 * k + 2] == PathString(FrameworkDir(l, cwd, platforms[k], framework))
    ensures arguments[|arguments| - 2] == "-output"
    ensures arguments[|arguments| - 1] == PathString(XCFrameworkOutput(cwd, framework))
  {
    arguments := ["-create-xcframework"];
    var i := 0;
    while i < |platforms|
      invariant 0 <= i <= |platforms|
      invariant |arguments| == 2 * i + 1 && arguments[0] == "-create-xcframework"
      invariant forall k :: 0 <= k < i ==>
        arguments[2 * k + 1] == "-framework" && arguments[2 * k + 2] == PathString(FrameworkDir(l, cwd, platforms[k], framework))
    {
      arguments := arguments + ["-framework"];
      arguments := arguments + [PathString(cwd + [Raw(l), PlatformRaw(platforms[i]), framework + ".framework"])];
      i := i + 1;
    }
    arguments := arguments + ["-output"];
    var xcFrameworkFile := cwd + ["../Sources", framework + ".xcframework"];
    arguments := arguments + [PathString(xcFrameworkFile)];
  }

  /**
   * `createFramework`'s `lipo` arguments: one `<thinDir>/lib/<framework>.a`
   * input per architecture of the platform, in order, then the output binary
   * inside the framework directory.
   */
  method LipoArguments(l: Library, cwd: Path, p: Platform, host: HostArch, framework: string)
    returns (arguments: seq<string>)
    ensures |arguments| == |Architectures(p, host)| + 3
    ensures arguments[0] == "-create"
    ensures forall k :: 0 <= k < |Architectures(p, host)| ==>
      arguments[k + 1] == PathString(ThinDir(l, cwd, p, Architectures(p, host)[k]) + ["lib", FrameworkArchive(framework)])
    ensures arguments[|arguments| - 2] == "-output"
    ensures arguments[|arguments| - 1] == PathString(FrameworkDir(l, cwd, p, framework) + [framework])
  {
    var archs := Architectures(p, host);
    var frameworkDir := cwd + [Raw(l), PlatformRaw(p), framework + ".framework"];
    arguments := ["-create"];
    var i := 0;
    while i < |archs|
      invariant 0 <= i <= |archs|
      invariant |arguments| == i + 1 && arguments[0] == "-create"
      invariant forall k :: 0 <= k < i ==>
        arguments[k + 1] == PathString(ThinDir(l, cwd, p, archs[k]) + ["lib", FrameworkArchive(framework)])
    {
      var prefix := ThinDir(l, cwd, p, archs[i]);
      arguments := arguments + [PathString(prefix + ["lib", framework + ".a"])];
      i := i + 1;
    }
    arguments := arguments + ["-output"];
    arguments := arguments + [PathString(frameworkDir + [framework])];
  }

  /**
   * The header directory copied into the framework: `include/<framework>`
   * under the thin directory when it exists, else `include` itself.
   */
  function HeaderSource(l: Library, cwd: Path, p: Platform, a: Arch, framework: string, existing: set<Path>): (r: Path)
    ensures r == ThinDir(l, cwd, p, a) + ["include", framework] <==> ThinDir(l, cwd, p, a) + ["include", framework] in existing
    ensures r != ThinDir(l, cwd, p, a) + ["include", framework] ==> r == ThinDir(l, cwd, p, a) + ["include"]
  {
    var prefix := ThinDir(l, cwd, p, a);
    var headerUrl := prefix + ["include"] + [framework];
    assert headerUrl == prefix + ["include", framework];
    if headerUrl in existing then headerUrl
    else assert |prefix + ["include"]| < |headerUrl|; prefix + ["include"]
  }

  /**
   * `frameworkExcludeHeaders`: the headers the module map leaves out. Only the
   * FFmpeg builder excludes any, and only for avcodec, avutil and avformat.
   */
  function FrameworkExcludeHeaders(l: Library, framework: string): (r: seq<string>)
    ensures r != [] ==> l == FFmpeg && framework in {"Libavcodec", "Libavutil", "Libavformat"}
    ensures l == FFmpeg && framework in {"Libavcodec", "Libavutil", "Libavformat"} ==> r != []
  {
    if l != FFmpeg then []
    else if framework == "Libavcodec" then ["xvmc", "vdpau", "qsv", "dxva2", "d3d11va", "mathops"]
    else if framework == "Libavutil" then
      ["hwcontext_vulkan", "hwcontext_vdpau", "hwcontext_vaapi", "hwcontext_qsv", "hwcontext_opencl",
       "hwcontext_dxva2", "hwcontext_d3d11va", "hwcontext_cuda", "getenv_utf8", "intmath", "libm",
       "thread", "mem_internal", "internal"]
    else if framework == "Libavformat" then ["os_support"]
    else []
  }

  /** No excluded header name holds a newline, so each exclude line stays one line. */
  lemma ExcludeHeadersOneLine(l: Library, framework: string)
    ensures forall k :: 0 <= k < |FrameworkExcludeHeaders(l, framework)| ==> NoNewline(FrameworkExcludeHeaders(l, framework)[k])
  {
    var r := FrameworkExcludeHeaders(l, framework);
    forall k | 0 <= k < |r|
      ensures NoNewline(r[k])
    {
    }
  }

  /** The first line of a module map. */
  function ModuleHeaderLine(framework: string): string {
    "framework module " + framework + " [system] {"
  }

  const UmbrellaLine: string := "    umbrella \".\""
  const ExportLine: string := "    export *"

  /** The line that keeps one header out of the module. */
  function ExcludeHeaderLine(header: string): string {
    "    exclude header \"" + header + ".h\""
  }

  /** The exclude lines without terminators. */
  function ExcludeHeaderLines(headers: seq<string>): (r: seq<string>)
    ensures |r| == |headers|
    ensures forall k :: 0 <= k < |headers| ==> r[k] == ExcludeHeaderLine(headers[k])
  {
    if headers == [] then [] else [ExcludeHeaderLine(headers[0])] + ExcludeHeaderLines(headers[1..])
  }

  /** The exclude lines, newline-terminated, in order. */
  function ExcludeBlock(headers: seq<string>): string {
    Terminated(ExcludeHeaderLines(headers))
  }

  /** `Modules/module.modulemap`: the umbrella module, its exclude lines and `export *`. */
  function ModuleMapOf(framework: string, headers: seq<string>): string {
    ModuleHeaderLine(framework) + "\n" + UmbrellaLine + "\n" + ExcludeBlock(headers) + ExportLine + "\n" + "}"
  }

  /** The lines a module map is made of. */
  function ModuleMapLines(framework: string, headers: seq<string>): seq<string> {
    [ModuleHeaderLine(framework), UmbrellaLine] + ExcludeHeaderLines(headers) + [ExportLine, "}"]
  }

  lemma ExcludeBlockSnoc(headers: seq<string>, h: string)
    ensures ExcludeBlock(headers + [h]) == ExcludeBlock(headers) + ExcludeHeaderLine(h) + "\n"
  {
    var lines := ExcludeHeaderLines(headers);
    assert ExcludeHeaderLines(headers + [h]) == lines + [ExcludeHeaderLine(h)];
    TerminatedSnoc(lines, ExcludeHeaderLine(h));
  }

  /** `createFramework`'s module map text, grown one exclude line per header. */
  method ModuleMap(framework: string, headers: seq<string>) returns (modulemap: string)
    ensures modulemap == ModuleMapOf(framework, headers)
  {
    var head := "framework module " + framework + " [system] {\n    umbrella \".\"\n";
    ModuleMapLiterals(framework);
    modulemap := head;
    var i := 0;
    while i < |headers|
      invariant 0 <= i <= |headers|
      invariant modulemap == head + ExcludeBlock(headers[..i])
    {
      var header := headers[i];
      var line := "    exclude header \"" + header + ".h\"\n";
      ExcludeLineLiteral(header);
      assert headers[..i + 1] == headers[..i] + [header];
      ExcludeBlockSnoc(headers[..i], header);
      Associative(head, ExcludeBlock(headers[..i]), line);
      Associative(ExcludeBlock(headers[..i]), ExcludeHeaderLine(header), "\n");
      modulemap := modulemap + line;
      i := i + 1;
    }
    assert headers[..i] == headers;
    modulemap := modulemap + "    export *\n}";
    Associative(ModuleHeaderLine(framework) + "\n" + UmbrellaLine + "\n" + ExcludeBlock(headers), ExportLine + "\n", "}");
    Associative(ModuleHeaderLine(framework) + "\n" + UmbrellaLine + "\n" + ExcludeBlock(headers), ExportLine, "\n");
  }

  /** The literals `createFramework` writes are the module map's first lines and its last two. */
  lemma ModuleMapLiterals(framework: string)
    ensures "framework module " + framework + " [system] {\n    umbrella \".\"\n"
         == ModuleHeaderLine(framework) + "\n" + UmbrellaLine + "\n"
    ensures "    export *\n}" == ExportLine + "\n" + "}"
  {
  }

  /** The literal `createFramework` writes per header is its exclude line and a newline. */
  lemma ExcludeLineLiteral(header: string)
    ensures "    exclude header \"" + header + ".h\"\n" == ExcludeHeaderLine(header) + "\n"
  {
  }

  /** The module map is its lines joined by newlines. */
  lemma ModuleMapIsUnlines(framework: string, headers: seq<string>)
    ensures ModuleMapOf(framework, headers) == Unlines(ModuleMapLines(framework, headers))
  {
    FramedUnlines(ModuleHeaderLine(framework), UmbrellaLine, ExcludeHeaderLines(headers), ExportLine, "}");
  }

  /** No line of a module map holds a newline of its own. */
  lemma ModuleMapLinesNoNewline(framework: string, headers: seq<string>)
    requires NoNewline(framework)
    requires forall k :: 0 <= k < |headers| ==> NoNewline(headers[k])
    ensures forall k :: 0 <= k < |ModuleMapLines(framework, headers)| ==> NoNewline(ModuleMapLines(framework, headers)[k])
  {
    var lines := ModuleMapLines(framework, headers);
    var excludes := ExcludeHeaderLines(headers);
    HeaderLineNoNewline(framework);
    forall k | 0 <= k < |lines|
      ensures NoNewline(lines[k])
    {
      if 2 <= k < 2 + |excludes| {
        assert lines[k] == excludes[k - 2];
        ExcludeLineNoNewline(headers[k - 2]);
      }
    }
  }

  lemma HeaderLineNoNewline(framework: string)
    requires NoNewline(framework)
    ensures NoNewline(ModuleHeaderLine(framework))
  {
  }

  lemma ExcludeLineNoNewline(header: string)
    requires NoNewline(header)
    ensures NoNewline(ExcludeHeaderLine(header))
  {
  }

  /**
   * Reading a module map back line by line gives exactly its header line, the
   * umbrella line, one `exclude header "<h>.h"` line per excluded header in
   * order, then `export *` and the closing brace.
   */
  lemma ModuleMapReadsBack(framework: string, headers: seq<string>)
    requires NoNewline(framework)
    requires forall k :: 0 <= k < |headers| ==> NoNewline(headers[k])
    ensures Lines(ModuleMapOf(framework, headers)) == ModuleMapLines(framework, headers)
  {
    ModuleMapIsUnlines(framework, headers);
    ModuleMapLinesNoNewline(framework, headers);
    LinesUnlines(ModuleMapLines(framework, headers));
  }

  /** The values `createPlist` writes into a framework's `Info.plist`. */
  datatype InfoPlist = InfoPlist(executable: string, identifier: string, name: string, minimumOSVersion: string, supportedPlatform: string)

  /** The plist of framework `framework` built for platform `p`. */
  function PlistOf(framework: string, p: Platform): (r: InfoPlist)
    ensures r.executable == framework && r.name == framework
    ensures HasPrefix(r.identifier, "com.kintan.ksplayer.") && r.identifier[|"com.kintan.ksplayer."|..] == framework
    ensures r.minimumOSVersion == MinVersion(p) && r.supportedPlatform == Sdk(p)
  {
    var identifier := "com.kintan.ksplayer." + framework;
    InfoPlist(framework, identifier, framework, MinVersion(p), Sdk(p))
  }
}
