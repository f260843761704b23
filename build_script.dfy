/** The build script: on macOS it prints one `cargo:rustc-link-arg` line per directory
    that should be on the binary's run-time search path for the Swift libraries. The two
    `xcrun` queries are inputs: `Some(stdout)` when the command ran and exited with
    success, `None` otherwise. The model returns the printed lines in order. */
module BuildScript {
  import opened RustStd

  const LINK_ARG_PREFIX: string := "cargo:rustc-link-arg=-Wl,-rpath,"
  const TOOLCHAINS: string := "Toolchains"
  const USR_BIN: string := "/usr/bin"
  const SWIFT_LIB_SUFFIX: string := "/lib/swift/macosx"

  const FALLBACK_PATHS: seq<string> := [
    "/Library/Developer/CommandLineTools/usr/lib/swift/macosx",
    "/usr/local/lib/swift"
  ]

  const BUNDLE_PATHS: seq<string> := ["@executable_path/../lib", "@executable_path"]

  /** One printed line: the linker argument that adds `path` to the run-time search path. */
  function RpathLine(path: string): string {
    LINK_ARG_PREFIX + path
  }

  /** The lines of a `for path in paths { println!(...) }` loop. */
  function RpathLines(paths: seq<string>): (lines: seq<string>)
    ensures |lines| == |paths|
    ensures forall k :: 0 <= k < |paths| ==> lines[k] == RpathLine(paths[k])
  {
    if paths == [] then [] else [RpathLine(paths[0])] + RpathLines(paths[1..])
  }

  /** Every line of `lines` is a run-time search path argument. */
  predicate AllRpathArgs(lines: seq<string>) {
    forall k :: 0 <= k < |lines| ==>
      |lines[k]| >= |LINK_ARG_PREFIX| && lines[k][..|LINK_ARG_PREFIX|] == LINK_ARG_PREFIX
  }

  lemma RpathLinesAreRpathArgs(paths: seq<string>)
    ensures AllRpathArgs(RpathLines(paths))
  {
    var lines := RpathLines(paths);
    forall k | 0 <= k < |lines|
      ensures |lines[k]| >= |LINK_ARG_PREFIX| && lines[k][..|LINK_ARG_PREFIX|] == LINK_ARG_PREFIX
    {
      assert lines[k] == LINK_ARG_PREFIX + paths[k];
    }
  }

  lemma AllRpathArgsConcat(a: seq<string>, b: seq<string>)
    requires AllRpathArgs(a) && AllRpathArgs(b)
    ensures AllRpathArgs(a + b)
  {
    forall k | 0 <= k < |a + b|
      ensures |(a + b)[k]| >= |LINK_ARG_PREFIX| && (a + b)[k][..|LINK_ARG_PREFIX|] == LINK_ARG_PREFIX
    {
      if k < |a| { assert (a + b)[k] == a[k]; } else { assert (a + b)[k] == b[k - |a|]; }
    }
  }

  /** The library directory of the toolchain that holds the `swift` binary at `swiftPath`:
      the path up to and including the `/usr` of the first `/usr/bin` found at or after
      the first `Toolchains`, followed by `/lib/swift/macosx`. */
  function ToolchainLib(swiftPath: string): (r: Option<string>)
    ensures r.Some? ==> Find(swiftPath, TOOLCHAINS).Some?
    ensures r.Some? ==> |r.value| >= |SWIFT_LIB_SUFFIX| && r.value[|r.value| - |SWIFT_LIB_SUFFIX|..] == SWIFT_LIB_SUFFIX
  {
    match Find(swiftPath, TOOLCHAINS)
    case None => None
    case Some(t) =>
      match Find(swiftPath[t..], USR_BIN)
      case None => None
      case Some(u) =>
        var lib := swiftPath[..t + u + 4] + SWIFT_LIB_SUFFIX;
        assert lib[|lib| - |SWIFT_LIB_SUFFIX|..] == SWIFT_LIB_SUFFIX;
        Some(lib)
  }

  /** The two lines printed when `xcrun --show-sdk-path` succeeds with output `out`. */
  function SdkLines(sdkQuery: Option<string>): (lines: seq<string>)
    ensures |lines| == if sdkQuery.Some? then 2 else 0
    ensures AllRpathArgs(lines)
  {
    match sdkQuery
    case None => []
    case Some(out) =>
      RpathLinesAreRpathArgs([Trim(out) + "/usr/lib/swift", "/usr/lib/swift"]);
      RpathLines([Trim(out) + "/usr/lib/swift", "/usr/lib/swift"])
  }

  /** The line printed when `xcrun --find swift` succeeds and a toolchain path can be derived. */
  function ToolchainLines(swiftQuery: Option<string>): (lines: seq<string>)
    ensures |lines| == if swiftQuery.Some? && ToolchainLib(Trim(swiftQuery.value)).Some? then 1 else 0
    ensures AllRpathArgs(lines)
  {
    match swiftQuery
    case None => []
    case Some(out) =>
      match ToolchainLib(Trim(out))
      case None => []
      case Some(lib) =>
        RpathLinesAreRpathArgs([lib]);
        [RpathLine(lib)]
  }

  /** `add_swift_runtime_paths`: the SDK lines, the toolchain line, then the four fixed lines;
      every one of them a run-time search path argument. */
  function SwiftRuntimeLines(sdkQuery: Option<string>, swiftQuery: Option<string>): (lines: seq<string>)
    ensures |lines| == |SdkLines(sdkQuery)| + |ToolchainLines(swiftQuery)| + 4
    ensures AllRpathArgs(lines)
  {
    var a, b := SdkLines(sdkQuery), ToolchainLines(swiftQuery);
    var c, d := RpathLines(FALLBACK_PATHS), RpathLines(BUNDLE_PATHS);
    RpathLinesAreRpathArgs(FALLBACK_PATHS);
    RpathLinesAreRpathArgs(BUNDLE_PATHS);
    AllRpathArgsConcat(a, b);
    AllRpathArgsConcat(a + b, c);
    AllRpathArgsConcat(a + b + c, d);
    a + b + c + d
  }

  /** `main`: the script prints nothing except on macOS, and every line it prints is a
      run-time search path argument. */
  function BuildLines(targetIsMacos: bool, sdkQuery: Option<string>, swiftQuery: Option<string>): (lines: seq<string>)
    ensures !targetIsMacos ==> lines == []
    ensures targetIsMacos ==> |lines| >= 4
    ensures targetIsMacos ==> lines == SwiftRuntimeLines(sdkQuery, swiftQuery)
    ensures AllRpathArgs(lines)
  {
    if targetIsMacos then SwiftRuntimeLines(sdkQuery, swiftQuery) else []
  }

  /** The toolchain path is derived exactly when `Toolchains` occurs and `/usr/bin` occurs at
      or after its first occurrence. */
  lemma ToolchainLibDefined(p: string)
    ensures ToolchainLib(p).Some? <==>
              Find(p, TOOLCHAINS).Some? && exists u: nat :: Find(p, TOOLCHAINS).value <= u && OccursAt(p, USR_BIN, u)
  {
    if Find(p, TOOLCHAINS).Some? {
      FindInSuffix(p, USR_BIN, Find(p, TOOLCHAINS).value);
    }
  }

  /** The derived path is the prefix of `p` through the `/usr` of the first `/usr/bin` at or
      after the first `Toolchains`, followed by `/lib/swift/macosx`. */
  lemma ToolchainLibValue(p: string)
    requires ToolchainLib(p).Some?
    ensures var t := Find(p, TOOLCHAINS).value;
            exists u: nat ::
              && t <= u && OccursAt(p, USR_BIN, u)
              && (forall w :: t <= w < u ==> !OccursAt(p, USR_BIN, w))
              && ToolchainLib(p).value == p[..u + 4] + SWIFT_LIB_SUFFIX
  {
    var t := Find(p, TOOLCHAINS).value;
    FindInSuffix(p, USR_BIN, t);
    var u := t + Find(p[t..], USR_BIN).value;
    assert ToolchainLib(p).value == p[..u + 4] + SWIFT_LIB_SUFFIX;
  }

  /** Cutting a path just after the `/usr` of a `/usr/bin` and appending `/lib/swift/macosx`
      gives a path that ends in `/usr/lib/swift/macosx`. */
  lemma CutAtUsrBin(p: string, u: nat)
    requires OccursAt(p, USR_BIN, u)
    ensures var lib := p[..u + 4] + SWIFT_LIB_SUFFIX;
            |lib| >= 21 && lib[|lib| - 21..] == "/usr" + SWIFT_LIB_SUFFIX
  {
    var lib := p[..u + 4] + SWIFT_LIB_SUFFIX;
    assert p[u..u + 4] == USR_BIN[..4];
    assert lib[|lib| - 21..] == p[u..u + 4] + SWIFT_LIB_SUFFIX;
  }

  /** So the derived toolchain path always ends in `/usr/lib/swift/macosx`. */
  lemma ToolchainLibSuffix(p: string)
    requires ToolchainLib(p).Some?
    ensures var lib := ToolchainLib(p).value;
            |lib| >= 21 && lib[|lib| - 21..] == "/usr/lib/swift/macosx"
  {
    ToolchainLibValue(p);
    var u: nat :| OccursAt(p, USR_BIN, u) && ToolchainLib(p).value == p[..u + 4] + SWIFT_LIB_SUFFIX;
    CutAtUsrBin(p, u);
    UsrLibSuffix();
  }

  lemma UsrLibSuffix()
    ensures "/usr" + SWIFT_LIB_SUFFIX == "/usr/lib/swift/macosx"
  {
  }

  /** The order of the printed lines on macOS: the two SDK-relative lines when the SDK query
      succeeds (SDK path first), then the toolchain line when it can be derived, then always
      the two fallback paths and the two bundle-relative paths, whatever `xcrun` returned. */
  lemma SwiftRuntimeLinesOrder(sdkQuery: Option<string>, swiftQuery: Option<string>)
    ensures var lines := SwiftRuntimeLines(sdkQuery, swiftQuery);
            var sdk := if sdkQuery.Some? then 2 else 0;
            var toolchain := if swiftQuery.Some? && ToolchainLib(Trim(swiftQuery.value)).Some? then 1 else 0;
            && |lines| == sdk + toolchain + 4
            && (sdkQuery.Some? ==>
                  lines[0] == RpathLine(Trim(sdkQuery.value) + "/usr/lib/swift")
                  && lines[1] == RpathLine("/usr/lib/swift"))
            && (toolchain == 1 ==> lines[sdk] == RpathLine(ToolchainLib(Trim(swiftQuery.value)).value))
            && lines[|lines| - 4..] == [
                 RpathLine("/Library/Developer/CommandLineTools/usr/lib/swift/macosx"),
                 RpathLine("/usr/local/lib/swift"),
                 RpathLine("@executable_path/../lib"),
                 RpathLine("@executable_path")]
  {
    FixedTail();
    SdkLinesShape(sdkQuery);
    ToolchainLinesShape(swiftQuery);
    PartsIndex(SdkLines(sdkQuery), ToolchainLines(swiftQuery), RpathLines(FALLBACK_PATHS), RpathLines(BUNDLE_PATHS));
  }

  /** The four lines printed whatever `xcrun` returned. */
  lemma FixedTail()
    ensures RpathLines(FALLBACK_PATHS) + RpathLines(BUNDLE_PATHS) == [
              RpathLine("/Library/Developer/CommandLineTools/usr/lib/swift/macosx"),
              RpathLine("/usr/local/lib/swift"),
              RpathLine("@executable_path/../lib"),
              RpathLine("@executable_path")]
  {
  }

  lemma SdkLinesShape(sdkQuery: Option<string>)
    ensures |SdkLines(sdkQuery)| == if sdkQuery.Some? then 2 else 0
    ensures sdkQuery.Some? ==>
              SdkLines(sdkQuery)[0] == RpathLine(Trim(sdkQuery.value) + "/usr/lib/swift")
              && SdkLines(sdkQuery)[1] == RpathLine("/usr/lib/swift")
  {
  }

  lemma ToolchainLinesShape(swiftQuery: Option<string>)
    ensures var toolchain := swiftQuery.Some? && ToolchainLib(Trim(swiftQuery.value)).Some?;
            && |ToolchainLines(swiftQuery)| == (if toolchain then 1 else 0)
            && (toolchain ==> ToolchainLines(swiftQuery)[0] == RpathLine(ToolchainLib(Trim(swiftQuery.value)).value))
  {
  }

  /** Indexing into the concatenation of the four groups of printed lines. */
  lemma PartsIndex(a: seq<string>, b: seq<string>, c: seq<string>, d: seq<string>)
    ensures var all := a + b + c + d;
            && |all| == |a| + |b| + |c| + |d|
            && (forall k :: 0 <= k < |a| ==> all[k] == a[k])
            && (|b| > 0 ==> all[|a|] == b[0])
            && all[|all| - |c| - |d|..] == c + d
  {
    var all := a + b + c + d;
    assert all[|all| - |c| - |d|..] == c + d;
  }
}
