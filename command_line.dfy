/**
 * The desktop entry point: the scan of the command-line arguments for
 * `--headless`, `--test` and `--help`, the messages printed for anything
 * else, and the settings chosen from the two flags.
 */
module CommandLine {
  import opened Strings
  import opened Logging

  /** The usage text printed for `--help` and after every unknown argument. */
  const Usage := "Usage : program [OPTION] \n" +
    "    launch Stereokit tests and demos\n" +
    "    \n" +
    "        --test              : test mode\n" +
    "        --headless          : no display at all for --test\n" +
    "        --help              : help"

  /** The flags the scan sets. */
  datatype Flags = Flags(headless: bool, isTesting: bool)

  /** The arguments that only set a flag. */
  predicate IsFlag(arg: string)
  {
    arg == "--headless" || arg == "--test"
  }

  /** What one argument prints, one element per `println!`. */
  function ArgOutput(arg: string): (r: seq<string>)
    ensures r == [] <==> IsFlag(arg)
    ensures arg == "--help" ==> r == [Usage]
    ensures arg !in {"--headless", "--test", "--help"} ==>
              |r| == 2 && r[1] == Usage &&
              r[0] == (if StartsWith(arg, "-") then "Unkown argument " else "Unkown positional argument ") + arg
  {
    if arg == "--headless" || arg == "--test" then []
    else if arg == "--help" then [Usage]
    else if StartsWith(arg, "-") then ["Unkown argument " + arg, Usage]
    else ["Unkown positional argument " + arg, Usage]
  }

  /** Everything the scan of `args` prints, in order. */
  function Output(args: seq<string>): seq<string>
  {
    if args == [] then [] else Output(args[..|args| - 1]) + ArgOutput(args[|args| - 1])
  }

  /** The flags after scanning `args`, one argument at a time. */
  function Scan(args: seq<string>): Flags
  {
    if args == [] then Flags(false, false)
    else
      var f := Scan(args[..|args| - 1]);
      var arg := args[|args| - 1];
      if arg == "--headless" then f.(headless := true)
      else if arg == "--test" then f.(isTesting := true)
      else f
  }

  /** A flag is set iff some argument names it. */
  lemma {:induction false} ScanFlags(args: seq<string>)
    ensures Scan(args).headless <==> "--headless" in args
    ensures Scan(args).isTesting <==> "--test" in args
  {
    if args != [] {
      var init := args[..|args| - 1];
      ScanFlags(init);
      assert args == init + [args[|args| - 1]];
    }
  }

  /** Order and repetition of the arguments do not matter to the flags. */
  lemma ScanDependsOnlyOnMembers(a: seq<string>, b: seq<string>)
    requires forall x :: x in a <==> x in b
    ensures Scan(a) == Scan(b)
  {
    ScanFlags(a);
    ScanFlags(b);
  }

  /** The output of a list of arguments is the output of its parts in order. */
  lemma {:induction false} OutputAppend(a: seq<string>, b: seq<string>)
    ensures Output(a + b) == Output(a) + Output(b)
    decreases |b|
  {
    if b != [] {
      var c := b[..|b| - 1];
      assert (a + b)[..|a + b| - 1] == a + c;
      assert (a + b)[|a + b| - 1] == b[|b| - 1];
      OutputAppend(a, c);
    } else {
      assert a + b == a;
    }
  }

  /** Nothing is printed iff every argument is `--headless` or `--test`. */
  lemma {:induction false} QuietArguments(args: seq<string>)
    ensures Output(args) == [] <==> forall i :: 0 <= i < |args| ==> IsFlag(args[i])
  {
    if args != [] {
      var init := args[..|args| - 1];
      var last := args[|args| - 1];
      QuietArguments(init);
      assert |Output(args)| == |Output(init)| + |ArgOutput(last)|;
      if Output(args) == [] {
        forall i | 0 <= i < |args|
          ensures IsFlag(args[i])
        {
          if i < |init| {
            assert args[i] == init[i];
          }
        }
      } else if ArgOutput(last) == [] {
        var j :| 0 <= j < |init| && !IsFlag(init[j]);
        assert args[j] == init[j];
      }
    }
  }

  /**
   * The argument loop of `main`: sets the two flags and collects what it
   * prints; parsing never stops early.
   */
  method ParseArgs(args: seq<string>) returns (headless: bool, isTesting: bool, output: seq<string>)
    ensures Flags(headless, isTesting) == Scan(args)
    ensures headless <==> "--headless" in args
    ensures isTesting <==> "--test" in args
    ensures output == Output(args)
  {
    headless := false;
    isTesting := false;
    output := [];
    for i := 0 to |args|
      invariant Flags(headless, isTesting) == Scan(args[..i])
      invariant output == Output(args[..i])
    {
      var arg := args[i];
      assert args[..i + 1][..i] == args[..i];
      assert Output(args[..i + 1]) == output + ArgOutput(arg);
      if arg == "--headless" {
        headless := true;
      } else if arg == "--test" {
        isTesting := true;
      } else if arg == "--help" {
        output := output + [Usage];
      } else {
        if StartsWith(arg, "-") {
          output := output + ["Unkown argument " + arg];
        } else {
          output := output + ["Unkown positional argument " + arg];
        }
        output := output + [Usage];
      }
    }
    assert args[..|args|] == args;
    ScanFlags(args);
  }

  // ---------------------------------------------------------------------
  // Settings
  // ---------------------------------------------------------------------

  datatype AppMode = None | XR | Simulator | Window | Offscreen
  datatype OriginMode = Local | Floor | Stage

  /** The settings `main` touches, with the rest of the runtime's settings left out. */
  datatype Settings = Settings(
    appName: string,
    assetsFolder: string,
    origin: OriginMode,
    logFilter: LogLevel,
    noFlatscreenFallback: bool,
    mode: AppMode,
    disableUnfocusedSleep: bool)

  /**
   * The settings `main` builds from the runtime's defaults `base`: fixed
   * name, assets, origin, log filter and no flat-screen fallback; in test mode
   * the off-screen mode when headless and the simulator otherwise, with
   * unfocused sleep disabled. Without `--test` mode and sleep stay as in
   * `base`.
   */
  function Configure(base: Settings, flags: Flags): (r: Settings)
    ensures r.appName == "rust_gstreamer" && r.assetsFolder == "assets"
    ensures r.origin == Stage && r.logFilter == Diagnostic && r.noFlatscreenFallback
    ensures flags.isTesting ==> (r.mode == Offscreen <==> flags.headless)
    ensures flags.isTesting ==> (r.mode == Simulator <==> !flags.headless)
    ensures flags.isTesting ==> r.disableUnfocusedSleep
    ensures !flags.isTesting ==> r.mode == base.mode && r.disableUnfocusedSleep == base.disableUnfocusedSleep
  {
    var fixed := base.(appName := "rust_gstreamer", assetsFolder := "assets", origin := Stage,
                       logFilter := Diagnostic, noFlatscreenFallback := true);
    if flags.isTesting then
      fixed.(mode := if flags.headless then Offscreen else Simulator, disableUnfocusedSleep := true)
    else
      fixed
  }

  /** From the command line to the mode. */
  lemma ModeOfArguments(base: Settings, args: seq<string>)
    ensures var mode := Configure(base, Scan(args)).mode;
      ("--test" in args ==> (mode == Offscreen <==> "--headless" in args) && (mode == Simulator <==> "--headless" !in args)) &&
      ("--test" !in args ==> mode == base.mode)
  {
    ScanFlags(args);
  }
}
