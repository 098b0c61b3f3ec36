/** The command-line validator at the top of `main`: `getArgType` and the
    loop over `argv` that fills the OpenGL context settings, the vsync and
    double-precision flags and the starting iteration count, or rejects the
    command line (the program then returns -1).

    `stoi` is a parameter `parseInt`; the exception it throws on text that
    is not a number is not modelled. */
module CommandLine {

  datatype ArgType = NoDepth | Aa | Vsync | UseDouble | MaxIters | Unknown

  /** The flag text each recognised argument kind answers to. */
  function FlagText(t: ArgType): string
    requires t != Unknown
  {
    match t
    case NoDepth => "--no-depth"
    case Aa => "--aa"
    case Vsync => "--vsync"
    case UseDouble => "--use-double"
    case MaxIters => "--max-iters"
  }

  /** `getArgType`: a chain of exact string comparisons. */
  function GetArgType(arg: string): (t: ArgType)
    ensures t != Unknown ==> FlagText(t) == arg
    ensures t == Unknown <==> forall k: ArgType :: k != Unknown ==> FlagText(k) != arg
  {
    if arg == "--no-depth" then NoDepth
    else if arg == "--aa" then Aa
    else if arg == "--vsync" then Vsync
    else if arg == "--use-double" then UseDouble
    else if arg == "--max-iters" then MaxIters
    else Unknown
  }

  /** Each recognised flag's text is classified as that flag. */
  lemma FlagTextRoundTrip(t: ArgType)
    requires t != Unknown
    ensures GetArgType(FlagText(t)) == t
  {
  }

  /** What the command line decides: the context settings the program
      changes (depth, stencil, anti-aliasing), the vsync and
      double-precision flags and `params.maxIterations`. The context version
      (4.1, core profile) is fixed and not part of it. */
  datatype Settings = Settings(
    depthBits: int,
    stencilBits: int,
    antiAliasingLevel: int,
    useVsync: bool,
    useDouble: bool,
    maxIterations: int)

  const Defaults: Settings := Settings(24, 8, 4, true, false, 100)

  const MaxAntiAliasing: int := 16
  const MaxIterationsLimit: int := 1000

  /** The reasons the program prints before returning -1. */
  datatype ArgError =
    | UnknownArgument(arg: string)
    | MissingValue(flag: ArgType)
    | AntiAliasingOutOfRange(value: int)
    | InvalidVsync(text: string)
    | MaxIterationsOutOfRange(value: int)

  datatype ParseResult = Ok(settings: Settings) | Err(error: ArgError)

  /** The arguments `args` processed from the front, starting from `s`. */
  function Parse(args: seq<string>, s: Settings, parseInt: string -> int): ParseResult
    decreases |args|
  {
    if args == [] then Ok(s)
    else
      match GetArgType(args[0])
      case NoDepth => Parse(args[1..], s.(depthBits := 0, stencilBits := 0), parseInt)
      case Aa =>
        if |args| < 2 then Err(MissingValue(Aa))
        else
          var value := parseInt(args[1]);
          if value < 0 || value > MaxAntiAliasing then Err(AntiAliasingOutOfRange(value))
          else Parse(args[2..], s.(antiAliasingLevel := value), parseInt)
      case Vsync =>
        if |args| < 2 then Err(MissingValue(Vsync))
        else if args[1] == "true" then Parse(args[2..], s.(useVsync := true), parseInt)
        else if args[1] == "false" then Parse(args[2..], s.(useVsync := false), parseInt)
        else Err(InvalidVsync(args[1]))
      case MaxIters =>
        if |args| < 2 then Err(MissingValue(MaxIters))
        else
          var value := parseInt(args[1]);
          if value < 0 || value > MaxIterationsLimit then Err(MaxIterationsOutOfRange(value))
          else Parse(args[2..], s.(maxIterations := value), parseInt)
      case UseDouble => Parse(args[1..], s.(useDouble := true), parseInt)
      case Unknown => Err(UnknownArgument(args[0]))
  }

  /** The whole `argv`, program name first. */
  function ParseCommandLine(argv: seq<string>, parseInt: string -> int): ParseResult {
    if |argv| <= 1 then Ok(Defaults) else Parse(argv[1..], Defaults, parseInt)
  }

  /** The loop over `argv`: `i` walks the arguments and steps over the value
      a flag consumes. */
  method ParseArgs(argv: seq<string>, parseInt: string -> int) returns (r: ParseResult)
    ensures r == ParseCommandLine(argv, parseInt)
  {
    var settings := Defaults;
    if |argv| > 1 {
      var i := 1;
      while i < |argv|
        invariant 1 <= i <= |argv|
        invariant Parse(argv[i..], settings, parseInt) == ParseCommandLine(argv, parseInt)
      {
        assert argv[i..][1..] == argv[i + 1..];
        match GetArgType(argv[i]) {
          case NoDepth =>
            settings := settings.(depthBits := 0, stencilBits := 0);
          case Aa =>
            if i + 1 >= |argv| {
              return Err(MissingValue(Aa));
            }
            assert argv[i..][2..] == argv[i + 2..];
            i := i + 1;
            var value := parseInt(argv[i]);
            if value < 0 || value > MaxAntiAliasing {
              return Err(AntiAliasingOutOfRange(value));
            }
            settings := settings.(antiAliasingLevel := value);
          case Vsync =>
            if i + 1 >= |argv| {
              return Err(MissingValue(Vsync));
            }
            assert argv[i..][2..] == argv[i + 2..];
            i := i + 1;
            var value := argv[i];
            if value == "true" {
              settings := settings.(useVsync := true);
            } else if value == "false" {
              settings := settings.(useVsync := false);
            } else {
              return Err(InvalidVsync(value));
            }
          case MaxIters =>
            if i + 1 >= |argv| {
              return Err(MissingValue(MaxIters));
            }
            assert argv[i..][2..] == argv[i + 2..];
            i := i + 1;
            var value := parseInt(argv[i]);
            if value < 0 || value > MaxIterationsLimit {
              return Err(MaxIterationsOutOfRange(value));
            }
            settings := settings.(maxIterations := value);
          case UseDouble =>
            settings := settings.(useDouble := true);
          case Unknown =>
            return Err(UnknownArgument(argv[i]));
        }
        i := i + 1;
      }
    }
    return Ok(settings);
  }

  /** Every accepted command line yields settings inside the checked ranges,
      with depth and stencil either both at their defaults or both zero. */
  lemma {:induction false} ParseBounds(args: seq<string>, s: Settings, parseInt: string -> int)
    requires 0 <= s.antiAliasingLevel <= MaxAntiAliasing
    requires 0 <= s.maxIterations <= MaxIterationsLimit
    requires (s.depthBits, s.stencilBits) == (24, 8) || (s.depthBits, s.stencilBits) == (0, 0)
    ensures Parse(args, s, parseInt).Ok? ==>
      var t := Parse(args, s, parseInt).settings;
      0 <= t.antiAliasingLevel <= MaxAntiAliasing
      && 0 <= t.maxIterations <= MaxIterationsLimit
      && ((t.depthBits, t.stencilBits) == (24, 8) || (t.depthBits, t.stencilBits) == (0, 0))
    decreases |args|
  {
    if args != [] {
      match GetArgType(args[0])
      case NoDepth => ParseBounds(args[1..], s.(depthBits := 0, stencilBits := 0), parseInt);
      case Aa =>
        if |args| >= 2 && 0 <= parseInt(args[1]) <= MaxAntiAliasing {
          ParseBounds(args[2..], s.(antiAliasingLevel := parseInt(args[1])), parseInt);
        }
      case Vsync =>
        if |args| >= 2 {
          ParseBounds(args[2..], s.(useVsync := true), parseInt);
          ParseBounds(args[2..], s.(useVsync := false), parseInt);
        }
      case MaxIters =>
        if |args| >= 2 && 0 <= parseInt(args[1]) <= MaxIterationsLimit {
          ParseBounds(args[2..], s.(maxIterations := parseInt(args[1])), parseInt);
        }
      case UseDouble => ParseBounds(args[1..], s.(useDouble := true), parseInt);
      case Unknown =>
    }
  }

  lemma AcceptedCommandLineInRange(argv: seq<string>, parseInt: string -> int)
    ensures ParseCommandLine(argv, parseInt).Ok? ==>
      var t := ParseCommandLine(argv, parseInt).settings;
      0 <= t.antiAliasingLevel <= MaxAntiAliasing
      && 0 <= t.maxIterations <= MaxIterationsLimit
      && ((t.depthBits, t.stencilBits) == (24, 8) || (t.depthBits, t.stencilBits) == (0, 0))
  {
    if |argv| > 1 {
      ParseBounds(argv[1..], Defaults, parseInt);
    }
  }

  /** A prefix that is accepted on its own consumed all its flags' values, so
      the arguments after it are processed from the settings it produced. */
  lemma {:induction false} ParseAppend(a: seq<string>, b: seq<string>, s: Settings, parseInt: string -> int)
    requires Parse(a, s, parseInt).Ok?
    ensures Parse(a + b, s, parseInt) == Parse(b, Parse(a, s, parseInt).settings, parseInt)
    decreases |a|
  {
    if a == [] {
      assert a + b == b;
    } else {
      assert (a + b)[0] == a[0];
      assert (a + b)[1..] == a[1..] + b;
      match GetArgType(a[0])
      case NoDepth => ParseAppend(a[1..], b, s.(depthBits := 0, stencilBits := 0), parseInt);
      case Aa =>
        assert (a + b)[2..] == a[2..] + b;
        ParseAppend(a[2..], b, s.(antiAliasingLevel := parseInt(a[1])), parseInt);
      case Vsync =>
        assert (a + b)[2..] == a[2..] + b;
        ParseAppend(a[2..], b, s.(useVsync := a[1] == "true"), parseInt);
      case MaxIters =>
        assert (a + b)[2..] == a[2..] + b;
        ParseAppend(a[2..], b, s.(maxIterations := parseInt(a[1])), parseInt);
      case UseDouble => ParseAppend(a[1..], b, s.(useDouble := true), parseInt);
    }
  }

  /** After an accepted prefix, an unknown argument rejects the whole
      command line, whatever follows. */
  lemma UnknownArgumentRejected(a: seq<string>, x: string, rest: seq<string>, s: Settings, parseInt: string -> int)
    requires Parse(a, s, parseInt).Ok? && GetArgType(x) == Unknown
    ensures Parse(a + [x] + rest, s, parseInt) == Err(UnknownArgument(x))
  {
    assert a + [x] + rest == a + ([x] + rest);
    ParseAppend(a, [x] + rest, s, parseInt);
  }

  /** After an accepted prefix, a flag that takes a value but comes last
      rejects the command line. */
  lemma MissingValueRejected(a: seq<string>, s: Settings, parseInt: string -> int)
    requires Parse(a, s, parseInt).Ok?
    ensures Parse(a + ["--aa"], s, parseInt) == Err(MissingValue(Aa))
    ensures Parse(a + ["--vsync"], s, parseInt) == Err(MissingValue(Vsync))
    ensures Parse(a + ["--max-iters"], s, parseInt) == Err(MissingValue(MaxIters))
  {
    ParseAppend(a, ["--aa"], s, parseInt);
    ParseAppend(a, ["--vsync"], s, parseInt);
    ParseAppend(a, ["--max-iters"], s, parseInt);
  }

  /** After an accepted prefix, an out-of-range number and a vsync value
      other than "true"/"false" reject the command line, whatever follows. */
  lemma BadValueRejected(a: seq<string>, v: string, rest: seq<string>, s: Settings, parseInt: string -> int)
    requires Parse(a, s, parseInt).Ok?
    ensures !(0 <= parseInt(v) <= 16) ==>
      Parse(a + ["--aa", v] + rest, s, parseInt) == Err(AntiAliasingOutOfRange(parseInt(v)))
    ensures !(0 <= parseInt(v) <= 1000) ==>
      Parse(a + ["--max-iters", v] + rest, s, parseInt) == Err(MaxIterationsOutOfRange(parseInt(v)))
    ensures v != "true" && v != "false" ==>
      Parse(a + ["--vsync", v] + rest, s, parseInt) == Err(InvalidVsync(v))
  {
    assert a + ["--aa", v] + rest == a + (["--aa", v] + rest);
    ParseAppend(a, ["--aa", v] + rest, s, parseInt);
    assert a + ["--max-iters", v] + rest == a + (["--max-iters", v] + rest);
    ParseAppend(a, ["--max-iters", v] + rest, s, parseInt);
    assert a + ["--vsync", v] + rest == a + (["--vsync", v] + rest);
    ParseAppend(a, ["--vsync", v] + rest, s, parseInt);
  }

  /** The last occurrence of a flag decides: appending a flag (with a value
      that is accepted) to an accepted prefix sets exactly that field, and
      `--no-depth` zeroes both depth and stencil bits. */
  lemma LastOccurrenceWins(a: seq<string>, v: string, s: Settings, parseInt: string -> int)
    requires Parse(a, s, parseInt).Ok?
    ensures var t := Parse(a, s, parseInt).settings;
      Parse(a + ["--no-depth"], s, parseInt) == Ok(t.(depthBits := 0, stencilBits := 0))
      && Parse(a + ["--use-double"], s, parseInt) == Ok(t.(useDouble := true))
      && (0 <= parseInt(v) <= 16 ==>
            Parse(a + ["--aa", v], s, parseInt) == Ok(t.(antiAliasingLevel := parseInt(v))))
      && (0 <= parseInt(v) <= 1000 ==>
            Parse(a + ["--max-iters", v], s, parseInt) == Ok(t.(maxIterations := parseInt(v))))
      && (v == "true" || v == "false" ==>
            Parse(a + ["--vsync", v], s, parseInt) == Ok(t.(useVsync := v == "true")))
  {
    ParseAppend(a, ["--no-depth"], s, parseInt);
    ParseAppend(a, ["--use-double"], s, parseInt);
    ParseAppend(a, ["--aa", v], s, parseInt);
    ParseAppend(a, ["--max-iters", v], s, parseInt);
    ParseAppend(a, ["--vsync", v], s, parseInt);
    assert ["--aa", v][2..] == [];
    assert ["--max-iters", v][2..] == [];
    assert ["--vsync", v][2..] == [];
    assert ["--no-depth"][1..] == [];
    assert ["--use-double"][1..] == [];
  }
}
