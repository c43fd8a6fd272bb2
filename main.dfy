// The `raygen` command line: the option table, the argument loop that fills
// the renderer settings, and the checks and defaults applied after it.

module CommandLine {
  import opened Base
  import opened RayShaders

  /** `getShaderSystemText`: the name printed for a shader provider setting. */
  function ShaderSystemText(v: Byte): string
  {
    match v
    case 0 => "Simple"
    case 1 => "Ambient Occlusion"
    case 2 => "Lambert"
    case 3 => "Lambert with AO"
    case 5 => "BSDF"
    case _ => "Unknown"
  }

  /** The display name of each provider the renderer can create. */
  function ShaderName(k: ShaderKind): string
  {
    match k
    case Simple => "Simple"
    case AmbientOcclusion => "Ambient Occlusion"
    case LambertKind => "Lambert"
    case LambertWithAO => "Lambert with AO"
    case BSDF => "BSDF"
  }

  /**
   * The printed name is "Unknown" exactly for the settings that create no
   * provider, and otherwise names the provider the setting creates.
   */
  lemma ShaderSystemTextNamesProvider(v: Byte)
    ensures ShaderSystemText(v) == "Unknown" <==> ProviderFor(v).None?
    ensures ProviderFor(v).Some? ==> ShaderSystemText(v) == ShaderName(ProviderFor(v).value)
  {
    if ProviderFor(v).None? {
      assert v == 4 || v > 5;
    } else {
      assert v in {0, 1, 2, 3, 5};
      assert ShaderSystemText(v) != "Unknown" by {
        assert ShaderSystemText(v)[0] != 'U' || |ShaderSystemText(v)| != 7;
      }
    }
  }

  // ----- Text scanning as `sscanf` does it -----

  predicate IsDigit(c: char) { '0' <= c <= '9' }

  function DigitValue(c: char): nat
    requires IsDigit(c)
  {
    c as int - '0' as int
  }

  function DigitChar(d: nat): (c: char)
    requires d < 10
    ensures IsDigit(c) && DigitValue(c) == d
  {
    ('0' as int + d) as char
  }

  /** The white space that a `%d` or `%f` conversion skips. */
  predicate IsSpace(c: char)
  {
    c == ' ' || c == '\t' || c == '\n' || c == '\r' || c == '\U{000B}' || c == '\U{000C}'
  }

  function SkipSpace(s: string): (r: string)
    ensures |r| <= |s|
    ensures r == [] || !IsSpace(r[0])
  {
    if s != [] && IsSpace(s[0]) then SkipSpace(s[1..]) else s
  }

  /** Length of the run of digits at the head of `s`. */
  function DigitRun(s: string): (n: nat)
    ensures n <= |s|
    ensures forall i :: 0 <= i < n ==> IsDigit(s[i])
    ensures n < |s| ==> !IsDigit(s[n])
  {
    if s != [] && IsDigit(s[0]) then 1 + DigitRun(s[1..]) else 0
  }

  /** The value of a string of decimal digits. */
  function DigitsValue(ds: string): nat
    requires forall i :: 0 <= i < |ds| ==> IsDigit(ds[i])
  {
    if ds == [] then 0 else DigitsValue(ds[..|ds| - 1]) * 10 + DigitValue(ds[|ds| - 1])
  }

  /**
   * A `%d` conversion: white space, an optional sign and at least one digit;
   * the value and the text after it, or `None` when no digit follows.
   */
  function ScanInt(s: string): (r: Option<(int, string)>)
    ensures r.Some? ==> |r.value.1| < |s|
  {
    var t := SkipSpace(s);
    var negative := t != [] && t[0] == '-';
    var body := if t != [] && (t[0] == '-' || t[0] == '+') then t[1..] else t;
    var n := DigitRun(body);
    if n == 0 then None
    else
      var magnitude: int := DigitsValue(body[..n]);
      Some((if negative then -magnitude else magnitude, body[n..]))
  }

  /** The decimal text of a natural number, without leading zeros. */
  function NatText(n: nat): (r: string)
    ensures |r| >= 1
    ensures forall i :: 0 <= i < |r| ==> IsDigit(r[i])
  {
    if n < 10 then [DigitChar(n)] else NatText(n / 10) + [DigitChar(n % 10)]
  }

  /** The text `%d` prints for an integer. */
  function IntText(n: int): string
  {
    if n < 0 then "-" + NatText(-n) else NatText(n)
  }

  lemma {:induction false} DigitsValueOfNatText(n: nat)
    ensures DigitsValue(NatText(n)) == n
  {
    var t := NatText(n);
    if n >= 10 {
      DigitsValueOfNatText(n / 10);
      assert t[..|t| - 1] == NatText(n / 10);
    }
  }

  lemma {:induction false} DigitRunOfDigits(ds: string, rest: string)
    requires forall i :: 0 <= i < |ds| ==> IsDigit(ds[i])
    requires rest == [] || !IsDigit(rest[0])
    ensures DigitRun(ds + rest) == |ds|
  {
    if ds != [] {
      assert (ds + rest)[1..] == ds[1..] + rest;
      DigitRunOfDigits(ds[1..], rest);
    }
  }

  /** `%d` reads back exactly the integer that `IntText` prints, and stops right after it. */
  lemma ScanIntText(n: int, rest: string)
    requires rest == [] || !IsDigit(rest[0])
    ensures ScanInt(IntText(n) + rest) == Some((n, rest))
  {
    var m: nat := if n < 0 then -n else n;
    var digits := NatText(m);
    var body := digits + rest;
    DigitRunOfDigits(digits, rest);
    assert body[..|digits|] == digits && body[|digits|..] == rest;
    DigitsValueOfNatText(m);
    assert IntText(n) + rest == if n < 0 then "-" + body else body;
    ScanSignedRun(IntText(n) + rest, body, n < 0, |digits|, m);
  }

  /** `%d` on an optional minus sign followed by a run of `k` digits. */
  lemma ScanSignedRun(s: string, body: string, negative: bool, k: nat, v: int)
    requires s == if negative then "-" + body else body
    requires 0 < k <= |body| && DigitRun(body) == k && v == DigitsValue(body[..k])
    ensures ScanInt(s) == Some((if negative then -v else v, body[k..]))
  {
    assert IsDigit(body[0]);
    if negative {
      assert s[1..] == body;
    }
    assert SkipSpace(s) == s by {
      assert !IsSpace(s[0]);
    }
  }

  /**
   * `sscanf(s, "%v<sep>%v<sep>…", …)` with at most `count` conversions: the
   * values converted before the first failure, in order. A literal separator
   * must be the very next character.
   */
  function ScanFields<T>(s: string, sep: char, count: nat, scan: string -> Option<(T, string)>): (vs: seq<T>)
    ensures |vs| <= count
    decreases count
  {
    if count == 0 then []
    else match scan(s)
      case None => []
      case Some((v, rest)) =>
        if count > 1 && rest != [] && rest[0] == sep
        then [v] + ScanFields(rest[1..], sep, count - 1, scan)
        else [v]
  }

  // ----- Option values -----

  /** The settings the command line can change. */
  datatype CliSettings = CliSettings(
    resolutionWidth: int, resolutionHeight: int,
    threads: int, samples: int, dofSamples: int, shaderProvider: Byte,
    enableAntialias: bool, enableColorSampling: bool, enableRenderingPostProcess: bool,
    cullBackFace: bool, backColor: Color4, worldColor: Color4)

  /** `READ_ARG_INT`: the parsed value, or the current one when the text holds no integer. */
  function ReadInt(value: string, current: int): (r: int)
    ensures ScanInt(value).Some? ==> r == ScanInt(value).value.0
    ensures ScanInt(value).None? ==> r == current
  {
    match ScanInt(value)
    case Some((n, _)) => n
    case None => current
  }

  /** Storing an `int` in the `byte` setting keeps its low eight bits. */
  function ToByte(n: int): (b: Byte)
    ensures (b - n) % 256 == 0
  {
    n % 256
  }

  function LowerAscii(c: char): char
  {
    if 'A' <= c <= 'Z' then (c as int + 32) as char else c
  }

  function UpperAscii(c: char): char
  {
    if 'a' <= c <= 'z' then (c as int - 32) as char else c
  }

  function Lowered(s: string): (r: string)
    ensures |r| == |s|
    ensures forall i :: 0 <= i < |s| ==> r[i] == LowerAscii(s[i])
  {
    seq(|s|, i requires 0 <= i < |s| => LowerAscii(s[i]))
  }

  function Uppered(s: string): (r: string)
    ensures |r| == |s|
    ensures forall i :: 0 <= i < |s| ==> r[i] == UpperAscii(s[i])
  {
    seq(|s|, i requires 0 <= i < |s| => UpperAscii(s[i]))
  }

  /** `READ_ARG_BOL`: "yes", "true", "1" or "on" in any letter case; anything else is false. */
  predicate BoolOption(value: string)
  {
    var v := Lowered(value);
    v == "yes" || v == "true" || v == "1" || v == "on"
  }

  /** Switching a value to capitals does not change how it is read. */
  lemma BoolOptionIgnoresCase(value: string)
    ensures BoolOption(Uppered(value)) == BoolOption(value)
  {
    assert Lowered(Uppered(value)) == Lowered(value);
  }

  /** The words spelled in capitals still switch an option on, and "no" or "off" switch it off. */
  lemma BoolOptionWords()
    ensures BoolOption("YES") && BoolOption("True") && BoolOption("1") && BoolOption("ON")
    ensures !BoolOption("no") && !BoolOption("off") && !BoolOption("0") && !BoolOption("")
  {
    assert Lowered("YES") == "yes";
    assert Lowered("True") == "true";
    assert Lowered("1") == "1";
    assert Lowered("ON") == "on";
    assert Lowered("no") == "no";
    assert Lowered("off") == "off";
    assert Lowered("0") == "0";
  }

  /**
   * `-r`/`--resolution`: "W,H" is tried, then "WxH"; one number sets both
   * sides to it, two set width and height, none leaves both.
   */
  function Resolution(rs: CliSettings, value: string): (r: CliSettings)
    ensures r == rs || r == rs.(resolutionWidth := r.resolutionWidth, resolutionHeight := r.resolutionHeight)
  {
    var byComma := ScanFields(value, ',', 2, ScanInt);
    var read := if |byComma| < 2 then ScanFields(value, 'x', 2, ScanInt) else byComma;
    if |read| == 1 then rs.(resolutionWidth := read[0], resolutionHeight := read[0])
    else if |read| == 2 then rs.(resolutionWidth := read[0], resolutionHeight := read[1])
    else rs
  }

  /** A conversion followed by the separator goes on to the next field. */
  lemma ScanFieldsGoesOn(s: string, sep: char, count: nat, v: int, rest: string)
    requires ScanInt(s) == Some((v, rest)) && count > 1 && rest != [] && rest[0] == sep
    ensures ScanFields(s, sep, count, ScanInt) == [v] + ScanFields(rest[1..], sep, count - 1, ScanInt)
  {
  }

  /** A conversion followed by anything but the separator is the last. */
  lemma ScanFieldsEnds(s: string, sep: char, count: nat, v: int, rest: string)
    requires ScanInt(s) == Some((v, rest)) && count > 0 && (rest == [] || rest[0] != sep)
    ensures ScanFields(s, sep, count, ScanInt) == [v]
  {
  }

  /** Two conversions around a separator. */
  lemma ScanFieldsPair(a: string, b: string, sep: char, other: char, w: int, h: int)
    requires ScanInt(a + [sep] + b) == Some((w, [sep] + b)) && ScanInt(b) == Some((h, []))
    requires other != sep
    ensures ScanFields(a + [sep] + b, sep, 2, ScanInt) == [w, h]
    ensures ScanFields(a + [sep] + b, other, 2, ScanInt) == [w]
  {
    var tail := [sep] + b;
    assert tail[1..] == b;
    ScanFieldsEnds(b, sep, 1, h, []);
    ScanFieldsGoesOn(a + [sep] + b, sep, 2, w, tail);
    ScanFieldsEnds(a + [sep] + b, other, 2, w, tail);
  }

  /** `%d` reads W from "W<sep>H" and H from "H". */
  lemma ScanIntPair(w: int, h: int, sep: char)
    requires !IsDigit(sep)
    ensures ScanInt(IntText(w) + [sep] + IntText(h)) == Some((w, [sep] + IntText(h)))
    ensures ScanInt(IntText(h)) == Some((h, []))
  {
    assert IntText(w) + [sep] + IntText(h) == IntText(w) + ([sep] + IntText(h));
    ScanIntText(w, [sep] + IntText(h));
    assert IntText(h) + [] == IntText(h);
    ScanIntText(h, []);
  }

  /**
   * "W<sep>H" scans as the two numbers with `sep` as the separator, and as
   * W alone with any other separator.
   */
  lemma ScanPair(w: int, h: int, sep: char, other: char)
    requires !IsDigit(sep) && other != sep
    ensures ScanFields(IntText(w) + [sep] + IntText(h), sep, 2, ScanInt) == [w, h]
    ensures ScanFields(IntText(w) + [sep] + IntText(h), other, 2, ScanInt) == [w]
  {
    ScanIntPair(w, h, sep);
    ScanFieldsPair(IntText(w), IntText(h), sep, other, w, h);
  }

  /** "W,H" and "WxH" set the width to W and the height to H. */
  lemma ResolutionPair(rs: CliSettings, w: int, h: int, sep: char)
    requires sep == ',' || sep == 'x'
    ensures Resolution(rs, IntText(w) + [sep] + IntText(h)) == rs.(resolutionWidth := w, resolutionHeight := h)
  {
    ScanPair(w, h, sep, if sep == ',' then 'x' else ',');
  }

  /** A single number sets both sides to it: "1024" is 1024×1024. */
  lemma ResolutionSingle(rs: CliSettings, w: int)
    ensures Resolution(rs, IntText(w)) == rs.(resolutionWidth := w, resolutionHeight := w)
  {
    ScanIntText(w, []);
    assert IntText(w) + [] == IntText(w);
  }

  /** Text with no leading number changes nothing. */
  lemma ResolutionNoNumber(rs: CliSettings, value: string)
    requires ScanInt(value).None?
    ensures Resolution(rs, value) == rs
  {
  }

  /**
   * `-bc`/`-wc`: the components `%f,%f,%f,%f` converted, in order, replace
   * those of the current colour; exactly three make the colour opaque.
   */
  function ColorOption(c: Color4, value: string, scanFloat: string -> Option<(real, string)>): (r: Color4)
  {
    var vs := ScanFields(value, ',', 4, scanFloat);
    var read := Color4(
      if |vs| > 0 then vs[0] else c.r,
      if |vs| > 1 then vs[1] else c.g,
      if |vs| > 2 then vs[2] else c.b,
      if |vs| > 3 then vs[3] else c.a);
    if |vs| == 3 then read.(a := 1.0) else read
  }

  /**
   * The alpha becomes 1 after exactly three components, the fourth after
   * four, and stays otherwise; each converted component replaces its own.
   */
  lemma ColorOptionAlpha(c: Color4, value: string, scanFloat: string -> Option<(real, string)>)
    ensures var vs := ScanFields(value, ',', 4, scanFloat);
      var r := ColorOption(c, value, scanFloat);
      (|vs| == 3 ==> r == Color4(vs[0], vs[1], vs[2], 1.0))
      && (|vs| == 4 ==> r == Color4(vs[0], vs[1], vs[2], vs[3]))
      && (|vs| < 3 ==> r.b == c.b && r.a == c.a)
      && (|vs| == 0 ==> r == c)
  {
  }

  // ----- The argument loop -----

  /** What an argument starting with `-` asks for. */
  datatype Flag =
    | OutputFile | ResolutionFlag | Dump | Version | Help
    | Samples | Threads | DofSamples | Antialias | ColorSampling | PostProcess
    | Shader | FocusObject | CullBack | BackColor | WorldColor | UnknownFlag

  /** The flags `main` knows; any other argument starting with `-` is refused. */
  function FlagOf(arg: string): Flag
  {
    if arg == "-o" then OutputFile
    else if arg == "-r" || arg == "--resolution" then ResolutionFlag
    else if arg == "--dump" then Dump
    else if arg == "-ver" || arg == "--ver" || arg == "--version" then Version
    else if arg == "-h" || arg == "--help" then Help
    else if arg == "-s" || arg == "--samples" then Samples
    else if arg == "-c" || arg == "--threads" || arg == "--cores" then Threads
    else if arg == "-ds" || arg == "-dofs" || arg == "--dof-samples" then DofSamples
    else if arg == "-enaa" || arg == "--enable-antialias" then Antialias
    else if arg == "-encs" || arg == "--enable-color-sampling" then ColorSampling
    else if arg == "-enpp" || arg == "--enable-postprocess" then PostProcess
    else if arg == "-d" || arg == "--shader" then Shader
    else if arg == "--focus-obj" then FocusObject
    else if arg == "-cb" || arg == "--cullback" then CullBack
    else if arg == "-bc" || arg == "--backcolor" then BackColor
    else if arg == "-wc" || arg == "--worldcolor" then WorldColor
    else UnknownFlag
  }

  /** The flags that read the next argument as their value. */
  predicate TakesValue(f: Flag)
  {
    !(f.Dump? || f.Version? || f.Help? || f.UnknownFlag?)
  }

  predicate IsFlag(arg: string)
  {
    arg != [] && arg[0] == '-'
  }

  /** The locals of `main` that the loop fills. */
  datatype ArgState = ArgState(
    cmd: string, scenefile: string, output: string, focus: string,
    dump: bool, inputIndex: int, settings: CliSettings)

  function Initial(defaults: CliSettings): ArgState
  {
    ArgState("", "", "", "", false, 0, defaults)
  }

  /** One value flag applied to its value. */
  function WithValue(st: ArgState, f: Flag, value: string, scanFloat: string -> Option<(real, string)>): ArgState
    requires TakesValue(f)
  {
    var rs := st.settings;
    match f
    case OutputFile => st.(output := value)
    case ResolutionFlag => st.(settings := Resolution(rs, value))
    case Samples => st.(settings := rs.(samples := ReadInt(value, rs.samples)))
    case Threads => st.(settings := rs.(threads := ReadInt(value, rs.threads)))
    case DofSamples => st.(settings := rs.(dofSamples := ReadInt(value, rs.dofSamples)))
    case Antialias => st.(settings := rs.(enableAntialias := BoolOption(value)))
    case ColorSampling => st.(settings := rs.(enableColorSampling := BoolOption(value)))
    case PostProcess => st.(settings := rs.(enableRenderingPostProcess := BoolOption(value)))
    case Shader => st.(settings := rs.(shaderProvider := ToByte(ReadInt(value, rs.shaderProvider))))
    case FocusObject => st.(focus := value)
    case CullBack => st.(settings := rs.(cullBackFace := BoolOption(value)))
    case BackColor => st.(settings := rs.(backColor := ColorOption(rs.backColor, value, scanFloat)))
    case WorldColor => st.(settings := rs.(worldColor := ColorOption(rs.worldColor, value, scanFloat)))
  }

  /** How the loop goes on after one argument. */
  datatype Flow = Continue(next: nat, st: ArgState) | Stop(st: ArgState) | Exit(code: int)

  /**
   * One turn of the loop at argument `i`: a flag, the command (only as the
   * first argument), the scene file (the first later positional argument),
   * or an argument that ends the program with status 1. A value flag with no
   * argument left stops the loop.
   */
  function Step(args: seq<string>, i: nat, st: ArgState, scanFloat: string -> Option<(real, string)>): (r: Flow)
    requires 1 <= i < |args|
    ensures r.Continue? ==> i < r.next <= |args|
  {
    var arg := args[i];
    if IsFlag(arg) then
      var f := FlagOf(arg);
      if f == Dump then Continue(i + 1, st.(dump := true))
      else if f == Version || f == Help then Exit(0)
      else if f == UnknownFlag then Exit(1)
      else if i + 1 >= |args| then Stop(st)
      else Continue(i + 2, WithValue(st, f, args[i + 1], scanFloat))
    else if i == 1 then Continue(i + 1, st.(cmd := arg))
    else if st.inputIndex == 0 then Continue(i + 1, st.(scenefile := arg, inputIndex := st.inputIndex + 1))
    else Exit(1)
  }

  datatype Scanned = Done(st: ArgState) | Exited(code: int)

  /** The loop from argument `i` on. */
  function Scan(args: seq<string>, i: nat, st: ArgState, scanFloat: string -> Option<(real, string)>): Scanned
    requires 1 <= i
    decreases |args| - i
  {
    if i >= |args| then Done(st)
    else match Step(args, i, st, scanFloat)
      case Continue(j, next) => Scan(args, j, next, scanFloat)
      case Stop(last) => Done(last)
      case Exit(code) => Exited(code)
  }

  /** What `main` goes on to do. */
  datatype Outcome =
    | Usage
    | ExitStatus(code: int)
    | ErrorExit(message: string)
    | Run(cmd: string, scenefile: string, output: string, focus: string, dump: bool, settings: CliSettings)

  /** The output image when none is given: next to the scene file, named after it, as JPEG. */
  function DefaultOutput(scenefile: string, dirOf: string -> string, baseNameOf: string -> string): string
  {
    var dir := dirOf(scenefile);
    if dir == [] then baseNameOf(scenefile) + ".jpg"
    else dir + [PathSplitter] + baseNameOf(scenefile) + ".jpg"
  }

  /** The checks after the loop: a command, a scene file, then the output path. */
  function Finish(st: ArgState, dirOf: string -> string, baseNameOf: string -> string): (o: Outcome)
  {
    if st.cmd == [] then ErrorExit("no command specified.\n")
    else if st.scenefile == [] then ErrorExit("no input file specified.\n")
    else
      var output := if st.output == [] then DefaultOutput(st.scenefile, dirOf, baseNameOf) else st.output;
      Run(st.cmd, st.scenefile, output, st.focus, st.dump, st.settings)
  }

  /** `main` up to the point where the scene is loaded. */
  function Parse(args: seq<string>, defaults: CliSettings, scanFloat: string -> Option<(real, string)>,
                 dirOf: string -> string, baseNameOf: string -> string): Outcome
  {
    if |args| < 2 then Usage
    else match Scan(args, 1, Initial(defaults), scanFloat)
      case Exited(code) => ExitStatus(code)
      case Done(st) => Finish(st, dirOf, baseNameOf)
  }

  /**
   * The argument loop of `main` and the checks after it: `i` walks `argv`
   * from the first argument until the arguments run out, a value flag finds
   * no value, or an argument ends the program.
   */
  method ParseCommandLine(args: seq<string>, defaults: CliSettings, scanFloat: string -> Option<(real, string)>,
                          dirOf: string -> string, baseNameOf: string -> string) returns (o: Outcome)
    ensures o == Parse(args, defaults, scanFloat, dirOf, baseNameOf)
  {
    if |args| < 2 {
      return Usage;
    }
    var st := Initial(defaults);
    var i := 1;
    ghost var goal := Scan(args, 1, st, scanFloat);
    while i < |args|
      invariant 1 <= i <= |args|
      invariant Scan(args, i, st, scanFloat) == goal
      decreases |args| - i
    {
      var flow := Step(args, i, st, scanFloat);
      match flow {
        case Exit(code) =>
          return ExitStatus(code);
        case Stop(last) =>
          st := last;
          break;
        case Continue(next, after) =>
          i, st := next, after;
      }
    }
    assert goal == Done(st);
    o := Finish(st, dirOf, baseNameOf);
  }

  // ----- What the loop promises -----


  /** After the first argument the command is never changed. */
  lemma {:induction false} ScanKeepsCommand(args: seq<string>, i: nat, st: ArgState,
                                            scanFloat: string -> Option<(real, string)>)
    requires 2 <= i
    ensures Scan(args, i, st, scanFloat).Done? ==> Scan(args, i, st, scanFloat).st.cmd == st.cmd
    decreases |args| - i
  {
    if i < |args| {
      match Step(args, i, st, scanFloat) {
        case Continue(j, next) => ScanKeepsCommand(args, j, next, scanFloat);
        case Stop(_) =>
        case Exit(_) =>
      }
    }
  }

  /** The command is the first argument, and it is not a flag. */
  lemma CommandIsFirstArgument(args: seq<string>, defaults: CliSettings, scanFloat: string -> Option<(real, string)>,
                               dirOf: string -> string, baseNameOf: string -> string)
    ensures var o := Parse(args, defaults, scanFloat, dirOf, baseNameOf);
      o.Run? ==> |args| >= 2 && o.cmd == args[1] && !IsFlag(args[1])
  {
    if |args| >= 2 {
      var init := Initial(defaults);
      match Step(args, 1, init, scanFloat) {
        case Continue(j, next) => ScanKeepsCommand(args, j, next, scanFloat);
        case Stop(_) =>
        case Exit(_) =>
      }
    }
  }

  /** Without a `-o` argument, the output path only changes through no option at all. */
  lemma {:induction false} ScanKeepsOutput(args: seq<string>, i: nat, st: ArgState,
                                           scanFloat: string -> Option<(real, string)>)
    requires 1 <= i
    requires forall k :: i <= k < |args| ==> args[k] != "-o"
    ensures Scan(args, i, st, scanFloat).Done? ==> Scan(args, i, st, scanFloat).st.output == st.output
    decreases |args| - i
  {
    if i < |args| {
      match Step(args, i, st, scanFloat) {
        case Continue(j, next) => ScanKeepsOutput(args, j, next, scanFloat);
        case Stop(_) =>
        case Exit(_) =>
      }
    }
  }

  /** With no `-o` anywhere, the image goes next to the scene file under the scene's name. */
  lemma DefaultOutputWithoutFlag(args: seq<string>, defaults: CliSettings, scanFloat: string -> Option<(real, string)>,
                                 dirOf: string -> string, baseNameOf: string -> string)
    requires forall k :: 0 <= k < |args| ==> args[k] != "-o"
    ensures var o := Parse(args, defaults, scanFloat, dirOf, baseNameOf);
      o.Run? ==> o.output == DefaultOutput(o.scenefile, dirOf, baseNameOf)
  {
    if |args| >= 2 {
      ScanKeepsOutput(args, 1, Initial(defaults), scanFloat);
    }
  }

  /**
   * Plain arguments only: a command and a scene file run; a third plain
   * argument is refused with status 1; a command alone is an error.
   */
  lemma PositionalArguments(program: string, cmd: string, scene: string, extra: string, defaults: CliSettings,
                            scanFloat: string -> Option<(real, string)>,
                            dirOf: string -> string, baseNameOf: string -> string)
    requires cmd != [] && scene != [] && !IsFlag(cmd) && !IsFlag(scene) && !IsFlag(extra)
    ensures Parse([program, cmd], defaults, scanFloat, dirOf, baseNameOf) == ErrorExit("no input file specified.\n")
    ensures Parse([program, cmd, scene], defaults, scanFloat, dirOf, baseNameOf)
            == Run(cmd, scene, DefaultOutput(scene, dirOf, baseNameOf), "", false, defaults)
    ensures Parse([program, cmd, scene, extra], defaults, scanFloat, dirOf, baseNameOf) == ExitStatus(1)
  {
    var init := Initial(defaults);
    var s1 := init.(cmd := cmd);
    var s2 := s1.(scenefile := scene, inputIndex := 1);
    var a2 := [program, cmd];
    assert Step(a2, 1, init, scanFloat) == Continue(2, s1);
    assert Scan(a2, 1, init, scanFloat) == Done(s1);
    var a3 := [program, cmd, scene];
    assert Step(a3, 1, init, scanFloat) == Continue(2, s1);
    assert Step(a3, 2, s1, scanFloat) == Continue(3, s2);
    assert Scan(a3, 2, s1, scanFloat) == Done(s2);
    assert Scan(a3, 1, init, scanFloat) == Done(s2);
    var a4 := [program, cmd, scene, extra];
    assert Step(a4, 1, init, scanFloat) == Continue(2, s1);
    assert Step(a4, 2, s1, scanFloat) == Continue(3, s2);
    assert Step(a4, 3, s2, scanFloat) == Exit(1);
    assert Scan(a4, 2, s1, scanFloat) == Exited(1);
    assert Scan(a4, 1, init, scanFloat) == Exited(1);
  }

  /** An unknown flag ends the program with status 1, wherever it stands. */
  lemma UnknownFlagExits(args: seq<string>, i: nat, st: ArgState, scanFloat: string -> Option<(real, string)>)
    requires 1 <= i < |args| && IsFlag(args[i]) && FlagOf(args[i]) == UnknownFlag
    ensures Scan(args, i, st, scanFloat) == Exited(1)
  {
  }

  /** A value flag at the end has nothing to read: the loop stops and the earlier arguments stand. */
  lemma TrailingValueFlag(args: seq<string>, st: ArgState, scanFloat: string -> Option<(real, string)>)
    requires |args| >= 2 && IsFlag(args[|args| - 1]) && TakesValue(FlagOf(args[|args| - 1]))
    ensures Scan(args, |args| - 1, st, scanFloat) == Done(st)
  {
    var f := FlagOf(args[|args| - 1]);
    assert f != Dump && f != Version && f != Help && f != UnknownFlag;
    assert Step(args, |args| - 1, st, scanFloat) == Stop(st);
  }

  /**
   * `-d n` stores `n` modulo 256, so `-d 261` selects the BSDF provider like
   * `-d 5`.
   */
  lemma ShaderSettingIsAByte(st: ArgState, n: int, scanFloat: string -> Option<(real, string)>)
    ensures WithValue(st, Shader, IntText(n), scanFloat).settings.shaderProvider == n % 256
    ensures n % 256 == 5 ==> ProviderFor(WithValue(st, Shader, IntText(n), scanFloat).settings.shaderProvider) == Some(BSDF)
  {
    ScanIntText(n, []);
    assert IntText(n) + [] == IntText(n);
  }
}
