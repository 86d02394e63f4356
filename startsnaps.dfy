/**
 * scripts/start_snaps.py: the top-level check `_load_startup_config` applies
 * to the loaded startup document, and `_build_argv_from_yaml`, which turns
 * that document into the argument list handed to multi_snap_config.
 */
module StartSnaps {
  import opened Results
  import opened PyValue

  datatype StartupError =
    | TopLevelNotMapping  // the document is truthy but not a mapping (ValueError)
    | LayoutMissing       // `layout_yaml` missing or falsy (ValueError)
    | IpsNotIterable      // `ips` truthy but not iterable (TypeError)
    | OptionsNotMapping   // `options` truthy but has no .get (AttributeError)

  /** `_load_startup_config` on the loaded document: `cfg or {}`, which must
      then be a mapping. */
  function LoadStartupConfig(doc: Value): (r: Result<Entries, StartupError>)
    ensures !Truthy(doc) ==> r == Ok([])
    ensures Truthy(doc) && doc.VDict? ==> r == Ok(doc.entries)
    ensures r.Err? <==> Truthy(doc) && !doc.VDict?
  {
    if !Truthy(doc) then Ok([])
    else if doc.VDict? then Ok(doc.entries)
    else Err(TopLevelNotMapping)
  }

  // ---------------------------------------------------------------------------
  // The command line as flags with their values
  // ---------------------------------------------------------------------------

  /** The flags, in the order they are emitted. */
  datatype Flag = Ip | NchanPacket | LogLevel | Programmed | TestMode | FftShift | EqCoeffs | AdcGain

  function FlagText(f: Flag): string {
    match f
    case Ip => "--ip"
    case NchanPacket => "--nchan-packet"
    case LogLevel => "--log-level"
    case Programmed => "--programmed"
    case TestMode => "--test-mode"
    case FftShift => "--fft_shift"
    case EqCoeffs => "--eq_coeffs"
    case AdcGain => "--adc_gain"
  }

  /** Position of a flag in the emission order. */
  function Rank(f: Flag): nat {
    match f
    case Ip => 0
    case NchanPacket => 1
    case LogLevel => 2
    case Programmed => 3
    case TestMode => 4
    case FftShift => 5
    case EqCoeffs => 6
    case AdcGain => 7
  }

  /** The key of the `options` block a flag is taken from (`--ip` comes from
      the top-level `ips`). */
  function OptionKey(f: Flag): string {
    match f
    case Ip => "ips"
    case NchanPacket => "nchan_packet"
    case LogLevel => "log_level"
    case Programmed => "programmed"
    case TestMode => "test_mode"
    case FftShift => "fft_shift"
    case EqCoeffs => "eq_coeffs"
    case AdcGain => "adc_gain"
  }

  /** The flags emitted whenever their option is not None. */
  predicate PassedUnlessNone(f: Flag) {
    f == NchanPacket || f == FftShift || f == EqCoeffs || f == AdcGain
  }

  /** The flags emitted with their value when their option is truthy. */
  predicate PassedWhenTruthy(f: Flag) {
    f == LogLevel || f == TestMode
  }

  /** One flag followed by its values. */
  datatype Arg = Arg(flag: Flag, values: seq<string>)

  /** The layout path followed by the flags. */
  datatype Command = Command(layout: string, args: seq<Arg>)

  function Tokens(args: seq<Arg>): seq<string> {
    if args == [] then []
    else Tokens(args[..|args| - 1]) + ArgTokens(args[|args| - 1])
  }

  /** One flag followed by its values. */
  function ArgTokens(a: Arg): seq<string> {
    [FlagText(a.flag)] + a.values
  }

  /** The argument list a command stands for. */
  function Argv(c: Command): seq<string> {
    [c.layout] + Tokens(c.args)
  }

  /** The values given with a flag, if it is given. */
  function ArgOf(args: seq<Arg>, f: Flag): Option<seq<string>> {
    if args == [] then None
    else if args[0].flag == f then Some(args[0].values)
    else ArgOf(args[1..], f)
  }

  // ---------------------------------------------------------------------------
  // What `_build_argv_from_yaml` emits
  // ---------------------------------------------------------------------------

  /** The `options` block as it is consulted: `cfg.get("options") or {}`. */
  function Options(cfg: Entries): Result<Entries, StartupError> {
    var opts := Get(cfg, "options");
    if !Truthy(opts) then Ok([])
    else if opts.VDict? then Ok(opts.entries)
    else Err(OptionsNotMapping)
  }

  /** `str(ip) for ip in ips`. */
  function Strs(xs: seq<Value>): (r: seq<string>)
    ensures |r| == |xs| && forall j :: 0 <= j < |xs| ==> r[j] == Str(xs[j])
  {
    seq(|xs|, j requires 0 <= j < |xs| => Str(xs[j]))
  }

  /** Lines 41-44. */
  function IpArgs(ips: Value): Result<seq<Arg>, StartupError> {
    if !Truthy(ips) then Ok([])
    else match Iter(ips)
      case Some(xs) => Ok([Arg(Ip, Strs(xs))])
      case None => Err(IpsNotIterable)
  }

  /** A flag given with its value unless its option is None. */
  function WhenNotNone(f: Flag, v: Value): seq<Arg> {
    if v.VNone? then [] else [Arg(f, [Str(v)])]
  }

  /** A flag given with its value when its option is truthy. */
  function WhenTruthy(f: Flag, v: Value): seq<Arg> {
    if Truthy(v) then [Arg(f, [Str(v)])] else []
  }

  /** A flag given alone when its option is truthy. */
  function WhenSet(f: Flag, v: Value): seq<Arg> {
    if Truthy(v) then [Arg(f, [])] else []
  }

  /** Lines 49-74, in their order. */
  function OptionArgs(o: Entries): seq<Arg> {
    WhenNotNone(NchanPacket, Get(o, "nchan_packet"))
    + WhenTruthy(LogLevel, Get(o, "log_level"))
    + WhenSet(Programmed, Get(o, "programmed"))
    + WhenTruthy(TestMode, Get(o, "test_mode"))
    + WhenNotNone(FftShift, Get(o, "fft_shift"))
    + WhenNotNone(EqCoeffs, Get(o, "eq_coeffs"))
    + WhenNotNone(AdcGain, Get(o, "adc_gain"))
  }

  /** The command `_build_argv_from_yaml` emits, or the error it raises first. */
  function StartupCommand(cfg: Entries): (r: Result<Command, StartupError>)
    ensures r == Err(LayoutMissing) <==> !Truthy(Get(cfg, "layout_yaml"))
    ensures r.Ok? <==> Truthy(Get(cfg, "layout_yaml")) && IpArgs(Get(cfg, "ips")).Ok? && Options(cfg).Ok?
    ensures r.Ok? ==> r.value.layout == Str(Get(cfg, "layout_yaml"))
    ensures r.Ok? ==> Options(cfg).Ok? && IpArgs(Get(cfg, "ips")).Ok?
    ensures r == Err(IpsNotIterable) <==>
      Truthy(Get(cfg, "layout_yaml")) && Truthy(Get(cfg, "ips")) && Iter(Get(cfg, "ips")).None?
    ensures r == Err(OptionsNotMapping) <==>
      && Truthy(Get(cfg, "layout_yaml")) && IpArgs(Get(cfg, "ips")).Ok?
      && Truthy(Get(cfg, "options")) && !Get(cfg, "options").VDict?
  {
    var layout := Get(cfg, "layout_yaml");
    if !Truthy(layout) then Err(LayoutMissing)
    else
      var ipArgs :- IpArgs(Get(cfg, "ips"));
      var o :- Options(cfg);
      Ok(Command(Str(layout), ipArgs + OptionArgs(o)))
  }

  function ArgvOf(r: Result<Command, StartupError>): Result<seq<string>, StartupError> {
    match r
    case Ok(c) => Ok(Argv(c))
    case Err(e) => Err(e)
  }

  /** Lines 41-44: `--ip` and str() of every element when `ips` is truthy. */
  method ExtendIps(argv: seq<string>, ips: Value) returns (r: Result<seq<string>, StartupError>)
    ensures IpArgs(ips).Err? ==> r == Err(IpArgs(ips).error)
    ensures IpArgs(ips).Ok? ==> r == Ok(argv + Tokens(IpArgs(ips).value))
  {
    if !Truthy(ips) {
      assert IpArgs(ips) == Ok([]) && argv + Tokens([]) == argv;
      return Ok(argv);
    }
    var items := Iter(ips);
    if items.None? {
      return Err(IpsNotIterable);
    }
    var extended := ExtendStrs(argv + ["--ip"], items.value);
    assert IpArgs(ips) == Ok([Arg(Ip, Strs(items.value))]);
    IpArgTokens(argv, Strs(items.value));
    return Ok(extended);
  }

  /** `_build_argv_from_yaml`: builds the list step by step. */
  method BuildArgv(cfg: Entries) returns (r: Result<seq<string>, StartupError>)
    ensures r == ArgvOf(StartupCommand(cfg))
  {
    var layout := Get(cfg, "layout_yaml");
    if !Truthy(layout) {
      return Err(LayoutMissing);
    }
    var ips := Get(cfg, "ips");
    var argv :- ExtendIps([Str(layout)], ips);
    var opts := Get(cfg, "options");
    if Truthy(opts) && !opts.VDict? {
      return Err(OptionsNotMapping);
    }
    var o := if Truthy(opts) then opts.entries else [];
    argv := ExtendOptions(argv, o);
    ArgvAppend(Str(layout), IpArgs(ips).value, OptionArgs(o));
    return Ok(argv);
  }

  /** Line 44: `argv.extend(str(ip) for ip in ips)`. */
  method ExtendStrs(argv: seq<string>, xs: seq<Value>) returns (r: seq<string>)
    ensures r == argv + Strs(xs)
  {
    r := argv;
    for i := 0 to |xs|
      invariant r == argv + Strs(xs[..i])
    {
      assert Strs(xs[..i + 1]) == Strs(xs[..i]) + [Str(xs[i])];
      r := r + [Str(xs[i])];
    }
    assert xs[..|xs|] == xs;
  }

  /** Lines 49-74: each option in turn, appending its flag and value. */
  method ExtendOptions(argv: seq<string>, o: Entries) returns (r: seq<string>)
    ensures r == argv + Tokens(OptionArgs(o))
  {
    r := ExtendWhenNotNone(argv, NchanPacket, Get(o, "nchan_packet"));
    ghost var done := WhenNotNone(NchanPacket, Get(o, "nchan_packet"));
    r := ExtendWhenTruthy(r, LogLevel, Get(o, "log_level"));
    TokensStep(argv, done, WhenTruthy(LogLevel, Get(o, "log_level")));
    done := done + WhenTruthy(LogLevel, Get(o, "log_level"));
    r := ExtendWhenSet(r, Programmed, Get(o, "programmed"));
    TokensStep(argv, done, WhenSet(Programmed, Get(o, "programmed")));
    done := done + WhenSet(Programmed, Get(o, "programmed"));
    r := ExtendWhenTruthy(r, TestMode, Get(o, "test_mode"));
    TokensStep(argv, done, WhenTruthy(TestMode, Get(o, "test_mode")));
    done := done + WhenTruthy(TestMode, Get(o, "test_mode"));
    r := ExtendWhenNotNone(r, FftShift, Get(o, "fft_shift"));
    TokensStep(argv, done, WhenNotNone(FftShift, Get(o, "fft_shift")));
    done := done + WhenNotNone(FftShift, Get(o, "fft_shift"));
    r := ExtendWhenNotNone(r, EqCoeffs, Get(o, "eq_coeffs"));
    TokensStep(argv, done, WhenNotNone(EqCoeffs, Get(o, "eq_coeffs")));
    done := done + WhenNotNone(EqCoeffs, Get(o, "eq_coeffs"));
    r := ExtendWhenNotNone(r, AdcGain, Get(o, "adc_gain"));
    TokensStep(argv, done, WhenNotNone(AdcGain, Get(o, "adc_gain")));
  }

  /** One option block that appends the flag and its value unless the option
      is None. */
  method ExtendWhenNotNone(argv: seq<string>, f: Flag, v: Value) returns (r: seq<string>)
    ensures r == argv + Tokens(WhenNotNone(f, v))
  {
    r := argv;
    if !v.VNone? {
      r := r + [FlagText(f), Str(v)];
    }
    TokensOne(WhenNotNone(f, v));
  }

  /** One option block that appends the flag and its value when the option is
      truthy. */
  method ExtendWhenTruthy(argv: seq<string>, f: Flag, v: Value) returns (r: seq<string>)
    ensures r == argv + Tokens(WhenTruthy(f, v))
  {
    r := argv;
    if Truthy(v) {
      r := r + [FlagText(f), Str(v)];
    }
    TokensOne(WhenTruthy(f, v));
  }

  /** The block that appends a flag without a value when the option is truthy. */
  method ExtendWhenSet(argv: seq<string>, f: Flag, v: Value) returns (r: seq<string>)
    ensures r == argv + Tokens(WhenSet(f, v))
  {
    r := argv;
    if Truthy(v) {
      r := r + [FlagText(f)];
    }
    TokensOne(WhenSet(f, v));
  }

  // ---------------------------------------------------------------------------
  // Tokens
  // ---------------------------------------------------------------------------

  /** The tokens of one flag or none. */
  lemma TokensOne(args: seq<Arg>)
    requires |args| <= 1
    ensures Tokens(args) == if args == [] then [] else [FlagText(args[0].flag)] + args[0].values
  {
    if args != [] {
      assert args[..0] == [];
    }
  }

  /** Tokens of consecutive flags are the consecutive tokens. */
  lemma {:induction false} TokensConcat(a: seq<Arg>, b: seq<Arg>)
    ensures Tokens(a + b) == Tokens(a) + Tokens(b)
  {
    if b == [] {
      assert a + b == a && Tokens(a) + Tokens(b) == Tokens(a);
    } else {
      var ab := a + b;
      var init := b[..|b| - 1];
      var last := b[|b| - 1];
      assert ab[..|ab| - 1] == a + init && ab[|ab| - 1] == last;
      assert Tokens(ab) == Tokens(a + init) + ArgTokens(last);
      TokensConcat(a, init);
      assert Tokens(b) == Tokens(init) + ArgTokens(last);
      Associative(Tokens(a), Tokens(init), ArgTokens(last));
    }
  }

  /** `--ip` and its values, appended, are the tokens of the `--ip` flag. */
  lemma IpArgTokens(argv: seq<string>, values: seq<string>)
    ensures argv + ["--ip"] + values == argv + Tokens([Arg(Ip, values)])
  {
    TokensOne([Arg(Ip, values)]);
    Associative(argv, ["--ip"], values);
  }

  lemma Associative<T>(x: seq<T>, y: seq<T>, z: seq<T>)
    ensures x + y + z == x + (y + z)
  {
  }

  /** One more block of flags after those emitted so far. */
  lemma TokensStep(argv: seq<string>, done: seq<Arg>, next: seq<Arg>)
    ensures argv + Tokens(done) + Tokens(next) == argv + Tokens(done + next)
  {
    TokensConcat(done, next);
  }

  lemma ArgvAppend(layout: string, p: seq<Arg>, q: seq<Arg>)
    ensures Argv(Command(layout, p + q)) == [layout] + Tokens(p) + Tokens(q)
  {
    TokensConcat(p, q);
  }

  // ---------------------------------------------------------------------------
  // Properties of the emitted command
  // ---------------------------------------------------------------------------

  /** At most one flag, and that one `f`. */
  predicate Block(a: seq<Arg>, f: Flag) {
    |a| <= 1 && (a != [] ==> a[0].flag == f)
  }

  /** The option blocks of lines 49-74 each hold at most their own flag. */
  lemma OptionBlocks(o: Entries)
    ensures Block(WhenNotNone(NchanPacket, Get(o, "nchan_packet")), NchanPacket)
    ensures Block(WhenTruthy(LogLevel, Get(o, "log_level")), LogLevel)
    ensures Block(WhenSet(Programmed, Get(o, "programmed")), Programmed)
    ensures Block(WhenTruthy(TestMode, Get(o, "test_mode")), TestMode)
    ensures Block(WhenNotNone(FftShift, Get(o, "fft_shift")), FftShift)
    ensures Block(WhenNotNone(EqCoeffs, Get(o, "eq_coeffs")), EqCoeffs)
    ensures Block(WhenNotNone(AdcGain, Get(o, "adc_gain")), AdcGain)
  {
  }

  /** Flags in strictly increasing emission order, so none is given twice. */
  predicate Ascending(args: seq<Arg>) {
    forall i, j :: 0 <= i < j < |args| ==> Rank(args[i].flag) < Rank(args[j].flag)
  }

  predicate RanksBelow(args: seq<Arg>, n: nat) {
    forall i :: 0 <= i < |args| ==> Rank(args[i].flag) < n
  }

  predicate RanksFrom(args: seq<Arg>, n: nat) {
    forall i :: 0 <= i < |args| ==> n <= Rank(args[i].flag)
  }

  /** Appending at most one flag that comes after all flags so far keeps the
      order. */
  lemma AscendingStep(a: seq<Arg>, next: seq<Arg>, f: Flag)
    requires Ascending(a) && RanksBelow(a, Rank(f)) && Block(next, f) && RanksFrom(a, 1) && f != Ip
    ensures Ascending(a + next) && RanksBelow(a + next, Rank(f) + 1) && RanksFrom(a + next, 1)
  {
  }

  /** The option blocks come in emission order, all after `--ip`. */
  lemma OptionsAscending(a1: seq<Arg>, a2: seq<Arg>, a3: seq<Arg>, a4: seq<Arg>,
                         a5: seq<Arg>, a6: seq<Arg>, a7: seq<Arg>)
    requires Block(a1, NchanPacket) && Block(a2, LogLevel) && Block(a3, Programmed)
    requires Block(a4, TestMode) && Block(a5, FftShift) && Block(a6, EqCoeffs) && Block(a7, AdcGain)
    ensures Ascending(a1 + a2 + a3 + a4 + a5 + a6 + a7) && RanksFrom(a1 + a2 + a3 + a4 + a5 + a6 + a7, 1)
  {
    AscendingStep(a1, a2, LogLevel);
    AscendingStep(a1 + a2, a3, Programmed);
    AscendingStep(a1 + a2 + a3, a4, TestMode);
    AscendingStep(a1 + a2 + a3 + a4, a5, FftShift);
    AscendingStep(a1 + a2 + a3 + a4 + a5, a6, EqCoeffs);
    AscendingStep(a1 + a2 + a3 + a4 + a5 + a6, a7, AdcGain);
  }

  lemma AscendingConcat(a: seq<Arg>, b: seq<Arg>, n: nat)
    requires Ascending(a) && Ascending(b) && RanksBelow(a, n) && RanksFrom(b, n)
    ensures Ascending(a + b)
  {
  }

  /** The flags always follow the fixed order --ip, --nchan-packet,
      --log-level, --programmed, --test-mode, --fft_shift, --eq_coeffs,
      --adc_gain, each at most once. */
  lemma FlagsInOrder(cfg: Entries, c: Command)
    requires StartupCommand(cfg) == Ok(c)
    ensures Ascending(c.args)
  {
    var o := Options(cfg).value;
    var p := IpArgs(Get(cfg, "ips")).value;
    assert c.args == p + OptionArgs(o);
    OptionArgsAscending(o);
    AscendingConcat(p, OptionArgs(o), 1);
  }

  /** The option flags come out in the fixed order, all after `--ip`. */
  lemma OptionArgsAscending(o: Entries)
    ensures Ascending(OptionArgs(o)) && RanksFrom(OptionArgs(o), 1)
  {
    OptionBlocks(o);
    OptionsAscending(
      WhenNotNone(NchanPacket, Get(o, "nchan_packet")), WhenTruthy(LogLevel, Get(o, "log_level")),
      WhenSet(Programmed, Get(o, "programmed")), WhenTruthy(TestMode, Get(o, "test_mode")),
      WhenNotNone(FftShift, Get(o, "fft_shift")), WhenNotNone(EqCoeffs, Get(o, "eq_coeffs")),
      WhenNotNone(AdcGain, Get(o, "adc_gain")));
  }

  /** What each flag of the `options` block promises: the four value flags
      whenever the option is not None, `--log-level` and `--test-mode` with
      their value when it is truthy, `--programmed` alone when it is truthy. */
  function Expected(o: Entries, f: Flag): Option<seq<string>>
    requires f != Ip
  {
    var v := Get(o, OptionKey(f));
    if PassedUnlessNone(f) then (if v.VNone? then None else Some([Str(v)]))
    else if PassedWhenTruthy(f) then (if Truthy(v) then Some([Str(v)]) else None)
    else if Truthy(v) then Some([])
    else None
  }

  lemma {:induction false} ArgOfAppend(a: seq<Arg>, b: seq<Arg>, f: Flag)
    ensures ArgOf(a + b, f) == if ArgOf(a, f).Some? then ArgOf(a, f) else ArgOf(b, f)
  {
    if a == [] {
      assert a + b == b;
    } else {
      assert (a + b)[0] == a[0] && (a + b)[1..] == a[1..] + b;
      ArgOfAppend(a[1..], b, f);
    }
  }

  lemma ArgOfBlock(a: seq<Arg>, g: Flag, f: Flag)
    requires Block(a, g)
    ensures ArgOf(a, f) == if a != [] && g == f then Some(a[0].values) else None
  {
    if a != [] {
      assert a[1..] == [];
    }
  }

  /** In the option blocks, a flag's values are found in its own block. */
  lemma ArgOfOptions(a1: seq<Arg>, a2: seq<Arg>, a3: seq<Arg>, a4: seq<Arg>,
                     a5: seq<Arg>, a6: seq<Arg>, a7: seq<Arg>, f: Flag)
    requires Block(a1, NchanPacket) && Block(a2, LogLevel) && Block(a3, Programmed)
    requires Block(a4, TestMode) && Block(a5, FftShift) && Block(a6, EqCoeffs) && Block(a7, AdcGain)
    ensures ArgOf(a1 + a2 + a3 + a4 + a5 + a6 + a7, f) ==
      match f
      case Ip => None
      case NchanPacket => ArgOf(a1, f)
      case LogLevel => ArgOf(a2, f)
      case Programmed => ArgOf(a3, f)
      case TestMode => ArgOf(a4, f)
      case FftShift => ArgOf(a5, f)
      case EqCoeffs => ArgOf(a6, f)
      case AdcGain => ArgOf(a7, f)
  {
    ArgOfAppend(a1 + a2 + a3 + a4 + a5 + a6, a7, f);
    ArgOfAppend(a1 + a2 + a3 + a4 + a5, a6, f);
    ArgOfAppend(a1 + a2 + a3 + a4, a5, f);
    ArgOfAppend(a1 + a2 + a3, a4, f);
    ArgOfAppend(a1 + a2, a3, f);
    ArgOfAppend(a1, a2, f);
    ArgOfBlock(a1, NchanPacket, f);
    ArgOfBlock(a2, LogLevel, f);
    ArgOfBlock(a3, Programmed, f);
    ArgOfBlock(a4, TestMode, f);
    ArgOfBlock(a5, FftShift, f);
    ArgOfBlock(a6, EqCoeffs, f);
    ArgOfBlock(a7, AdcGain, f);
  }

  /** Each option flag of the command is given exactly as its option promises:
      the value flags iff the option is not None (0 included), `--log-level`
      and `--test-mode` iff it is truthy, `--programmed`, without a value,
      iff it is truthy. */
  lemma OptionFlags(cfg: Entries, c: Command, f: Flag)
    requires StartupCommand(cfg) == Ok(c) && f != Ip
    ensures ArgOf(c.args, f) == Expected(Options(cfg).value, f)
  {
    var o := Options(cfg).value;
    var p := IpArgs(Get(cfg, "ips")).value;
    assert c.args == p + OptionArgs(o);
    ArgOfAppend(p, OptionArgs(o), f);
    ArgOfBlock(p, Ip, f);
    OptionArgOf(o, f);
  }

  /** The option part of the command gives each option flag as expected. */
  lemma OptionArgOf(o: Entries, f: Flag)
    requires f != Ip
    ensures ArgOf(OptionArgs(o), f) == Expected(o, f)
  {
    var a1 := WhenNotNone(NchanPacket, Get(o, "nchan_packet"));
    var a2 := WhenTruthy(LogLevel, Get(o, "log_level"));
    var a3 := WhenSet(Programmed, Get(o, "programmed"));
    var a4 := WhenTruthy(TestMode, Get(o, "test_mode"));
    var a5 := WhenNotNone(FftShift, Get(o, "fft_shift"));
    var a6 := WhenNotNone(EqCoeffs, Get(o, "eq_coeffs"));
    var a7 := WhenNotNone(AdcGain, Get(o, "adc_gain"));
    OptionBlocks(o);
    ArgOfOptions(a1, a2, a3, a4, a5, a6, a7, f);
    match f {
      case NchanPacket => ArgOfBlock(a1, NchanPacket, f);
      case LogLevel => ArgOfBlock(a2, LogLevel, f);
      case Programmed => ArgOfBlock(a3, Programmed, f);
      case TestMode => ArgOfBlock(a4, TestMode, f);
      case FftShift => ArgOfBlock(a5, FftShift, f);
      case EqCoeffs => ArgOfBlock(a6, EqCoeffs, f);
      case AdcGain => ArgOfBlock(a7, AdcGain, f);
    }
  }

  /** `--ip` is given exactly when `ips` is truthy, with str() of every
      element of `ips`, in order. */
  lemma IpFlag(cfg: Entries, c: Command)
    requires StartupCommand(cfg) == Ok(c)
    ensures ArgOf(c.args, Ip) == if Truthy(Get(cfg, "ips")) then Some(Strs(Iter(Get(cfg, "ips")).value)) else None
  {
    var o := Options(cfg).value;
    var p := IpArgs(Get(cfg, "ips")).value;
    OptionsNoIp(o);
    ArgOfAppend(p, OptionArgs(o), Ip);
    ArgOfBlock(p, Ip, Ip);
  }

  /** No option block gives `--ip`. */
  lemma OptionsNoIp(o: Entries)
    ensures ArgOf(OptionArgs(o), Ip).None?
  {
    OptionArgsAscending(o);
    ArgOfNone(OptionArgs(o), Ip);
  }

  lemma {:induction false} ArgOfNone(args: seq<Arg>, f: Flag)
    requires RanksFrom(args, Rank(f) + 1)
    ensures ArgOf(args, f).None?
  {
    if args != [] {
      assert forall i :: 0 <= i < |args[1..]| ==> args[1..][i] == args[i + 1];
      ArgOfNone(args[1..], f);
    }
  }

  /** When `ips` is truthy, `--ip` comes right after the layout and is
      followed by str() of every element of `ips`, then by the option flags. */
  lemma IpTokens(cfg: Entries, c: Command)
    requires StartupCommand(cfg) == Ok(c) && Truthy(Get(cfg, "ips"))
    ensures Argv(c) == [c.layout, "--ip"] + Strs(Iter(Get(cfg, "ips")).value) + Tokens(OptionArgs(Options(cfg).value))
  {
    var p := IpArgs(Get(cfg, "ips")).value;
    var q := OptionArgs(Options(cfg).value);
    assert c == Command(c.layout, p + q);
    ArgvAppend(c.layout, p, q);
    TokensOne(p);
    Regroup(c.layout, "--ip", Strs(Iter(Get(cfg, "ips")).value), Tokens(q));
  }

  lemma Regroup(a: string, b: string, x: seq<string>, y: seq<string>)
    ensures [a] + ([b] + x) + y == [a, b] + x + y
  {
    assert [a] + [b] == [a, b];
  }

  /** A missing or empty `options` block leaves only the layout and the
      `--ip` tokens. */
  lemma NoOptions(cfg: Entries, c: Command)
    requires StartupCommand(cfg) == Ok(c) && !Truthy(Get(cfg, "options"))
    ensures Argv(c) == [Str(Get(cfg, "layout_yaml"))]
      + if Truthy(Get(cfg, "ips")) then ["--ip"] + Strs(Iter(Get(cfg, "ips")).value) else []
  {
    var p := IpArgs(Get(cfg, "ips")).value;
    assert Options(cfg) == Ok([]);
    LookupFound([], "nchan_packet");
    LookupFound([], "log_level");
    LookupFound([], "programmed");
    LookupFound([], "test_mode");
    LookupFound([], "fft_shift");
    LookupFound([], "eq_coeffs");
    LookupFound([], "adc_gain");
    assert OptionArgs([]) == [];
    assert c.args == p;
    TokensOne(p);
  }

  /** A value flag set to 0 is still given, with the value "0". */
  lemma ZeroIsPassed(cfg: Entries, c: Command, f: Flag)
    requires StartupCommand(cfg) == Ok(c) && PassedUnlessNone(f)
    requires Get(Options(cfg).value, OptionKey(f)) == VInt(0)
    ensures ArgOf(c.args, f) == Some(["0"])
  {
    OptionFlags(cfg, c, f);
    assert Str(VInt(0)) == "0";
  }
}
