// The command line of the MeasureResponse program: MeasureResponseParse
// reads each argument in turn into the sweep configuration, stops at the
// first argument it does not understand, resolves a trigger on the input
// or output channel, and checks the result before a sweep may start.

module MeasureResponse {
  import opened Numbers
  import opened Text
  import opened ArgText
  import opened ArgSpecs
  import FR = FreqResponse

  const ReturnSuccess := 0
  const ReturnSyntaxError := -5
  const ReturnSetupError := -6

  /** Trigger channel placeholders, replaced once every argument is read. */
  const ChTrigIn := -1
  const ChTrigOut := -2

  const SameChannelsError := "Input and Output oscilloscope channels cannot be identical\n"
  const StopFrequencyError := "Stop frequency must be greater than start frequency\n"
  const PointsError := "There must be at least 2 sample points specified\n"
  const AmplitudeError := "The stimulus amplitude must be greater than 0.0V\n"

  /** Where the report goes: echoed to the console or not, and a file name
    * (empty for none). */
  datatype FileConfig = FileConfig(isEcho: bool, filename: string)

  /** Everything the command line sets. */
  datatype Settings = Settings(file: FileConfig, cfg: FR.Config)

  /** The return code, the error text and the settings as they stand when
    * parsing stops. */
  datatype Parsed = Parsed(code: int, error: string, settings: Settings)

  const Defaults: Settings := Settings(
    FileConfig(true, ""),
    FR.Config(
      FR.FreqConfig(Num(1000.0), Num(10000.0), FR.LOG, 10),
      FR.StimConfig(1, FR.VPP, Num(1.0), Num(0.0)),
      FR.ChannelConfig(1, FR.AC, Num(10.0), true),
      FR.ChannelConfig(2, FR.AC, Num(10.0), true),
      FR.TrigConfig(ChTrigIn, FR.RISE, FR.AC, Num(0.0)),
      FR.MeasConfig(FR.VPP, FR.PHASE),
      FR.DwellConfig(Num(2.0), 500)))

  // ---------------------------------------------------------------------
  // Argument tags: ^(?:NAME|NAME...)(?::|=) in any case

  predicate IsTagSep(c: char) { c == ':' || c == '=' }

  /** The argument starts with the name, in any case, and then ':' or '='. */
  predicate TagIs(arg: string, name: string)
  {
    |name| < |arg| && EqI(arg[..|name|], name) && IsTagSep(arg[|name|])
  }

  /** The position of the separator after the first name that starts the
    * argument. */
  function TagEnd(arg: string, names: seq<string>): (r: Option<nat>)
    ensures r.Some? ==> r.value < |arg| && IsTagSep(arg[r.value])
  {
    if names == [] then None
    else if TagIs(arg, names[0]) then Some(|names[0]|)
    else TagEnd(arg, names[1..])
  }

  /** TagEnd finds the first name of the list that starts the argument, and
    * finds none exactly when no name does. */
  lemma {:induction false} TagEndFinds(arg: string, names: seq<string>)
    ensures TagEnd(arg, names).Some? ==>
      exists k :: 0 <= k < |names| && TagIs(arg, names[k]) && TagEnd(arg, names).value == |names[k]|
              && forall j :: 0 <= j < k ==> !TagIs(arg, names[j])
    ensures TagEnd(arg, names).None? <==> forall k :: 0 <= k < |names| ==> !TagIs(arg, names[k])
    decreases |names|
  {
    if names != [] && !TagIs(arg, names[0]) {
      TagEndFinds(arg, names[1..]);
      assert forall k :: 1 <= k < |names| ==> names[k] == names[1..][k - 1];
      if TagEnd(arg, names).Some? {
        var k :| 0 <= k < |names[1..]| && TagIs(arg, names[1..][k]) && TagEnd(arg, names).value == |names[1..][k]|
                 && forall j :: 0 <= j < k ==> !TagIs(arg, names[1..][j]);
        assert names[k + 1] == names[1..][k];
        forall j | 0 <= j < k + 1
          ensures !TagIs(arg, names[j])
        {
          if j > 0 {
            assert names[j] == names[1..][j - 1];
          }
        }
      }
    }
  }

  /** ^TAG(?::|=)(.+)$ : the text after the tag. */
  function Tagged(arg: string, names: seq<string>): (r: Option<string>)
    ensures r.Some? ==> r.value != [] && OneLine(r.value)
  {
    match TagEnd(arg, names)
    case None => None
    case Some(p) =>
      var rest := arg[p + 1..];
      if rest != [] && OneLine(rest) then Some(rest) else None
  }

  const ChannelTags := ["IN", "I", "OUT", "O"]
  const StimTags := ["STIM", "S"]
  const FreqTags := ["FREQ", "F"]
  const MeasTags := ["MEAS", "M"]
  const LogTags := ["FILE", "LOG", "REPORT", "REP"]
  const DwellTags := ["DWELL", "D"]
  const TrigTags := ["TRIG", "T"]

  // ---------------------------------------------------------------------
  // Oscilloscope channels: IN:CH1,DC,1X,BWL

  /** A channel argument: its tag, the channel number and its options in
    * the order given. */
  datatype ChannelArg = ChannelArg(tag: string, ch: int, options: seq<string>)

  predicate IsChannelOption(w: string)
  {
    EqI(w, "AC") || EqI(w, "DC") || EqI(w, "1X") || EqI(w, "10X")
    || EqI(w, "BWL") || EqI(w, "BW") || EqI(w, "-BWL") || EqI(w, "-BW")
  }

  /** The options written back as the argument ends: each after a comma. */
  function Prefixed(ws: seq<string>): string
  {
    if ws == [] then [] else "," + ws[0] + Prefixed(ws[1..])
  }

  /** At most k groups (?:,(AC|DC|1X|10X|-?BWL?))? that make up all of s. */
  function ChannelOptions(s: string, k: nat): (r: Option<seq<string>>)
    ensures r.Some? ==> |r.value| <= k && s == Prefixed(r.value)
    ensures r.Some? ==> forall i :: 0 <= i < |r.value| ==> IsChannelOption(r.value[i])
    decreases |s|
  {
    if s == [] then Some([])
    else if k == 0 || s[0] != ',' then None
    else
      var j := CommaFrom(s, 1);
      var w := s[1..j];
      if !IsChannelOption(w) then None
      else match ChannelOptions(s[j..], k - 1)
        case None => None
        case Some(ws) =>
          var r := [w] + ws;
          assert r[0] == w && r[1..] == ws;
          assert forall i :: 1 <= i < |r| ==> r[i] == ws[i - 1];
          assert s[..1] == "," && s == s[..1] + s[1..j] + s[j..];
          Some(r)
  }

  /** regex_oscope_ch:
    * ^(IN?|O(?:UT)?)(?::|=)(?:C|CH)?([1-4])(?:,(option))?(?:,(option))?(?:,(option))?$
    * in any case. */
  function ChannelArgOf(arg: string): (r: Option<ChannelArg>)
    ensures r.Some? ==> 1 <= r.value.ch <= 4 && |r.value.options| <= 3
    ensures r.Some? ==> forall i :: 0 <= i < |r.value.options| ==> IsChannelOption(r.value.options[i])
  {
    match TagEnd(arg, ChannelTags)
    case None => None
    case Some(p) =>
      var rest := arg[p + 1..];
      var c := if HasAtI(rest, 0, "CH") then 2 else if HasAtI(rest, 0, "C") then 1 else 0;
      if c < |rest| && '1' <= rest[c] <= '4' then
        match ChannelOptions(rest[c + 1..], 3)
        case None => None
        case Some(opts) => Some(ChannelArg(arg[..p], rest[c] as int - '0' as int, opts))
      else None
  }

  /** What one option does to a channel: the coupling, the probe
    * attenuation, or the bandwidth limit (on unless the option starts
    * with '-'). */
  function ChannelOption(w: string, c: FR.ChannelConfig): (r: FR.ChannelConfig)
    requires IsChannelOption(w)
    ensures EqI(w, "AC") ==> r == c.(coup := FR.AC)
    ensures EqI(w, "DC") ==> r == c.(coup := FR.DC)
    ensures EqI(w, "1X") ==> r == c.(atten := Num(1.0))
    ensures EqI(w, "10X") ==> r == c.(atten := Num(10.0))
    ensures EqI(w, "BWL") || EqI(w, "BW") ==> r == c.(bwl := true)
    ensures EqI(w, "-BWL") || EqI(w, "-BW") ==> r == c.(bwl := false)
  {
    SameIcaseMeans(w, "AC");
    SameIcaseMeans(w, "DC");
    SameIcaseMeans(w, "1X");
    SameIcaseMeans(w, "10X");
    if SameIcase(w, "AC") || SameIcase(w, "DC") then
      c.(coup := if Upper(w[0]) == 'A' then FR.AC else FR.DC)
    else if SameIcase(w, "1X") || SameIcase(w, "10X") then
      c.(atten := if Upper(w[1]) == 'X' then Num(1.0) else Num(10.0))
    else
      c.(bwl := w[0] != '-')
  }

  /** The options applied in the order given. */
  function ApplyOptions(ws: seq<string>, c: FR.ChannelConfig): (r: FR.ChannelConfig)
    requires forall i :: 0 <= i < |ws| ==> IsChannelOption(ws[i])
    ensures r.ch == c.ch
  {
    if ws == [] then c else ApplyOptions(ws[1..], ChannelOption(ws[0], c))
  }

  /** The idx_flag loop: the matched option groups, in order. */
  method SetChannelOptions(ws: seq<string>, c0: FR.ChannelConfig) returns (c: FR.ChannelConfig)
    requires forall i :: 0 <= i < |ws| ==> IsChannelOption(ws[i])
    ensures c == ApplyOptions(ws, c0)
  {
    c := c0;
    var k := 0;
    while k < |ws|
      invariant 0 <= k <= |ws|
      invariant ApplyOptions(ws[k..], c) == ApplyOptions(ws, c0)
    {
      assert ws[k..][1..] == ws[k + 1..];
      c := ChannelOption(ws[k], c);
      k := k + 1;
    }
  }

  /** Whether a channel argument sets the input, as the pattern's tags
    * evidently mean: its tag is I or IN. */
  predicate NamesInput(tag: string) { SameIcase(tag, "IN") || SameIcase(tag, "I") }

  /** Whether a channel argument sets the input, as the argument loop
    * decides: only the tag IN does, so I: sets the output channel although
    * the pattern accepts I as the input's short form. */
  predicate NamesInputAsWritten(tag: string) { SameIcase(tag, "IN") }

  /** The channel number and then its options, on the input or the output. */
  function SetChannelOn(input: bool, a: ChannelArg, st: Settings): Settings
    requires forall i :: 0 <= i < |a.options| ==> IsChannelOption(a.options[i])
  {
    if input then st.(cfg := st.cfg.(input := ApplyOptions(a.options, st.cfg.input.(ch := a.ch))))
    else st.(cfg := st.cfg.(output := ApplyOptions(a.options, st.cfg.output.(ch := a.ch))))
  }

  // ---------------------------------------------------------------------
  // Frequencies: FREQ:20-20kHz,LOG(50)

  /** The two numbers and their K or M suffixes, and the sweep kind and
    * point count when the argument gives them. */
  datatype FreqArg = FreqArg(start: string, startSuffix: string, stop: string, stopSuffix: string,
                             sweep: Option<(string, string)>)

  predicate IsKiloMega(c: char) { c == 'k' || c == 'K' || c == 'm' || c == 'M' }

  /** (\+?number)(K|M)?(?:HZ)? from i: the end of the number, of its
    * suffix, and of the whole. */
  function FreqNumber(s: string, i: nat): (r: (nat, nat, nat))
    requires i <= |s|
    ensures i <= r.0 <= r.1 <= r.2 <= |s|
  {
    var e := NumberEnd(s, if i < |s| && s[i] == '+' then i + 1 else i);
    var k := if e < |s| && IsKiloMega(s[e]) then e + 1 else e;
    (e, k, if HasAtI(s, k, "HZ") then k + 2 else k)
  }

  /** \,(LOG|LIN)(?:\(|\[)([0-9]+)(?:\)|\]) as all of t: the kind and the
    * digits. */
  function SweepText(t: string): (r: Option<(string, string)>)
    ensures r.Some? ==> r.value.1 != [] && AllDigits(r.value.1)
  {
    if 7 <= |t| && t[0] == ',' && (EqI(t[1..4], "LOG") || EqI(t[1..4], "LIN"))
       && (t[4] == '(' || t[4] == '[') && (t[|t| - 1] == ')' || t[|t| - 1] == ']')
       && AllDigits(t[5..|t| - 1])
    then Some((t[1..4], t[5..|t| - 1]))
    else None
  }

  /** regex_freq_spec after its tag: two numbers joined by '-', each with
    * an optional K or M and HZ, then optionally the sweep. */
  function FreqRange(s: string): (r: Option<FreqArg>)
    ensures r.Some? && r.value.sweep.Some? ==> r.value.sweep.value.1 != [] && AllDigits(r.value.sweep.value.1)
  {
    var n1 := FreqNumber(s, 0);
    if n1.2 < |s| && s[n1.2] == '-' then RangeEnd(s, n1, FreqNumber(s, n1.2 + 1)) else None
  }

  /** The range once both numbers are read: the end of the text, or the
    * sweep text after it. */
  function RangeEnd(s: string, n1: (nat, nat, nat), n2: (nat, nat, nat)): (r: Option<FreqArg>)
    requires n1.0 <= n1.1 <= n1.2 < n2.0 <= n2.1 <= n2.2 <= |s|
    ensures r.Some? && r.value.sweep.Some? ==> r.value.sweep.value.1 != [] && AllDigits(r.value.sweep.value.1)
  {
    var f := FreqArg(s[..n1.0], s[n1.0..n1.1], s[n1.2 + 1..n2.0], s[n2.0..n2.1], None);
    if n2.2 == |s| then Some(f)
    else match SweepText(s[n2.2..])
      case None => None
      case Some(sw) => Some(f.(sweep := Some(sw)))
  }

  /** regex_freq_spec in any case. */
  function FreqArgOf(arg: string): (r: Option<FreqArg>)
    ensures r.Some? && r.value.sweep.Some? ==> r.value.sweep.value.1 != [] && AllDigits(r.value.sweep.value.1)
  {
    match TagEnd(arg, FreqTags)
    case None => None
    case Some(p) => FreqRange(arg[p + 1..])
  }

  /** The value of a text of decimal digits. */
  function DecimalValue(s: string): nat
    requires AllDigits(s)
  {
    if s == [] then 0 else 10 * DecimalValue(s[..|s| - 1]) + (s[|s| - 1] as int - '0' as int)
  }

  /** stoi of the point count, stored in the unsigned 32-bit Npoints. */
  function PointCount(digits: string): FR.uint32
    requires AllDigits(digits)
  {
    (DecimalValue(digits) % 0x1_0000_0000) as FR.uint32
  }

  function FreqInto(stod: string -> Double, f: FreqArg, fr: FR.FreqConfig): FR.FreqConfig
    requires f.sweep.Some? ==> AllDigits(f.sweep.value.1)
  {
    var fr1 := fr.(fStart := ToValue(stod, f.start, f.startSuffix, ""),
                   fStop := ToValue(stod, f.stop, f.stopSuffix, ""));
    match f.sweep
    case None => fr1
    case Some(sw) =>
      var fr2 := fr1.(sweep := if SameIcase(sw.0, "LOG") then FR.LOG else FR.LIN);
      if sw.1 != [] then fr2.(nPoints := PointCount(sw.1)) else fr2
  }

  // ---------------------------------------------------------------------
  // Dwell: DWELL:SLOW, MID, FAST, NORM(AL) or DEF(AULT)

  predicate IsDwellWord(w: string)
  {
    EqI(w, "SLOW") || EqI(w, "MID") || EqI(w, "FAST") || EqI(w, "NORM") || EqI(w, "NORMAL")
    || EqI(w, "DEF") || EqI(w, "DEFAULT")
  }

  /** regex_dwell_spec: the dwell word. */
  function DwellArgOf(arg: string): (r: Option<string>)
    ensures r.Some? ==> IsDwellWord(r.value)
  {
    match TagEnd(arg, DwellTags)
    case None => None
    case Some(p) => if IsDwellWord(arg[p + 1..]) then Some(arg[p + 1..]) else None
  }

  /** FAST waits 1.5 stable screens and at least 250 ms, SLOW 2.5 and
    * 1000 ms, every other word 2.0 and 500 ms. */
  function DwellProfile(w: string): (d: FR.DwellConfig)
    ensures EqI(w, "FAST") ==> d == FR.DwellConfig(Num(1.5), 250)
    ensures EqI(w, "SLOW") ==> d == FR.DwellConfig(Num(2.5), 1000)
    ensures !EqI(w, "FAST") && !EqI(w, "SLOW") ==> d == FR.DwellConfig(Num(2.0), 500)
  {
    SameIcaseMeans(w, "FAST");
    SameIcaseMeans(w, "SLOW");
    if SameIcase(w, "FAST") then FR.DwellConfig(Num(1.5), 250)
    else if SameIcase(w, "SLOW") then FR.DwellConfig(Num(2.5), 1000)
    else FR.DwellConfig(Num(2.0), 500)
  }

  // ---------------------------------------------------------------------
  // What the evaluated specifications change

  /** A stimulus amplitude (already peak to peak) replaces the old one and
    * brings its offset with it; a channel S1 or S2 selects 1 or 2. */
  function StimInto(spec: StimSpec, s: FR.StimConfig): FR.StimConfig
  {
    var s1 := if spec.vpp.NaN? then s
      else s.(vstim := spec.vpp, vtStim := FR.VPP, vdc := if spec.vdc.NaN? then s.vdc else spec.vdc);
    match spec.ch
    case StimUnspec => s1
    case S1 => s1.(ch := 1)
    case S2 => s1.(ch := 2)
  }

  function MeasInto(spec: MeasSpec, m: FR.MeasConfig): FR.MeasConfig
  {
    m.(vtMeas := match spec.vspec case VoltUnspec => m.vtMeas case MeasVpp => FR.VPP case MeasVpk => FR.VPK,
       ttMeas := match spec.tspec case TimeUnspec => m.ttMeas case MeasPhase => FR.PHASE case MeasDelay => FR.DELAY)
  }

  function LogInto(spec: LogSpec, f: FileConfig): FileConfig
  {
    var f1 := if spec.filename != [] then f.(filename := spec.filename) else f;
    match spec.console
    case ConsoleUnspec => f1
    case Echo => f1.(isEcho := true)
    case Quiet => f1.(isEcho := false)
  }

  /** Only the fields the specification names change. */
  function TrigInto(spec: TrigSpec, t: FR.TrigConfig): FR.TrigConfig
  {
    t.(ch := match spec.ch
          case TrigUnspec => t.ch case TrigCh1 => 1 case TrigCh2 => 2 case TrigCh3 => 3 case TrigCh4 => 4
          case TrigIn => ChTrigIn case TrigOut => ChTrigOut,
       coup := match spec.coup case CoupUnspec => t.coup case CoupAC => FR.AC case CoupDC => FR.DC,
       edge := match spec.edge case EdgeUnspec => t.edge case Rising => FR.RISE case Falling => FR.FALL,
       vTrig := if spec.voltage.NaN? then t.vTrig else spec.voltage)
  }

  // ---------------------------------------------------------------------
  // One argument

  /** What an understood argument asks for, once its pattern has matched
    * and its specification has been evaluated. */
  datatype Action =
    | SetChannel(chan: ChannelArg)
    | SetStim(stim: StimSpec)
    | SetFreq(freq: FreqArg)
    | SetMeas(meas: MeasSpec)
    | SetLog(log: LogSpec)
    | SetDwell(word: string)
    | SetTrig(trig: TrigSpec)

  /** An action as the parser can produce it. */
  predicate WellFormed(act: Action)
  {
    match act
    case SetChannel(a) => forall i :: 0 <= i < |a.options| ==> IsChannelOption(a.options[i])
    case SetFreq(f) => f.sweep.Some? ==> AllDigits(f.sweep.value.1)
    case _ => true
  }

  /** The patterns are tried in the source's order: channel, stimulus,
    * frequency, measurement, log, dwell, trigger. An argument whose
    * specification does not evaluate, or that no pattern matches, is a
    * syntax error (None). */
  function Classify(stod: string -> Double, arg: string): (r: Option<Action>)
    ensures r.Some? ==> WellFormed(r.value)
  {
    match ChannelArgOf(arg)
    case Some(a) => Some(SetChannel(a))
    case None =>
    match Tagged(arg, StimTags)
    case Some(spec) => var e := EvalStim(stod, spec); if e.ok then Some(SetStim(e.spec)) else None
    case None =>
    match FreqArgOf(arg)
    case Some(f) => Some(SetFreq(f))
    case None =>
    match Tagged(arg, MeasTags)
    case Some(spec) => var e := EvalMeas(spec); if e.ok then Some(SetMeas(e.spec)) else None
    case None =>
    match Tagged(arg, LogTags)
    case Some(spec) => var e := EvalLog(spec); if e.ok then Some(SetLog(e.spec)) else None
    case None =>
    match DwellArgOf(arg)
    case Some(w) => Some(SetDwell(w))
    case None =>
    match Tagged(arg, TrigTags)
    case Some(spec) => var e := EvalTrig(stod, spec); if e.ok then Some(SetTrig(e.spec)) else None
    case None => None
  }

  /** What an action changes in the settings. */
  function Perform(stod: string -> Double, act: Action, st: Settings): Settings
    requires WellFormed(act)
  {
    match act
    case SetChannel(a) => SetChannelOn(NamesInputAsWritten(a.tag), a, st)
    case SetStim(spec) => st.(cfg := st.cfg.(stim := StimInto(spec, st.cfg.stim)))
    case SetFreq(f) => st.(cfg := st.cfg.(freq := FreqInto(stod, f, st.cfg.freq)))
    case SetMeas(spec) => st.(cfg := st.cfg.(meas := MeasInto(spec, st.cfg.meas)))
    case SetLog(spec) => st.(file := LogInto(spec, st.file))
    case SetDwell(w) => st.(cfg := st.cfg.(dwell := DwellProfile(w)))
    case SetTrig(spec) => st.(cfg := st.cfg.(trig := TrigInto(spec, st.cfg.trig)))
  }

  /** What one argument does to the settings, or None for a syntax error. */
  function ArgStep(stod: string -> Double, arg: string, st: Settings): Option<Settings>
  {
    match Classify(stod, arg)
    case None => None
    case Some(act) => Some(Perform(stod, act, st))
  }

  /** The pattern tests of one pass of the argument loop, with the
    * Eval*Spec calls they lead to. */
  method ClassifyArgument(stod: string -> Double, arg: string) returns (act: Option<Action>)
    ensures act == Classify(stod, arg)
  {
    var chan := ChannelArgOf(arg);
    if chan.Some? {
      return Some(SetChannel(chan.value));
    }
    var stim := Tagged(arg, StimTags);
    if stim.Some? {
      var ok, spec := EvalStimSpec(stod, stim.value);
      return if ok then Some(SetStim(spec)) else None;
    }
    var freq := FreqArgOf(arg);
    if freq.Some? {
      return Some(SetFreq(freq.value));
    }
    var meas := Tagged(arg, MeasTags);
    if meas.Some? {
      var ok, spec := EvalMeasSpec(meas.value);
      return if ok then Some(SetMeas(spec)) else None;
    }
    var log := Tagged(arg, LogTags);
    if log.Some? {
      var ok, spec := EvalLogSpec(log.value);
      return if ok then Some(SetLog(spec)) else None;
    }
    var dwell := DwellArgOf(arg);
    if dwell.Some? {
      return Some(SetDwell(dwell.value));
    }
    var trig := Tagged(arg, TrigTags);
    if trig.Some? {
      var ok, spec := EvalTrigSpec(stod, trig.value);
      return if ok then Some(SetTrig(spec)) else None;
    }
    return None;
  }

  /** The assignments of one pass of the argument loop. */
  method PerformAction(stod: string -> Double, act: Action, st: Settings) returns (next: Settings)
    requires WellFormed(act)
    ensures next == Perform(stod, act, st)
  {
    match act
    case SetChannel(a) =>
      if NamesInputAsWritten(a.tag) {
        var c := SetChannelOptions(a.options, st.cfg.input.(ch := a.ch));
        next := st.(cfg := st.cfg.(input := c));
      } else {
        var c := SetChannelOptions(a.options, st.cfg.output.(ch := a.ch));
        next := st.(cfg := st.cfg.(output := c));
      }
    case _ =>
      next := Perform(stod, act, st);
  }

  // ---------------------------------------------------------------------
  // The whole command line

  /** The trigger on the input or output follows that channel's final
    * number; then the sanity checks run in order and the first that fails
    * decides the message. */
  function Finish(st: Settings): Parsed
  {
    var t := st.cfg.trig;
    var ch := if t.ch == ChTrigIn then st.cfg.input.ch else if t.ch == ChTrigOut then st.cfg.output.ch else t.ch;
    var s := st.(cfg := st.cfg.(trig := t.(ch := ch)));
    if s.cfg.input.ch == s.cfg.output.ch then Parsed(ReturnSetupError, SameChannelsError, s)
    else if Le(s.cfg.freq.fStop, s.cfg.freq.fStart) then Parsed(ReturnSetupError, StopFrequencyError, s)
    else if s.cfg.freq.nPoints < 2 then Parsed(ReturnSetupError, PointsError, s)
    else if Le(s.cfg.stim.vstim, Num(0.0)) then Parsed(ReturnSetupError, AmplitudeError, s)
    else Parsed(ReturnSuccess, "", s)
  }

  /** The argument loop from argv[i] on. */
  function ParseFrom(stod: string -> Double, argv: seq<string>, i: nat, st: Settings): Parsed
    decreases |argv| - i
  {
    if i >= |argv| then Finish(st)
    else match ArgStep(stod, argv[i], st)
      case None => Parsed(ReturnSyntaxError, argv[i], st)
      case Some(next) => ParseFrom(stod, argv, i + 1, next)
  }

  /** MeasureResponseParse: argv[0], the program name, is skipped. */
  function Parse(stod: string -> Double, argv: seq<string>): Parsed
  {
    ParseFrom(stod, argv, 1, Defaults)
  }

  method MeasureResponseParse(stod: string -> Double, argv: seq<string>)
    returns (code: int, error: string, settings: Settings)
    ensures Parsed(code, error, settings) == Parse(stod, argv)
  {
    error := "";
    settings := Defaults;
    var i := 1;
    while i < |argv|
      invariant 1 <= i
      invariant ParseFrom(stod, argv, i, settings) == Parse(stod, argv)
      decreases |argv| - i
    {
      var act := ClassifyArgument(stod, argv[i]);
      if act.None? {
        error := argv[i];
        code := ReturnSyntaxError;
        return;
      }
      settings := PerformAction(stod, act.value, settings);
      i := i + 1;
    }
    code, error, settings := FinishSettings(settings);
  }

  /** After the loop: resolve the trigger channel, then the setup checks in
    * order. */
  method FinishSettings(st: Settings) returns (code: int, error: string, settings: Settings)
    ensures Parsed(code, error, settings) == Finish(st)
  {
    settings := st;
    error := "";
    var trig := settings.cfg.trig;
    if trig.ch == ChTrigIn {
      settings := settings.(cfg := settings.cfg.(trig := trig.(ch := settings.cfg.input.ch)));
    } else if trig.ch == ChTrigOut {
      settings := settings.(cfg := settings.cfg.(trig := trig.(ch := settings.cfg.output.ch)));
    }
    if settings.cfg.input.ch == settings.cfg.output.ch {
      error := SameChannelsError;
      code := ReturnSetupError;
      return;
    }
    if Le(settings.cfg.freq.fStop, settings.cfg.freq.fStart) {
      error := StopFrequencyError;
      code := ReturnSetupError;
      return;
    }
    if settings.cfg.freq.nPoints < 2 {
      error := PointsError;
      code := ReturnSetupError;
      return;
    }
    if Le(settings.cfg.stim.vstim, Num(0.0)) {
      error := AmplitudeError;
      code := ReturnSetupError;
      return;
    }
    code := ReturnSuccess;
  }

  // ---------------------------------------------------------------------
  // Properties of the command line

  /** An argument the parser understands; whether it is does not depend on
    * the arguments before it. */
  predicate Recognised(stod: string -> Double, arg: string)
  {
    Classify(stod, arg).Some?
  }

  /** Recognised as a function value. */
  function RecognisedBy(stod: string -> Double): string -> bool
  {
    arg => Recognised(stod, arg)
  }

  /** The first argument from argv[i] on that known rejects, or |argv|
    * when there is none. */
  function FirstUnknown(known: string -> bool, argv: seq<string>, i: nat): (k: nat)
    requires i <= |argv|
    ensures i <= k <= |argv|
    ensures k < |argv| ==> !known(argv[k])
    ensures forall j :: i <= j < k ==> known(argv[j])
    decreases |argv| - i
  {
    if i == |argv| || !known(argv[i]) then i else FirstUnknown(known, argv, i + 1)
  }

  /** Parsing from argv[i] ends in a syntax error exactly when some later
    * argument is not understood, and the error text is then the first
    * such argument; otherwise the checks decide. */
  lemma {:induction false} ParseFromOutcome(stod: string -> Double, argv: seq<string>, i: nat, st: Settings)
    requires i <= |argv|
    ensures var p := ParseFrom(stod, argv, i, st); var k := FirstUnknown(RecognisedBy(stod), argv, i);
      && (p.code == ReturnSyntaxError <==> k < |argv|)
      && (k < |argv| ==> p.error == argv[k])
      && (p.code != ReturnSyntaxError ==> p.code == ReturnSuccess || p.code == ReturnSetupError)
    decreases |argv| - i
  {
    if i < |argv| {
      match ArgStep(stod, argv[i], st)
      case None =>
      case Some(next) =>
        ParseFromOutcome(stod, argv, i + 1, next);
    }
  }

  /** MeasureResponseParse's verdict: a syntax error names the first
    * argument that is not understood, and one only comes from such an
    * argument. */
  lemma ParseSyntax(stod: string -> Double, argv: seq<string>)
    ensures var p := Parse(stod, argv);
      && (p.code == ReturnSyntaxError <==> exists k :: 1 <= k < |argv| && !Recognised(stod, argv[k]))
      && (p.code == ReturnSyntaxError ==>
            exists k :: 1 <= k < |argv| && !Recognised(stod, argv[k]) && p.error == argv[k]
                     && forall j :: 1 <= j < k ==> Recognised(stod, argv[j]))
      && (p.code == ReturnSuccess || p.code == ReturnSyntaxError || p.code == ReturnSetupError)
  {
    if |argv| <= 1 {
    } else {
      ParseFromOutcome(stod, argv, 1, Defaults);
      var k := FirstUnknown(RecognisedBy(stod), argv, 1);
      if k < |argv| {
        assert !Recognised(stod, argv[k]);
      }
    }
  }

  /** The channel numbers the arguments can set: 1 to 4 on the scope, 1
    * or 2 on the generator, and the trigger on one of the scope's channels
    * or still on the input or output placeholder. */
  predicate InRange(st: Settings)
  {
    && 1 <= st.cfg.input.ch <= 4 && 1 <= st.cfg.output.ch <= 4
    && 1 <= st.cfg.stim.ch <= 2
    && (st.cfg.trig.ch == ChTrigIn || st.cfg.trig.ch == ChTrigOut || 1 <= st.cfg.trig.ch <= 4)
  }

  lemma PerformInRange(stod: string -> Double, act: Action, st: Settings)
    requires WellFormed(act) && InRange(st)
    requires act.SetChannel? ==> 1 <= act.chan.ch <= 4
    ensures InRange(Perform(stod, act, st))
  {
  }

  lemma ArgStepInRange(stod: string -> Double, arg: string, st: Settings)
    requires InRange(st)
    ensures ArgStep(stod, arg, st).Some? ==> InRange(ArgStep(stod, arg, st).value)
  {
    match Classify(stod, arg)
    case None =>
    case Some(act) =>
      assert act.SetChannel? ==> ChannelArgOf(arg) == Some(act.chan);
      PerformInRange(stod, act, st);
  }

  lemma {:induction false} ParseFromInRange(stod: string -> Double, argv: seq<string>, i: nat, st: Settings)
    requires InRange(st)
    ensures var p := ParseFrom(stod, argv, i, st);
      p.code == ReturnSyntaxError || (InRange(p.settings) && 1 <= p.settings.cfg.trig.ch <= 4)
    decreases |argv| - i
  {
    if i < |argv| {
      ArgStepInRange(stod, argv[i], st);
      match ArgStep(stod, argv[i], st)
      case None =>
      case Some(next) => ParseFromInRange(stod, argv, i + 1, next);
    }
  }

  /** A command line that parses successfully gives two different scope
    * channels for input and output, a trigger on a real scope channel, a
    * stop frequency that is not at or below the start, at least two
    * points and an amplitude that is not at or below zero; a setup error
    * carries the message of the check that failed. */
  lemma ParseSucceeds(stod: string -> Double, argv: seq<string>)
    ensures var p := Parse(stod, argv); var c := p.settings.cfg;
      p.code == ReturnSuccess ==>
        && p.error == ""
        && 1 <= c.input.ch <= 4 && 1 <= c.output.ch <= 4 && c.input.ch != c.output.ch
        && 1 <= c.trig.ch <= 4 && 1 <= c.stim.ch <= 2
        && !Le(c.freq.fStop, c.freq.fStart) && c.freq.nPoints >= 2 && !Le(c.stim.vstim, Num(0.0))
    ensures var p := Parse(stod, argv);
      p.code == ReturnSetupError ==>
        p.error in {SameChannelsError, StopFrequencyError, PointsError, AmplitudeError}
  {
    ParseFromInRange(stod, argv, 1, Defaults);
    SetupOutcome(stod, argv, 1, Defaults);
  }

  lemma {:induction false} SetupOutcome(stod: string -> Double, argv: seq<string>, i: nat, st: Settings)
    ensures var p := ParseFrom(stod, argv, i, st); var c := p.settings.cfg;
      && (p.code == ReturnSuccess ==>
            p.error == "" && c.input.ch != c.output.ch
            && !Le(c.freq.fStop, c.freq.fStart) && c.freq.nPoints >= 2 && !Le(c.stim.vstim, Num(0.0)))
      && (p.code == ReturnSetupError ==>
            p.error in {SameChannelsError, StopFrequencyError, PointsError, AmplitudeError})
    decreases |argv| - i
  {
    if i < |argv| {
      match ArgStep(stod, argv[i], st)
      case None =>
      case Some(next) => SetupOutcome(stod, argv, i + 1, next);
    }
  }

  /** With no arguments the defaults pass every check: a logarithmic sweep
    * of 10 points from 1 kHz to 10 kHz at 1 Vpp on generator channel 1,
    * input on scope channel 1, output on 2, and the trigger on the
    * input's channel 1. */
  lemma DefaultsAccepted(stod: string -> Double, program: string)
    ensures Parse(stod, [program]) ==
      Parsed(ReturnSuccess, "", Defaults.(cfg := Defaults.cfg.(trig := Defaults.cfg.trig.(ch := 1))))
  {
  }

  // ---------------------------------------------------------------------
  // The parser and FreqResponse's Init

  /** Every voltage and frequency of the settings is a finite number. */
  predicate Finite(st: Settings)
  {
    && st.cfg.freq.fStart.Num? && st.cfg.freq.fStop.Num?
    && st.cfg.stim.vstim.Num? && st.cfg.stim.vdc.Num?
    && st.cfg.trig.vTrig.Num?
  }

  /** The voltages an action carries are numbers or unset. */
  predicate ActionNumbers(act: Action)
  {
    match act
    case SetStim(spec) => StimNumbers(spec)
    case SetTrig(spec) => TrigNumbers(spec)
    case _ => true
  }

  lemma ClassifyNumbers(stod: string -> Double, arg: string)
    requires NumericReader(stod)
    ensures Classify(stod, arg).Some? ==> ActionNumbers(Classify(stod, arg).value)
  {
    if ChannelArgOf(arg).None? {
      var stim := Tagged(arg, StimTags);
      if stim.Some? {
        EvalStimNumbers(stod, stim.value);
      } else if FreqArgOf(arg).None? && Tagged(arg, MeasTags).None? && Tagged(arg, LogTags).None?
        && DwellArgOf(arg).None? && Tagged(arg, TrigTags).Some? {
        EvalTrigNumbers(stod, Tagged(arg, TrigTags).value);
      }
    }
  }

  lemma PerformFinite(stod: string -> Double, act: Action, st: Settings)
    requires NumericReader(stod) && WellFormed(act) && ActionNumbers(act) && Finite(st)
    ensures Finite(Perform(stod, act, st))
  {
    if act.SetFreq? {
      ToValueNumber(stod, act.freq.start, act.freq.startSuffix, "");
      ToValueNumber(stod, act.freq.stop, act.freq.stopSuffix, "");
    }
  }

  lemma {:induction false} ParseFromFinite(stod: string -> Double, argv: seq<string>, i: nat, st: Settings)
    requires NumericReader(stod) && Finite(st)
    ensures Finite(ParseFrom(stod, argv, i, st).settings)
    decreases |argv| - i
  {
    if i < |argv| {
      ClassifyNumbers(stod, argv[i]);
      match Classify(stod, argv[i])
      case None =>
      case Some(act) =>
        PerformFinite(stod, act, st);
        ParseFromFinite(stod, argv, i + 1, Perform(stod, act, st));
    }
  }

  /** With a reader that yields numbers, a command line that parses
    * successfully passes Init's stimulus and trigger checks, and its
    * frequency check exactly when the start frequency is above zero: the
    * one condition Init checks that the parser does not. */
  lemma ParseMeetsInit(stod: string -> Double, argv: seq<string>)
    requires NumericReader(stod)
    ensures var p := Parse(stod, argv); var c := p.settings.cfg;
      p.code == ReturnSuccess ==>
        && FR.StimValid(c.stim) && FR.TrigValid(c.trig)
        && (FR.FreqValid(c.freq) <==> !Le(c.freq.fStart, Num(0.0)))
        && FR.ValidationCode(c.freq, c.stim, c.trig)
           == (if Le(c.freq.fStart, Num(0.0)) then FR.InvalidFrequency else FR.Success)
  {
    ParseFromFinite(stod, argv, 1, Defaults);
    ParseSucceeds(stod, argv);
  }

  // ---------------------------------------------------------------------
  // The short input tag I

  /** As the pattern's tags mean, a channel argument sets the input exactly
    * when its tag starts with I, in any case: IN and I select the input,
    * OUT and O the output. As the loop decides, only the two-letter tag IN
    * does. */
  lemma ChannelSide(arg: string)
    requires ChannelArgOf(arg).Some?
    ensures var a := ChannelArgOf(arg).value;
      && (NamesInput(a.tag) <==> SameLetterI(arg[0], 'I'))
      && (NamesInputAsWritten(a.tag) <==> SameLetterI(arg[0], 'I') && |a.tag| == 2)
  {
    var p := TagEnd(arg, ChannelTags).value;
    var tag := arg[..p];
    TagEndFinds(arg, ChannelTags);
    var k :| 0 <= k < |ChannelTags| && TagIs(arg, ChannelTags[k]) && p == |ChannelTags[k]|;
    SameIcaseMeans(tag, "IN");
    SameIcaseMeans(tag, "I");
    assert EqI(tag, ChannelTags[k]);
    assert tag[0] == arg[0];
    assert SameLetterI(tag[0], ChannelTags[k][0]);
  }

  /** The channel argument as the tags evidently mean it, with I selecting
    * the input like IN. */
  function ChannelStepIntended(arg: string, st: Settings): (r: Option<Settings>)
    ensures r.Some? <==> ChannelArgOf(arg).Some?
    ensures r.Some? && SameLetterI(arg[0], 'I') ==> r.value.cfg.output == st.cfg.output
  {
    match ChannelArgOf(arg)
    case None => None
    case Some(a) =>
      ChannelSide(arg);
      Some(SetChannelOn(NamesInput(a.tag), a, st))
  }

  /** I:n sets the output channel to n, as written, although the pattern
    * reads I as the input; read as intended it sets the input. */
  lemma ShortInputTag(stod: string -> Double, st: Settings, d: char)
    requires '1' <= d <= '4'
    ensures var n := (d - '0') as int;
      && ArgStep(stod, ['I', ':', d], st) == Some(st.(cfg := st.cfg.(output := st.cfg.output.(ch := n))))
      && ChannelStepIntended(['I', ':', d], st) == Some(st.(cfg := st.cfg.(input := st.cfg.input.(ch := n))))
  {
    var arg := ['I', ':', d];
    var n := (d - '0') as int;
    assert !TagIs(arg, "IN") && TagIs(arg, "I");
    assert TagEnd(arg, ChannelTags) == Some(1);
    var rest := arg[2..];
    assert rest == [d];
    assert !SameLetterI(d, 'C');
    assert !HasAtI(rest, 0, "C") by { assert rest[0..1][0] == d; }
    assert !HasAtI(rest, 0, "CH");
    assert rest[1..] == [];
    assert ChannelOptions([], n) == Some([]);
    assert arg[..1] == "I";
    assert ChannelArgOf(arg) == Some(ChannelArg("I", n, []));
    SameIcaseMeans("I", "IN");
    SameIcaseMeans("I", "I");
  }

  /** So "prog I:2" is accepted with the input still on channel 1 and the
    * output on 2; read as intended, it puts both on channel 2 and is
    * refused as a setup error. */
  lemma ShortInputTagParse(stod: string -> Double)
    ensures var p := Parse(stod, ["prog", "I:2"]);
      p.code == ReturnSuccess && p.settings.cfg.input.ch == 1 && p.settings.cfg.output.ch == 2
    ensures var both := Defaults.(cfg := Defaults.cfg.(input := Defaults.cfg.input.(ch := 2)));
      && ChannelStepIntended("I:2", Defaults) == Some(both)
      && Finish(both).code == ReturnSetupError && Finish(both).error == SameChannelsError
  {
    ShortInputTag(stod, Defaults, '2');
    assert "I:2" == ['I', ':', '2'];
  }

  // ---------------------------------------------------------------------
  // Frequency arguments

  /** The decimal text of n, without leading zeros. */
  function DecimalText(n: nat): (t: string)
    ensures t != [] && AllDigits(t)
  {
    var d := ['0' + (n % 10) as char];
    if n < 10 then d else DecimalText(n / 10) + d
  }

  /** Reading the decimal text of n gives n back. */
  lemma {:induction false} DecimalRoundTrip(n: nat)
    ensures DecimalValue(DecimalText(n)) == n
  {
    var t := DecimalText(n);
    if n >= 10 {
      DecimalRoundTrip(n / 10);
      assert t[..|t| - 1] == DecimalText(n / 10);
    }
  }

  /** An argument F:... has its tag end at index 1. */
  lemma FreqTagOf(rest: string)
    ensures TagEnd("F:" + rest, FreqTags) == Some(1)
  {
    var arg := "F:" + rest;
    assert !TagIs(arg, "FREQ") by { assert arg[1] == ':'; }
    assert TagIs(arg, "F") by { assert arg[..1] == "F"; }
  }

  /** A run of n > 0 digits at i, followed by the end, '-' or ',', is a
    * number with no suffix and no HZ. */
  lemma FreqNumberOfDigits(s: string, i: nat, n: nat)
    requires 0 < n && i + n <= |s| && forall k :: i <= k < i + n ==> IsDigit(s[k])
    requires i + n < |s| ==> s[i + n] == '-' || s[i + n] == ','
    ensures FreqNumber(s, i) == (i + n, i + n, i + n)
  {
    NumberEndOfDigits(s, i, n);
    if i + n + 2 <= |s| {
      assert s[i + n..i + n + 2][0] == s[i + n];
      assert !SameLetterI(s[i + n], 'H');
    }
  }

  /** ,LIN(n) or ,LOG(n) read as the sweep text. */
  lemma SweepTextOf(kind: string, n: string)
    requires n != [] && AllDigits(n) && (kind == "LIN" || kind == "LOG")
    ensures SweepText("," + kind + "(" + n + ")") == Some((kind, n))
  {
    var t := "," + kind + "(" + n + ")";
    assert t[1..4] == kind && t[5..|t| - 1] == n;
  }

  /** Digits up to m, '-', then digits up to e and the end or ',': two
    * numbers with no suffix, ending at m and at e. */
  lemma FreqNumbersOfDigits(s: string, m: nat, e: nat)
    requires 0 < m && m + 1 < e <= |s| && s[m] == '-' && (e < |s| ==> s[e] == ',')
    requires forall k :: 0 <= k < e && k != m ==> IsDigit(s[k])
    ensures FreqNumber(s, 0) == (m, m, m) && FreqNumber(s, m + 1) == (e, e, e)
  {
    FreqNumberOfDigits(s, 0, m);
    FreqNumberOfDigits(s, m + 1, e - m - 1);
  }

  /** Two numbers with no suffix, joined by '-' and running to the end. */
  lemma RangeEndPlain(s: string, m: nat)
    requires 0 < m && m + 1 < |s|
    ensures RangeEnd(s, (m, m, m), (|s|, |s|, |s|)) == Some(FreqArg(s[..m], "", s[m + 1..], "", None))
  {
    assert s[m..m] == [] && s[|s|..|s|] == [] && s[m + 1..|s|] == s[m + 1..];
  }

  /** Two numbers with no suffix, joined by '-', then a sweep text. */
  lemma RangeEndSweep(s: string, m: nat, e: nat, sw: (string, string))
    requires 0 < m && m + 1 < e < |s| && SweepText(s[e..]) == Some(sw)
    ensures RangeEnd(s, (m, m, m), (e, e, e)) == Some(FreqArg(s[..m], "", s[m + 1..e], "", Some(sw)))
  {
    assert s[m..m] == [] && s[e..e] == [];
  }

  /** The pieces of a-b followed by t, by position. */
  lemma DashJoined(a: string, b: string, t: string)
    requires AllDigits(a) && AllDigits(b)
    ensures var s := a + "-" + b + t;
      && s[|a|] == '-' && s[..|a|] == a && s[|a| + 1..|a| + 1 + |b|] == b && s[|a| + 1 + |b|..] == t
      && forall k :: 0 <= k < |a| + 1 + |b| && k != |a| ==> IsDigit(s[k])
  {
    var u := a + "-" + b;
    var s := u + t;
    forall k | 0 <= k < |a| + 1 + |b| && k != |a|
      ensures IsDigit(s[k])
    {
      assert s[k] == u[k];
      if k < |a| {
        assert u[k] == a[k];
      } else {
        assert u[k] == b[k - |a| - 1];
      }
    }
    assert s[..|a|] == u[..|a|] == a;
    assert s[|a| + 1..|a| + 1 + |b|] == u[|a| + 1..] == b;
  }

  /** a-b, two digit strings, then a sweep text t: the range with that
    * sweep. */
  lemma FreqRangeJoined(a: string, b: string, t: string, sw: (string, string))
    requires a != [] && AllDigits(a) && b != [] && AllDigits(b)
    requires t != [] && t[0] == ',' && SweepText(t) == Some(sw)
    ensures FreqRange(a + "-" + b + t) == Some(FreqArg(a, "", b, "", Some(sw)))
  {
    var s := a + "-" + b + t;
    var e := |a| + 1 + |b|;
    DashJoined(a, b, t);
    assert s[e] == s[e..][0] == ',';
    FreqRangeAt(s, |a|, e, sw);
  }

  /** Digits, '-', digits up to e, then a sweep text: the range with that
    * sweep. */
  lemma FreqRangeAt(s: string, m: nat, e: nat, sw: (string, string))
    requires 0 < m && m + 1 < e < |s| && s[m] == '-' && s[e] == ','
    requires forall k :: 0 <= k < e && k != m ==> IsDigit(s[k])
    requires SweepText(s[e..]) == Some(sw)
    ensures FreqRange(s) == Some(FreqArg(s[..m], "", s[m + 1..e], "", Some(sw)))
  {
    FreqNumbersOfDigits(s, m, e);
    RangeEndSweep(s, m, e, sw);
  }

  /** F:a-b with two digit strings: the start and stop texts, no suffixes
    * and no sweep. */
  lemma FreqOfDigits(a: string, b: string)
    requires a != [] && AllDigits(a) && b != [] && AllDigits(b)
    ensures FreqArgOf("F:" + a + "-" + b) == Some(FreqArg(a, "", b, "", None))
  {
    var s := a + "-" + b;
    assert "F:" + a + "-" + b == "F:" + s;
    FreqTagOf(s);
    assert ("F:" + s)[2..] == s;
    DashJoined(a, b, []);
    assert s + [] == s;
    FreqNumbersOfDigits(s, |a|, |s|);
    RangeEndPlain(s, |a|);
  }

  /** F:a-b,LIN(n) or F:a-b,LOG(n): the sweep kind and the digits of the
    * point count as well. */
  lemma FreqSweepOfDigits(a: string, b: string, kind: string, n: string)
    requires a != [] && AllDigits(a) && b != [] && AllDigits(b) && n != [] && AllDigits(n)
    requires kind == "LIN" || kind == "LOG"
    ensures FreqArgOf("F:" + a + "-" + b + "," + kind + "(" + n + ")")
            == Some(FreqArg(a, "", b, "", Some((kind, n))))
  {
    var t := "," + kind + "(" + n + ")";
    var s := a + "-" + b + t;
    assert "F:" + a + "-" + b + "," + kind + "(" + n + ")" == "F:" + s;
    FreqTagOf(s);
    assert ("F:" + s)[2..] == s;
    SweepTextOf(kind, n);
    FreqRangeJoined(a, b, t, (kind, n));
  }

  /** No name of the list matches an argument whose first letter none of
    * them starts with. */
  lemma NoTag(arg: string, names: seq<string>)
    requires arg != []
    requires forall k :: 0 <= k < |names| ==> names[k] != [] && !SameLetterI(arg[0], names[k][0])
    ensures TagEnd(arg, names).None?
  {
    forall k | 0 <= k < |names|
      ensures !TagIs(arg, names[k])
    {
    }
  }

  /** An argument F:... that reads as a frequency argument is one: the
    * channel and stimulus patterns do not match it. */
  lemma ClassifyFreq(stod: string -> Double, rest: string)
    requires FreqArgOf("F:" + rest).Some?
    ensures Classify(stod, "F:" + rest) == Some(SetFreq(FreqArgOf("F:" + rest).value))
  {
    var arg := "F:" + rest;
    assert !SameLetterI('F', 'I') && !SameLetterI('F', 'O') && !SameLetterI('F', 'S');
    NoTag(arg, ChannelTags);
    NoTag(arg, StimTags);
  }

  /** The point count read from the decimal text of a 32-bit count is
    * that count. */
  lemma PointCountOfText(count: nat)
    requires count < 0x1_0000_0000
    ensures PointCount(DecimalText(count)) == count as FR.uint32
  {
    DecimalRoundTrip(count);
  }

  /** A linear sweep argument's numbers and point count, assigned. */
  lemma LinearSweepInto(stod: string -> Double, a: string, b: string, n: string, fr: FR.FreqConfig)
    requires AllDigits(n) && n != []
    ensures FreqInto(stod, FreqArg(a, "", b, "", Some(("LIN", n))), fr)
            == FR.FreqConfig(stod(a), stod(b), FR.LIN, PointCount(n))
  {
    SameIcaseMeans("LIN", "LOG");
    assert SuffixScale("") == None;
  }

  /** F:a-b,LIN(count) is read as a frequency argument that sets the
    * start and stop frequencies to what stod reads, a linear sweep and the
    * point count, whatever was set before. */
  lemma LinearSweepArgument(stod: string -> Double, a: string, b: string, count: nat, fr: FR.FreqConfig)
    requires a != [] && AllDigits(a) && b != [] && AllDigits(b) && count < 0x1_0000_0000
    ensures var f := FreqArg(a, "", b, "", Some(("LIN", DecimalText(count))));
      && FreqArgOf("F:" + a + "-" + b + ",LIN(" + DecimalText(count) + ")") == Some(f)
      && FreqInto(stod, f, fr) == FR.FreqConfig(stod(a), stod(b), FR.LIN, count as FR.uint32)
  {
    var n := DecimalText(count);
    assert "F:" + a + "-" + b + ",LIN(" + n + ")" == "F:" + a + "-" + b + "," + "LIN" + "(" + n + ")";
    FreqSweepOfDigits(a, b, "LIN", n);
    PointCountOfText(count);
    LinearSweepInto(stod, a, b, n, fr);
  }
}
