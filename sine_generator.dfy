// The SineGenerator driver for a two-channel signal generator: each setting
// is one text command over the shared transport, and the optional settings
// of SetChannel go out in a fixed order until one of them is refused.

module SineGen {
  import opened Numbers
  import opened SocketInstrument

  datatype Channel = CH1 | CH2

  /** GetChannelString: "1" for CH1 and "2" for CH2. */
  function ChannelString(ch: Channel): (r: string)
    ensures |r| == 1 && '1' <= r[0] <= '2'
  {
    match ch
    case CH1 => "1"
    case CH2 => "2"
  }

  /** Distinct channels are addressed by distinct strings. */
  lemma ChannelStringInjective(a: Channel, b: Channel)
    ensures ChannelString(a) == ChannelString(b) <==> a == b
  {
    if a != b {
      assert ChannelString(a)[0] != ChannelString(b)[0];
    }
  }

  // ---------------------------------------------------------------------
  // Phase

  /** CoercePhase: phase - 360 * floor(phase / 360). An infinite phase gives
    * inf - inf, which is NaN. */
  function CoercePhase(phase: Double): (r: Double)
    ensures phase.Num? <==> r.Num?
  {
    match phase
    case Num(p) => Num(p - 360.0 * (p / 360.0).Floor as real)
    case _ => NaN
  }

  /** k whole turns, in degrees. */
  function Turns(k: int): real { 360.0 * k as real }

  /** A wrapped phase lies in [0, 360) and differs from the input by a whole
    * number of turns. */
  lemma CoercePhaseRange(p: real)
    ensures var r := CoercePhase(Num(p)).v;
      0.0 <= r < 360.0 && exists k: int :: p - r == Turns(k)
  {
    var k := (p / 360.0).Floor;
    var r := CoercePhase(Num(p)).v;
    assert k as real <= p / 360.0 < k as real + 1.0;
    assert p - r == Turns(k);
  }

  /** The wrapped phase is the only angle in [0, 360) that differs from the
    * input by a whole number of turns. */
  lemma CoercePhaseUnique(p: real, r: real, k: int)
    requires 0.0 <= r < 360.0 && p - r == Turns(k)
    ensures CoercePhase(Num(p)) == Num(r)
  {
    var j := (p / 360.0).Floor;
    assert j as real <= p / 360.0 < j as real + 1.0;
    assert k as real <= p / 360.0 < k as real + 1.0;
    assert j == k;
  }

  /** Wrapping an already wrapped phase changes nothing. */
  lemma CoercePhaseIdempotent(phase: Double)
    ensures CoercePhase(CoercePhase(phase)) == CoercePhase(phase)
  {
    if phase.Num? {
      CoercePhaseRange(phase.v);
      var r := CoercePhase(phase).v;
      CoercePhaseUnique(r, r, 0);
    }
  }

  // ---------------------------------------------------------------------
  // Commands

  /** One setting of SetChannel, with the value it sends. */
  datatype Setting = Freq(hz: Double) | Amplitude(vpp: Double) | Offset(volts: Double) | Phase(degrees: Double)

  /** The text of one setting on a channel; a phase is sent wrapped. */
  function SettingCommand(conv: Conversions, ch: Channel, x: Setting): string
  {
    var head := ":SOUR" + ChannelString(ch);
    match x
    case Freq(f) => head + ":FREQ " + conv.toString(f)
    case Amplitude(v) => head + ":VOLT " + conv.toString(v)
    case Offset(v) => head + ":VOLT:OFFS " + conv.toString(v)
    case Phase(p) => head + ":PHAS " + conv.toString(CoercePhase(p))
  }

  /** The settings SetChannel sends: the parameters that are not NaN, in
    * the order frequency, amplitude, offset, phase. */
  function ChannelSettings(freq: Double, vpp: Double, voffs: Double, phase: Double): seq<Setting>
  {
    IfGiven(Freq(freq)) + IfGiven(Amplitude(vpp)) + IfGiven(Offset(voffs)) + IfGiven(Phase(phase))
  }

  /** The value a setting carries. */
  function Value(x: Setting): Double
  {
    match x
    case Freq(f) => f
    case Amplitude(v) => v
    case Offset(v) => v
    case Phase(p) => p
  }

  /** The setting alone, or nothing when its value is NaN. */
  function IfGiven(x: Setting): seq<Setting>
  {
    if Value(x).NaN? then [] else [x]
  }

  /** Each parameter is sent exactly when it is not NaN, at most once, and
    * with the value given. */
  lemma ChannelSettingsChosen(freq: Double, vpp: Double, voffs: Double, phase: Double)
    ensures var xs := ChannelSettings(freq, vpp, voffs, phase);
      && (exists i :: 0 <= i < |xs| && xs[i].Freq?) == !freq.NaN?
      && (exists i :: 0 <= i < |xs| && xs[i].Amplitude?) == !vpp.NaN?
      && (exists i :: 0 <= i < |xs| && xs[i].Offset?) == !voffs.NaN?
      && (exists i :: 0 <= i < |xs| && xs[i].Phase?) == !phase.NaN?
      && |xs| == (if freq.NaN? then 0 else 1) + (if vpp.NaN? then 0 else 1)
                 + (if voffs.NaN? then 0 else 1) + (if phase.NaN? then 0 else 1)
      && (forall i | 0 <= i < |xs| && xs[i].Freq? :: xs[i] == Freq(freq))
      && (forall i | 0 <= i < |xs| && xs[i].Amplitude? :: xs[i] == Amplitude(vpp))
      && (forall i | 0 <= i < |xs| && xs[i].Offset? :: xs[i] == Offset(voffs))
      && (forall i | 0 <= i < |xs| && xs[i].Phase? :: xs[i] == Phase(phase))
  {
    var a := IfGiven(Freq(freq));
    var b := IfGiven(Amplitude(vpp));
    var c := IfGiven(Offset(voffs));
    var d := IfGiven(Phase(phase));
    var xs := ChannelSettings(freq, vpp, voffs, phase);
    assert xs == a + b + c + d;
    if !freq.NaN? { assert xs[0].Freq?; }
    if !vpp.NaN? { assert xs[|a|].Amplitude?; }
    if !voffs.NaN? { assert xs[|a| + |b|].Offset?; }
    if !phase.NaN? { assert xs[|a| + |b| + |c|].Phase?; }
  }

  /** Order on the wire: a setting kind's rank. */
  function Rank(x: Setting): nat
  {
    match x
    case Freq(_) => 0
    case Amplitude(_) => 1
    case Offset(_) => 2
    case Phase(_) => 3
  }

  /** The settings go out in the order frequency, amplitude, offset, phase. */
  lemma ChannelSettingsOrdered(freq: Double, vpp: Double, voffs: Double, phase: Double)
    ensures var xs := ChannelSettings(freq, vpp, voffs, phase);
      forall i, j | 0 <= i < j < |xs| :: Rank(xs[i]) < Rank(xs[j])
  {
    var a := IfGiven(Freq(freq));
    var b := IfGiven(Amplitude(vpp));
    var c := IfGiven(Offset(voffs));
    var d := IfGiven(Phase(phase));
    var xs := ChannelSettings(freq, vpp, voffs, phase);
    assert xs == a + b + c + d;
    forall i | 0 <= i < |xs|
      ensures Rank(xs[i]) == if i < |a| then 0 else if i < |a| + |b| then 1
                             else if i < |a| + |b| + |c| then 2 else 3
    {
    }
  }

  function SettingCommands(conv: Conversions, ch: Channel, xs: seq<Setting>): (r: seq<string>)
    ensures |r| == |xs|
  {
    seq(|xs|, i requires 0 <= i < |xs| => SettingCommand(conv, ch, xs[i]))
  }

  /** The phase command always carries the wrapped phase. */
  lemma PhaseCommandWrapped(conv: Conversions, ch: Channel, p: real)
    ensures exists r: real :: (0.0 <= r < 360.0
      && SettingCommand(conv, ch, Phase(Num(p))) == ":SOUR" + ChannelString(ch) + ":PHAS " + conv.toString(Num(r)))
  {
    CoercePhaseRange(p);
    var r := CoercePhase(Num(p)).v;
    assert SettingCommand(conv, ch, Phase(Num(p))) == ":SOUR" + ChannelString(ch) + ":PHAS " + conv.toString(Num(r));
  }

  /** The fixed default: 1 kHz, 1 Vpp, no offset, on CH1 at 0 and CH2 at
    * 90 degrees. */
  const DefaultSetup: seq<string> := [":SOUR1:APPL:SIN 1000,1,0,0", ":SOUR2:APPL:SIN 1000,1,0,90"]

  /** ":OUTP<n> ON" or ":OUTP<n> OFF". */
  function OutputCommand(ch: Channel, on: bool): string
  {
    ":OUTP" + ChannelString(ch) + " " + (if on then "ON" else "OFF")
  }

  /** The output command names its channel and state unambiguously. */
  lemma OutputCommandInjective(c1: Channel, o1: bool, c2: Channel, o2: bool)
    ensures OutputCommand(c1, o1) == OutputCommand(c2, o2) <==> c1 == c2 && o1 == o2
  {
    var t1 := OutputCommand(c1, o1);
    var t2 := OutputCommand(c2, o2);
    if t1 == t2 {
      assert t1[5] == ChannelString(c1)[0] && t2[5] == ChannelString(c2)[0];
      ChannelStringInjective(c1, c2);
      assert |t1| == (if o1 then 9 else 10) && |t2| == (if o2 then 9 else 10);
    }
  }

  function AlignCommand(ch: Channel): string
  {
    ":SOUR" + ChannelString(ch) + ":PHAS:SYNC"
  }

  // ---------------------------------------------------------------------
  // The operations over a connection

  /** One more setting after r, unless r was refused or the setting's
    * value is NaN. */
  function Given(r: Step<bool>, conv: Conversions, ch: Channel, x: Setting): Step<bool>
  {
    if !r.val || Value(x).NaN? then r else WriteOn(r.link, SettingCommand(conv, ch, x))
  }

  /** SetChannel: each parameter that is not NaN is written, in order, as
    * long as the writes before it went through. */
  function SetChannelOn(s: Link, conv: Conversions, ch: Channel, freq: Double, vpp: Double,
                        voffs: Double, phase: Double): Step<bool>
  {
    var r1 := Given(Step(s, true), conv, ch, Freq(freq));
    var r2 := Given(r1, conv, ch, Amplitude(vpp));
    var r3 := Given(r2, conv, ch, Offset(voffs));
    Given(r3, conv, ch, Phase(phase))
  }

  /** Offering one more setting continues the chain of writes. */
  lemma ChainGiven(s: Link, conv: Conversions, ch: Channel, xs: seq<Setting>, x: Setting)
    ensures WriteChain(s, SettingCommands(conv, ch, xs + IfGiven(x)))
            == Given(WriteChain(s, SettingCommands(conv, ch, xs)), conv, ch, x)
  {
    if !Value(x).NaN? {
      assert SettingCommands(conv, ch, xs + [x]) == SettingCommands(conv, ch, xs) + [SettingCommand(conv, ch, x)];
      WriteChainSnoc(s, SettingCommands(conv, ch, xs), SettingCommand(conv, ch, x));
    } else {
      assert xs + [] == xs;
    }
  }

  /** SetChannel is the chain of writes of its chosen settings. */
  lemma SetChannelIsChain(s: Link, conv: Conversions, ch: Channel, freq: Double, vpp: Double,
                          voffs: Double, phase: Double)
    ensures SetChannelOn(s, conv, ch, freq, vpp, voffs, phase)
            == WriteChain(s, SettingCommands(conv, ch, ChannelSettings(freq, vpp, voffs, phase)))
  {
    var a := IfGiven(Freq(freq));
    var b := a + IfGiven(Amplitude(vpp));
    var c := b + IfGiven(Offset(voffs));
    assert [] + a == a;
    assert SettingCommands(conv, ch, []) == [];
    ChainGiven(s, conv, ch, [], Freq(freq));
    ChainGiven(s, conv, ch, a, Amplitude(vpp));
    ChainGiven(s, conv, ch, b, Offset(voffs));
    ChainGiven(s, conv, ch, c, Phase(phase));
  }

  /** With every parameter NaN, SetChannel sends nothing and succeeds. */
  lemma SetChannelNothing(s: Link, conv: Conversions, ch: Channel)
    ensures SetChannelOn(s, conv, ch, NaN, NaN, NaN, NaN) == Step(s, true)
  {
  }

  /** SetChannel delivers the commands of the chosen settings before the
    * first refusal, in order, never one after it, and succeeds exactly when
    * all of them went through. */
  lemma SetChannelDelivers(s: Link, conv: Conversions, ch: Channel, freq: Double, vpp: Double,
                           voffs: Double, phase: Double)
    ensures var cs := SettingCommands(conv, ch, ChannelSettings(freq, vpp, voffs, phase));
      var k := Delivered(s.attached, s.sendOk, |cs|);
      var r := SetChannelOn(s, conv, ch, freq, vpp, voffs, phase);
      && r.link.written == s.written + Lines(cs[..k])
      && (r.val <==> k == |cs|)
  {
    var cs := SettingCommands(conv, ch, ChannelSettings(freq, vpp, voffs, phase));
    SetChannelIsChain(s, conv, ch, freq, vpp, voffs, phase);
    WritesDeliversPrefix(s, cs);
  }

  /** The default setup sends its second command only after the first went
    * through, and succeeds only when both did. */
  lemma DefaultSetupDelivers(s: Link)
    ensures var r := WriteChain(s, DefaultSetup);
      && (r.val <==> Accepts(s) && Accepts(WriteOn(s, DefaultSetup[0]).link))
      && r.link.written == if !Accepts(s) then s.written
                           else WriteOn(WriteOn(s, DefaultSetup[0]).link, DefaultSetup[1]).link.written
  {
    var w := WriteOn(s, DefaultSetup[0]);
    assert DefaultSetup[1..] == [DefaultSetup[1]];
    assert WriteChain(s, DefaultSetup) == if !w.val then Step(w.link, false) else WriteChain(w.link, [DefaultSetup[1]]);
    if w.val {
      assert [DefaultSetup[1]][1..] == [];
    }
  }

  // ---------------------------------------------------------------------
  // The driver object

  class SineGenerator {
    const port: Transport
    const conv: Conversions

    constructor(port: Transport, conv: Conversions)
      ensures this.port == port && this.conv == conv
    {
      this.port := port;
      this.conv := conv;
    }

    /** Attach, then send the default setup; success needs both. */
    method Attach(resource: string) returns (ok: bool)
      modifies port, port.lib
      ensures var attachedOk := old(port.lib.started) && ExtractAddrPort(resource).Some?
                                && ExtractAddrPort(resource).value in port.reachable;
        var setup := WriteChain(old(port.State()).(attached := true), DefaultSetup);
        && ok == (attachedOk && setup.val)
        && port.State() == if attachedOk then setup.link else old(port.State()).(attached := false)
      ensures port.lib.started == old(port.lib.started)
      ensures port.lib.attachedCount == old(port.lib.attachedCount) - (if old(port.attached) then 1 else 0)
                                        + (if port.State().attached then 1 else 0)
    {
      ok := port.Attach(resource);
      if ok {
        ok := SetupSineGeneratorDefault();
      }
    }

    method Detach() returns (ok: bool)
      modifies port, port.lib
      ensures ok && port.State() == old(port.State()).(attached := false)
      ensures port.lib.started == old(port.lib.started)
      ensures port.lib.attachedCount == old(port.lib.attachedCount) - (if old(port.attached) then 1 else 0)
    {
      ok := port.Detach();
    }

    method SetupSineGeneratorDefault() returns (ok: bool)
      modifies port
      ensures Step(port.State(), ok) == WriteChain(old(port.State()), DefaultSetup)
    {
      ghost var s0 := port.State();
      WriteChainSnoc(s0, [], DefaultSetup[0]);
      ok := false;
      var first := port.Write(DefaultSetup[0]);
      assert [DefaultSetup[0]] + [DefaultSetup[1]] == DefaultSetup;
      WriteChainSnoc(s0, [DefaultSetup[0]], DefaultSetup[1]);
      if first {
        ok := port.Write(DefaultSetup[1]);
      }
    }

    /** Send each setting that is given (not NaN), in order, while the
      * writes go through. */
    method SetChannel(ch: Channel, freq: Double, vpp: Double, voffs: Double, phase: Double) returns (ok: bool)
      modifies port
      ensures Step(port.State(), ok) == SetChannelOn(old(port.State()), conv, ch, freq, vpp, voffs, phase)
    {
      ok := SendIfGiven(ch, true, Freq(freq));
      ok := SendIfGiven(ch, ok, Amplitude(vpp));
      ok := SendIfGiven(ch, ok, Offset(voffs));
      ok := SendIfGiven(ch, ok, Phase(phase));
    }

    /** One step of SetChannel: the setting is sent when the writes before
      * it went through and its value is not NaN. */
    method SendIfGiven(ch: Channel, okSoFar: bool, x: Setting) returns (ok: bool)
      modifies port
      ensures Step(port.State(), ok) == Given(Step(old(port.State()), okSoFar), conv, ch, x)
    {
      ok := okSoFar;
      if ok && !Value(x).NaN? {
        ok := SendSetting(ch, x);
      }
    }

    /** One setting's command: the shared body of SetChannelFreq, Vpp,
      * Voffs and Phase. */
    method SendSetting(ch: Channel, x: Setting) returns (ok: bool)
      modifies port
      ensures Step(port.State(), ok) == WriteOn(old(port.State()), SettingCommand(conv, ch, x))
    {
      var strCh := ChannelString(ch);
      var command: string;
      match x {
        case Freq(f) => command := ":SOUR" + strCh + ":FREQ " + conv.toString(f);
        case Amplitude(v) => command := ":SOUR" + strCh + ":VOLT " + conv.toString(v);
        case Offset(v) => command := ":SOUR" + strCh + ":VOLT:OFFS " + conv.toString(v);
        case Phase(p) => command := ":SOUR" + strCh + ":PHAS " + conv.toString(CoercePhase(p));
      }
      ok := port.Write(command);
    }

    method SetChannelFreq(ch: Channel, freq: Double) returns (ok: bool)
      modifies port
      ensures Step(port.State(), ok) == WriteOn(old(port.State()), SettingCommand(conv, ch, Freq(freq)))
    {
      ok := SendSetting(ch, Freq(freq));
    }

    method SetChannelVpp(ch: Channel, vpp: Double) returns (ok: bool)
      modifies port
      ensures Step(port.State(), ok) == WriteOn(old(port.State()), SettingCommand(conv, ch, Amplitude(vpp)))
    {
      ok := SendSetting(ch, Amplitude(vpp));
    }

    method SetChannelVoffs(ch: Channel, voffs: Double) returns (ok: bool)
      modifies port
      ensures Step(port.State(), ok) == WriteOn(old(port.State()), SettingCommand(conv, ch, Offset(voffs)))
    {
      ok := SendSetting(ch, Offset(voffs));
    }

    method SetChannelPhase(ch: Channel, phase: Double) returns (ok: bool)
      modifies port
      ensures Step(port.State(), ok) == WriteOn(old(port.State()), SettingCommand(conv, ch, Phase(phase)))
    {
      ok := SendSetting(ch, Phase(phase));
    }

    method AlignChannel(ch: Channel) returns (ok: bool)
      modifies port
      ensures Step(port.State(), ok) == WriteOn(old(port.State()), AlignCommand(ch))
    {
      ok := port.Write(":SOUR" + ChannelString(ch) + ":PHAS:SYNC");
    }

    method SetChannelOutput(ch: Channel, output: bool) returns (ok: bool)
      modifies port
      ensures Step(port.State(), ok) == WriteOn(old(port.State()), OutputCommand(ch, output))
    {
      var strOutput := if output then "ON" else "OFF";
      ok := port.Write(":OUTP" + ChannelString(ch) + " " + strOutput);
    }
  }
}
