// The Oscilloscope driver object: each operation exchanges lines over its
// transport exactly as the matching function of module Scope describes.

module OscilloscopeDriver {
  import opened Numbers
  import opened SocketInstrument
  import opened ScopeTables
  import opened ScopeReplies
  import opened Scope

  /** The volts/div search of SetChannelVolts: the first entry of the
    * table with the setting. */
  method LookupVolts(table: seq<VoltagePair>, vdiv: VoltsPerDiv) returns (text: Option<string>)
    ensures text == VoltsText(table, vdiv)
  {
    var i := 0;
    while i < |table|
      invariant 0 <= i <= |table|
      invariant FirstIndex(Vdivs(table), vdiv, 0) == FirstIndex(Vdivs(table), vdiv, i)
    {
      if table[i].vdiv == vdiv {
        return Some(table[i].str);
      }
      i := i + 1;
    }
    return None;
  }

  /** The time/div search of SetTimebase(tdiv, delay). */
  method LookupTime(table: seq<TimePair>, tdiv: TimeDiv) returns (text: Option<string>)
    ensures text == TimeTextIn(table, tdiv)
  {
    var i := 0;
    while i < |table|
      invariant 0 <= i <= |table|
      invariant FirstIndex(TimeDivs(table), tdiv, 0) == FirstIndex(TimeDivs(table), tdiv, i)
    {
      if table[i].tdiv == tdiv {
        return Some(table[i].str);
      }
      i := i + 1;
    }
    return None;
  }

  /** The parameter search of Measure, falling back to the first token. */
  method LookupMeasToken(table: seq<MeasPair>, par: MeasParam) returns (token: string)
    requires table != []
    ensures token == MeasTokenIn(table, par)
  {
    token := table[0].str;
    var i := 0;
    while i < |table|
      invariant 0 <= i <= |table|
      invariant FirstIndex(MeasParams(table), par, 0) == FirstIndex(MeasParams(table), par, i)
    {
      if table[i].par == par {
        return table[i].str;
      }
      i := i + 1;
    }
  }

  /** The parameter search of MeasureDelay, with the same fallback. */
  method LookupMeasDelToken(table: seq<MeasDelPair>, par: MeasDelParam) returns (token: string)
    requires table != []
    ensures token == MeasDelTokenIn(table, par)
  {
    token := table[0].str;
    var i := 0;
    while i < |table|
      invariant 0 <= i <= |table|
      invariant FirstIndex(MeasDelParams(table), par, 0) == FirstIndex(MeasDelParams(table), par, i)
    {
      if table[i].par == par {
        return table[i].str;
      }
      i := i + 1;
    }
  }

  /** The running minimum of AdjustChannelVolts: the distance starts at
    * infinity and a strictly smaller one takes over. */
  method Closest(table: seq<real>, v: Double) returns (choose: int)
    ensures choose == Nearest(table, v)
  {
    var best := Inf(false);
    choose := -1;
    var i := 0;
    while i < |table|
      invariant 0 <= i <= |table|
      invariant v.Num? ==> choose == NearestIn(table, v.v, i)
      invariant v.Num? && i > 0 ==> best == Num(Dist(v.v, table[choose]))
      invariant (!v.Num? || i == 0) ==> choose == -1 && best == Inf(false)
    {
      var delta := Abs(Sub(v, Num(table[i])));
      if Lt(delta, best) {
        best := delta;
        choose := i;
      }
      i := i + 1;
    }
  }

  /** The search of SetTimebase(capture): the first entry but the last whose
    * seconds per division reach capture / 14, else the last. */
  method PickTimebaseEntry(tcapture: Double) returns (entry: TimePair)
    ensures entry == TimebaseEntry(tcapture)
  {
    var tdiv := Div(tcapture, Num(NTimeDivisions as real));
    var secs := Seconds(TimePairs);
    var k := |TimePairs| - 1;
    var i := 0;
    while i < |TimePairs| - 1
      invariant 0 <= i <= |TimePairs| - 1
      invariant PickFrom(secs, tdiv, 0) == PickFrom(secs, tdiv, i)
    {
      if Le(tdiv, Num(TimePairs[i].sec)) {
        k := i;
        break;
      }
      i := i + 1;
    }
    assert k == PickTimebase(tcapture);
    entry := TimePairs[k];
  }

  class Oscilloscope {
    const port: Transport
    const conv: Conversions

    constructor(port: Transport, conv: Conversions)
      ensures this.port == port && this.conv == conv
    {
      this.port := port;
      this.conv := conv;
    }

    /** Attach to the instrument and, once attached, send the default
      * setup (whose outcomes are ignored). */
    method Attach(resource: string) returns (ok: bool)
      modifies port, port.lib
      ensures ok == (old(port.lib.started) && ExtractAddrPort(resource).Some?
                     && ExtractAddrPort(resource).value in port.reachable)
      ensures port.State() == if ok then DefaultSetupOn(old(port.State()).(attached := true), conv)
                              else old(port.State()).(attached := false)
      ensures port.lib.started == old(port.lib.started)
      ensures port.lib.attachedCount == old(port.lib.attachedCount) - (if old(port.attached) then 1 else 0) + (if ok then 1 else 0)
    {
      ok := port.Attach(resource);
      if ok {
        SetupOscilloscopeDefault();
      }
    }

    method Detach() returns (ok: bool)
      modifies port, port.lib
      ensures ok && port.State() == old(port.State()).(attached := false)
      ensures port.lib.started == old(port.lib.started)
      ensures port.lib.attachedCount == old(port.lib.attachedCount) - (if old(port.attached) then 1 else 0)
    {
      ok := port.Detach();
    }

    method SetupOscilloscopeDefault()
      modifies port
      ensures port.State() == DefaultSetupOn(old(port.State()), conv)
    {
      WriteEach(SetupPreamble);
      ApplyDefaultSettings();
    }

    /** The default setup after its fixed commands; every outcome is
      * ignored. */
    method ApplyDefaultSettings()
      modifies port
      ensures port.State() == DefaultSettingsOn(old(port.State()), conv)
    {
      var _ := SetTimebaseDiv(T_1mS, Num(0.0));
      SetupChannelDefaults();
      var _ := SetEdgeTrigger(CH1, RISING, Num(0.0), DC, false, Num(0.0));
      var _ := SetTriggerMode(AUTO);
    }

    /** The default setup's loop over channels 1 to 4. */
    method SetupChannelDefaults()
      modifies port
      ensures port.State() == ChannelDefaultsUpTo(old(port.State()), conv, NChannels + 1)
    {
      ghost var s0 := port.State();
      var i := 1;
      while i <= NChannels
        invariant 1 <= i <= NChannels + 1
        invariant port.State() == ChannelDefaultsUpTo(s0, conv, i)
      {
        SetupChannelDefault(i);
        i := i + 1;
      }
    }

    /** Writes whose outcomes are ignored. */
    method WriteEach(commands: seq<string>)
      modifies port
      ensures port.State() == WriteEachOn(old(port.State()), commands)
    {
      ghost var s0 := port.State();
      var n := 0;
      while n < |commands|
        invariant 0 <= n <= |commands|
        invariant port.State() == WriteEachOn(s0, commands[..n])
      {
        assert commands[..n + 1][..n] == commands[..n] && commands[..n + 1][n] == commands[n];
        assert WriteEachOn(s0, commands[..n + 1]) == WriteOn(WriteEachOn(s0, commands[..n]), commands[n]).link;
        var _ := port.Write(commands[n]);
        n := n + 1;
      }
      assert commands[..n] == commands;
    }

    /** The body of the default setup's channel loop, for channel i. */
    method SetupChannelDefault(i: int)
      modifies port
      ensures port.State() == ChannelDefaultOn(old(port.State()), conv, i)
    {
      var ch := GetChannel(i);
      var _ := SetChannelEx(ch, false, V_1V, Num(0.0), DC, BWL_FULL, AT_10X, INV_OFF);
      var _ := SetChannelUnit(ch, V);
      var _ := SetChannelSkew(ch, Num(0.0));
      if i > 2 {
        var _ := SetChannelEnable(ch, false);
      }
    }

    method SetTriggerMode(mode: TriggerMode) returns (ok: bool)
      modifies port
      ensures Step(port.State(), ok) == SetTriggerModeOn(old(port.State()), mode)
    {
      ok := port.Write("TRMD " + TriggerModeText(mode));
    }

    /** Send commands in order while each one goes through. */
    method WriteChained(commands: seq<string>) returns (ok: bool)
      modifies port
      ensures Step(port.State(), ok) == WriteChain(old(port.State()), commands)
    {
      var s0 := port.State();
      ok := true;
      var i := 0;
      while i < |commands| && ok
        invariant 0 <= i <= |commands|
        invariant WriteChain(s0, commands) == if ok then WriteChain(port.State(), commands[i..]) else Step(port.State(), false)
      {
        assert commands[i..][1..] == commands[i + 1..];
        ok := port.Write(commands[i]);
        i := i + 1;
      }
      assert ok ==> commands[i..] == [];
    }

    method SetEdgeTrigger(ch: Channel, edge: EdgeType, voltage: Double, coup: Coupling, holdoff: bool, tHoldoff: Double)
      returns (ok: bool)
      modifies port
      ensures Step(port.State(), ok) == SetEdgeTriggerOn(old(port.State()), conv, ch, edge, voltage, coup, holdoff, tHoldoff)
    {
      ghost var s0 := port.State();
      ghost var q := QueryOn(s0, ChannelString(ch) + ":ATTN?");
      ghost var spec := SetEdgeTriggerOn(s0, conv, ch, edge, voltage, coup, holdoff, tHoldoff);
      var response;
      ok, response := port.Query(ChannelString(ch) + ":ATTN?", "");
      assert port.State() == q.link && (ok <==> q.val.Some?);
      if ok {
        assert response == q.val.value;
        var attn := EdgeAttnValue(response);
        if attn.Some? {
          var commands := EdgeTriggerCommands(conv, ch, edge, Div(voltage, conv.stod(attn.value)), coup, holdoff, tHoldoff);
          assert spec == WriteChain(q.link, commands);
          ok := WriteChained(commands);
        } else {
          assert spec == Step(q.link, false);
          ok := false;
        }
      } else {
        assert spec == Step(q.link, false);
      }
    }

    method SetChannelEnable(ch: Channel, enabled: bool) returns (ok: bool)
      modifies port
      ensures Step(port.State(), ok) == SetChannelEnableOn(old(port.State()), ch, enabled)
    {
      if enabled {
        ok := port.Write(ChannelString(ch) + ":TRACE ON");
      } else {
        ok := port.Write(ChannelString(ch) + ":TRACE OFF");
      }
    }

    method ReadChannelAtten(ch: Channel) returns (atten: Double)
      modifies port
      ensures Step(port.State(), atten) == ReadChannelAttenOn(old(port.State()), conv, ch)
    {
      var _, reply := port.Query(ChannelString(ch) + ":ATTN?", "");
      match AttnValue(reply)
      case Some(g) => atten := conv.stod(g);
      case None => atten := Num(0.0);
    }

    method SetChannelVolts(ch: Channel, vdiv: VoltsPerDiv, offset: Double) returns (ok: bool)
      modifies port
      ensures Step(port.State(), ok) == SetChannelVoltsOn(old(port.State()), conv, ch, vdiv, offset)
    {
      ghost var spec := SetChannelVoltsOn(port.State(), conv, ch, vdiv, offset);
      ghost var a := ReadChannelAttenOn(port.State(), conv, ch);
      var vAtten := ReadChannelAtten(ch);
      assert port.State() == a.link && vAtten == a.val;
      ok := false;
      if KnownAtten(vAtten) {
        var table := PairTable(vAtten);
        var text := LookupVolts(table, vdiv);
        if text.Some? {
          ghost var w := WriteOn(a.link, ChannelString(ch) + ":VDIV " + text.value);
          ok := port.Write(ChannelString(ch) + ":VDIV " + text.value);
          assert spec == if w.val then SetChannelOffsetOn(w.link, conv, ch, offset) else w;
        } else {
          assert spec == Step(a.link, false);
        }
        if ok {
          ok := SetChannelOffset(ch, offset);
        }
      } else {
        assert spec == Step(a.link, false);
      }
    }

    method SetChannelVoltsEx(ch: Channel, vdiv: Double, offset: Double) returns (ok: bool)
      modifies port
      ensures Step(port.State(), ok) == SetChannelVoltsExOn(old(port.State()), conv, ch, vdiv, offset)
    {
      ok := false;
      var vAtten := ReadChannelAtten(ch);
      var unscaled := Div(vdiv, vAtten);
      if Gt(vdiv, Num(0.0)) && Ge(unscaled, Num(VUnscaledMin)) && Le(unscaled, Num(VUnscaledMax)) {
        ok := port.Write(ChannelString(ch) + ":VDIV " + conv.toString(vdiv));
        if ok {
          ok := SetChannelOffset(ch, offset);
        }
      }
    }

    method SetChannelOffset(ch: Channel, offset: Double) returns (ok: bool)
      modifies port
      ensures Step(port.State(), ok) == SetChannelOffsetOn(old(port.State()), conv, ch, offset)
    {
      if !offset.NaN? {
        ok := port.Write(ChannelString(ch) + ":OFST " + conv.toString(offset) + "V");
      } else {
        ok := false;
      }
    }

    /** The common body of the BWL, invert, attenuation, coupling and unit
      * setters. */
    method SetOption(ch: Channel, text: Option<string>) returns (ok: bool)
      modifies port
      ensures Step(port.State(), ok) == SetOptionOn(old(port.State()), ch, text)
    {
      ok := false;
      if text.Some? {
        ok := port.Write(ChannelString(ch) + text.value);
      }
    }

    method SetChannelBWL(ch: Channel, bwl: BWLimit) returns (ok: bool)
      modifies port
      ensures Step(port.State(), ok) == SetOptionOn(old(port.State()), ch, BWLText(bwl))
    {
      ok := SetOption(ch, BWLText(bwl));
    }

    method SetChannelInvert(ch: Channel, inv: ChInvert) returns (ok: bool)
      modifies port
      ensures Step(port.State(), ok) == SetOptionOn(old(port.State()), ch, InvertText(inv))
    {
      ok := SetOption(ch, InvertText(inv));
    }

    method SetChannelAtten(ch: Channel, atten: ChAtten) returns (ok: bool)
      modifies port
      ensures Step(port.State(), ok) == SetOptionOn(old(port.State()), ch, AttenText(atten))
    {
      ok := SetOption(ch, AttenText(atten));
    }

    method SetChannelCoupling(ch: Channel, coup: Coupling) returns (ok: bool)
      modifies port
      ensures Step(port.State(), ok) == SetOptionOn(old(port.State()), ch, CouplingText(coup))
    {
      ok := SetOption(ch, CouplingText(coup));
    }

    method SetChannelUnit(ch: Channel, unit: ChUnit) returns (ok: bool)
      modifies port
      ensures Step(port.State(), ok) == SetOptionOn(old(port.State()), ch, UnitText(unit))
    {
      ok := SetOption(ch, UnitText(unit));
    }

    method SetChannelSkew(ch: Channel, skew: Double) returns (ok: bool)
      modifies port
      ensures Step(port.State(), ok) == SetChannelSkewOn(old(port.State()), conv, ch, skew)
    {
      ok := true;
      if !skew.NaN? {
        if Ge(skew, Num(-0.0000001)) && Le(skew, Num(0.0000001)) {
          ok := port.Write(ChannelString(ch) + ":SKEW " + conv.toString(skew));
        } else {
          ok := false;
        }
      }
    }

    method SetChannelEx(ch: Channel, enabled: bool, vdiv: VoltsPerDiv, offset: Double,
                        coup: Coupling, bwl: BWLimit, atten: ChAtten, inv: ChInvert) returns (ok: bool)
      modifies port
      ensures Step(port.State(), ok) == SetChannelExOn(old(port.State()), conv, ch, enabled, vdiv, offset, coup, bwl, atten, inv)
    {
      ghost var spec := SetChannelExOn(port.State(), conv, ch, enabled, vdiv, offset, coup, bwl, atten, inv);
      ghost var r := ChannelOptionsOn(port.State(), ch, coup, bwl, atten, inv);
      assert spec == if r.val then ChannelLevelsOn(r.link, conv, ch, enabled, vdiv, offset) else r;
      ok := SetChannelOptions(ch, coup, bwl, atten, inv);
      assert Step(port.State(), ok) == r;
      if ok {
        ok := SetChannelLevels(ch, enabled, vdiv, offset);
      }
    }

    /** The first half of SetChannelEx: invert, attenuation, bandwidth limit
      * and coupling, stopping at the first refusal. */
    method SetChannelOptions(ch: Channel, coup: Coupling, bwl: BWLimit, atten: ChAtten, inv: ChInvert) returns (ok: bool)
      modifies port
      ensures Step(port.State(), ok) == ChannelOptionsOn(old(port.State()), ch, coup, bwl, atten, inv)
    {
      ghost var r := SetOptionOn(port.State(), ch, InvertText(inv));
      ghost var spec := ChannelOptionsOn(port.State(), ch, coup, bwl, atten, inv);
      assert spec == OptionThen(OptionThen(OptionThen(r, ch, AttenText(atten)), ch, BWLText(bwl)), ch, CouplingText(coup));
      ok := SetChannelInvert(ch, inv);
      if ok { ok := SetChannelAtten(ch, atten); }
      r := OptionThen(r, ch, AttenText(atten));
      assert Step(port.State(), ok) == r;
      if ok { ok := SetChannelBWL(ch, bwl); }
      r := OptionThen(r, ch, BWLText(bwl));
      assert Step(port.State(), ok) == r;
      if ok { ok := SetChannelCoupling(ch, coup); }
      r := OptionThen(r, ch, CouplingText(coup));
      assert Step(port.State(), ok) == r;
    }

    /** The second half of SetChannelEx: offset, volts/div and enable. */
    method SetChannelLevels(ch: Channel, enabled: bool, vdiv: VoltsPerDiv, offset: Double) returns (ok: bool)
      modifies port
      ensures Step(port.State(), ok) == ChannelLevelsOn(old(port.State()), conv, ch, enabled, vdiv, offset)
    {
      ghost var spec := ChannelLevelsOn(port.State(), conv, ch, enabled, vdiv, offset);
      ghost var r5 := SetChannelOffsetOn(port.State(), conv, ch, offset);
      ok := SetChannelOffset(ch, offset);
      assert Step(port.State(), ok) == r5;
      if ok {
        ghost var r6 := SetChannelVoltsOn(port.State(), conv, ch, vdiv, NaN);
        assert spec == if r6.val then SetChannelEnableOn(r6.link, ch, enabled) else r6;
        ok := SetChannelVolts(ch, vdiv, NaN);
        assert Step(port.State(), ok) == r6;
        if ok { ok := SetChannelEnable(ch, enabled); }
      } else {
        assert spec == r5;
      }
    }

    /** The read-back that AdjustChannelVolts performs first and, after an
      * adjustment, again through its zero-step call. */
    method ReadScale(ch: Channel) returns (scale: ScaleValues)
      modifies port
      ensures Step(port.State(), scale) == ReadScaleOn(old(port.State()), conv, ch)
    {
      ghost var spec := ReadScaleOn(port.State(), conv, ch);
      scale := ZeroScale;
      var noIssues := true;
      var strCh := ChannelString(ch);
      ghost var q1 := QueryOn(port.State(), strCh + ":VDIV?");
      var ok, response := port.Query(strCh + ":VDIV?", "");
      assert port.State() == q1.link && (ok <==> q1.val.Some?);
      if ok {
        assert response == q1.val.value;
        var vdiv := VdivValue(response);
        if vdiv.Some? {
          scale := scale.(vdiv := conv.stod(vdiv.value));
        }
        ghost var q2 := QueryOn(q1.link, strCh + ":OFST?");
        ok, response := port.Query(strCh + ":OFST?", response);
        assert port.State() == q2.link && (ok <==> q2.val.Some?);
        if ok {
          assert response == q2.val.value;
          var offset := OffsetValue(response);
          if offset.Some? {
            scale := scale.(offset := conv.stod(offset.value));
          }
          assert spec == Step(q2.link, ScaleOf(scale.vdiv, scale.offset));
        } else {
          assert spec == Step(q2.link, scale);
          noIssues := false;
        }
      } else {
        assert spec == Step(q1.link, scale);
        noIssues := false;
      }
      if noIssues {
        scale := ScaleOf(scale.vdiv, scale.offset);
      }
    }

    /** AdjustChannelVolts(ch, adjust, scale): the clamped step, applied from
      * the nearest table entry, with the report the source computes. */
    method AdjustChannelVolts(ch: Channel, adjust: int) returns (applied: int, scale: ScaleValues)
      modifies port
      ensures Step(port.State(), Adjusted(applied, scale)) == AdjustChannelVoltsOn(old(port.State()), conv, ch, adjust)
    {
      applied := adjust;
      if applied < -3 {
        applied := -3;
      }
      if applied > 3 {
        applied := 3;
      }
      assert applied == ClampStep(adjust);
      scale := ReadScale(ch);
      if applied != 0 {
        applied, scale := StepVolts(ch, applied, scale);
      }
    }

    /** The adjusting half of AdjustChannelVolts: move from the table entry
      * nearest the volts/div just read, then read the scale again. */
    method StepVolts(ch: Channel, step: int, current: ScaleValues) returns (applied: int, scale: ScaleValues)
      requires -3 <= step <= 3
      modifies port
      ensures Step(port.State(), Adjusted(applied, scale)) == StepVoltsOn(old(port.State()), conv, ch, step, current)
    {
      ghost var spec := StepVoltsOn(port.State(), conv, ch, step, current);
      ghost var a := ReadChannelAttenOn(port.State(), conv, ch);
      applied := step;
      scale := current;
      var vAtten := ReadChannelAtten(ch);
      assert port.State() == a.link && vAtten == a.val;
      if KnownAtten(vAtten) {
        var table := PairTable(vAtten);
        var choose := Closest(Volts(table), scale.vdiv);
        if choose >= 0 {
          ghost var m := MoveAsWritten(choose, applied);
          choose := choose + applied;
          if choose < 0 {
            applied := applied - choose;
            choose := 0;
          }
          if choose > NVoltagePairs - 1 {
            applied := applied - (choose - NVoltagePairs);
            choose := NVoltagePairs - 1;
          }
          assert m == Move(choose, applied);
          var _ := SetChannelVolts(ch, table[choose].vdiv, NaN);
          ghost var v := port.State();
          scale := ReadScale(ch);
          assert spec == Step(ReadScaleOn(v, conv, ch).link, Adjusted(applied, ReadScaleOn(v, conv, ch).val));
        } else {
          scale := ReadScale(ch);
          assert spec == Step(ReadScaleOn(a.link, conv, ch).link, Adjusted(applied, ReadScaleOn(a.link, conv, ch).val));
        }
      } else {
        applied := 0;
        assert spec == Step(a.link, Adjusted(0, current));
      }
    }

    /** AdjustChannelVolts(ch, adjust): 1 (true) for a zero step. */
    method AdjustChannelVoltsBrief(ch: Channel, adjust: int) returns (r: int)
      modifies port
      ensures Step(port.State(), r) == AdjustChannelVoltsBriefOn(old(port.State()), conv, ch, adjust)
    {
      if adjust != 0 {
        var scale;
        r, scale := AdjustChannelVolts(ch, adjust);
      } else {
        r := 1;
      }
    }

    method Measure(ch: Channel, par: MeasParam) returns (value: Double)
      modifies port
      ensures Step(port.State(), value) == MeasureOn(old(port.State()), conv, ch, par)
    {
      value := NaN;
      var token := LookupMeasToken(MeasPairs, par);
      ghost var spec := MeasureOn(port.State(), conv, ch, par);
      ghost var q := QueryOn(port.State(), PavaCommand(ch, token));
      var ok, reply := port.Query(PavaCommand(ch, token), "");
      assert port.State() == q.link && (ok <==> q.val.Some?);
      if ok {
        assert reply == q.val.value;
        var g := PavaValue(reply);
        if g.Some? {
          value := conv.stod(g.value);
        }
        assert spec == Step(q.link, if g.Some? then conv.stod(g.value) else NaN);
      } else {
        assert spec == Step(q.link, NaN);
      }
    }

    method MeasureDelay(ch1: Channel, ch2: Channel, par: MeasDelParam) returns (value: Double)
      modifies port
      ensures Step(port.State(), value) == MeasureDelayOn(old(port.State()), conv, ch1, ch2, par)
    {
      value := NaN;
      var token := LookupMeasDelToken(MeasDelPairs, par);
      ghost var spec := MeasureDelayOn(port.State(), conv, ch1, ch2, par);
      ghost var q := QueryOn(port.State(), MeadCommand(ch1, ch2, token));
      var ok, reply := port.Query(MeadCommand(ch1, ch2, token), "");
      assert port.State() == q.link && (ok <==> q.val.Some?);
      if ok {
        assert reply == q.val.value;
        var g := MeadValue(reply, token);
        if g.Some? {
          value := conv.stod(g.value);
        }
        assert spec == Step(q.link, if g.Some? then conv.stod(g.value) else NaN);
      } else {
        assert spec == Step(q.link, NaN);
      }
    }

    method SetTimeDelay(delay: Double) returns (ok: bool)
      modifies port
      ensures Step(port.State(), ok) == SetTimeDelayOn(old(port.State()), conv, delay)
    {
      ok := true;
      if !delay.NaN? {
        ok := port.Write("TRDL " + conv.toString(delay));
      }
    }

    method SetTimebaseDiv(tdiv: TimeDiv, delay: Double) returns (ok: bool)
      modifies port
      ensures Step(port.State(), ok) == SetTimebaseDivOn(old(port.State()), conv, tdiv, delay)
    {
      ghost var spec := SetTimebaseDivOn(port.State(), conv, tdiv, delay);
      var text := LookupTime(TimePairs, tdiv);
      assert text == TimeText(tdiv);
      ok := text.Some?;
      if ok {
        ghost var w := WriteOn(port.State(), "TDIV " + text.value);
        assert spec == if w.val then SetTimeDelayOn(w.link, conv, delay) else w;
        ok := port.Write("TDIV " + text.value);
        if ok {
          ok := SetTimeDelay(delay);
        }
      } else {
        assert spec == Step(port.State(), false);
      }
    }

    method SetTimebase(tcapture: Double, delay: Double) returns (actual: Double)
      modifies port
      ensures Step(port.State(), actual) == SetTimebaseOn(old(port.State()), conv, tcapture, delay)
    {
      var entry := PickTimebaseEntry(tcapture);
      var ok := SetTimebaseDiv(entry.tdiv, delay);
      if ok {
        actual := Num(ScreenTime(entry));
      } else {
        actual := NaN;
      }
    }
  }
}
