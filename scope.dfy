// The oscilloscope's command layer as functions over the connection: what
// each driver operation sends, in what order, what it reads back and what
// it returns. The Oscilloscope class in oscilloscope.dfy is proved to do
// exactly this.

module Scope {
  import opened Numbers
  import opened Text
  import opened SocketInstrument
  import opened ScopeTables
  import opened ScopeReplies

  // ---------------------------------------------------------------------
  // Reading without setting anything

  /** A line that asks the instrument something rather than setting it. */
  predicate IsQuery(line: string) { '?' in line }

  /** t continues s, and every line sent in between is a query. */
  predicate OnlyQueries(s: Link, t: Link)
  {
    && |s.written| <= |t.written| && t.written[..|s.written|] == s.written
    && forall i :: |s.written| <= i < |t.written| ==> IsQuery(t.written[i])
  }

  lemma OnlyQueriesRefl(s: Link)
    ensures OnlyQueries(s, s)
  {
  }

  lemma OnlyQueriesTrans(s: Link, t: Link, u: Link)
    requires OnlyQueries(s, t) && OnlyQueries(t, u)
    ensures OnlyQueries(s, u)
  {
    assert u.written[..|s.written|] == u.written[..|t.written|][..|s.written|];
  }

  /** A query sends at most its own line. */
  lemma QueryOnlyAsks(s: Link, command: string)
    requires IsQuery(command)
    ensures OnlyQueries(s, QueryOn(s, command).link)
  {
    var t := QueryOn(s, command).link;
    if t.written != s.written {
      assert t.written == s.written + [Line(command)];
      assert Line(command)[..|command|] == command;
      var k :| 0 <= k < |command| && command[k] == '?';
      assert Line(command)[k] == '?';
    }
  }

  // ---------------------------------------------------------------------
  // ReadChannelAtten

  /** The probe attenuation the instrument reports, 0 when the reply does
    * not have the "C<n>:ATTN <digits>" form (a failed query leaves the
    * reply empty). */
  function ReadChannelAttenOn(s: Link, conv: Conversions, ch: Channel): (r: Step<Double>)
    ensures OnlyQueries(s, r.link)
    ensures r.link.attached == s.attached
    ensures |r.link.replies| <= |s.replies|
  {
    var q := QueryOn(s, ChannelString(ch) + ":ATTN?");
    QueryOnlyAsks(s, ChannelString(ch) + ":ATTN?");
    var reply := if q.val.Some? then q.val.value else "";
    match AttnValue(reply)
    case Some(g) => Step(q.link, conv.stod(g))
    case None => Step(q.link, Num(0.0))
  }

  /** Any attenuation other than a well-formed reply reads as 0, so it
    * never selects a volts/div table. */
  lemma AttenDefaultsToZero(s: Link, conv: Conversions, ch: Channel)
    requires var q := QueryOn(s, ChannelString(ch) + ":ATTN?"); q.val.None? || AttnValue(q.val.value).None?
    ensures ReadChannelAttenOn(s, conv, ch).val == Num(0.0)
  {
    assert AttnValue("") == None;
  }

  // ---------------------------------------------------------------------
  // Single-command setters

  function TriggerModeText(mode: TriggerMode): string
  {
    match mode
    case STOP => "STOP"
    case NORMAL => "NORM"
    case AUTO => "AUTO"
    case SINGLE => "SINGLE"
  }

  function SetTriggerModeOn(s: Link, mode: TriggerMode): Step<bool>
  {
    WriteOn(s, "TRMD " + TriggerModeText(mode))
  }

  function SetChannelEnableOn(s: Link, ch: Channel, enabled: bool): Step<bool>
  {
    WriteOn(s, ChannelString(ch) + (if enabled then ":TRACE ON" else ":TRACE OFF"))
  }

  /** A NaN offset is refused without sending anything. */
  function SetChannelOffsetOn(s: Link, conv: Conversions, ch: Channel, offset: Double): (r: Step<bool>)
    ensures offset.NaN? ==> r == Step(s, false)
    ensures !offset.NaN? ==> r == WriteOn(s, ChannelString(ch) + ":OFST " + conv.toString(offset) + "V")
  {
    if offset.NaN? then Step(s, false)
    else WriteOn(s, ChannelString(ch) + ":OFST " + conv.toString(offset) + "V")
  }

  /** The command text of an option; UNSPEC has none. */
  function BWLText(bwl: BWLimit): Option<string>
  {
    match bwl
    case BWL_FULL => Some(":BWL OFF")
    case BWL_ON => Some(":BWL ON")
    case BwlUnspec => None
  }

  function InvertText(inv: ChInvert): Option<string>
  {
    match inv
    case INV_OFF => Some(":INVS OFF")
    case INV_ON => Some(":INVS ON")
    case InvUnspec => None
  }

  function AttenText(atten: ChAtten): Option<string>
  {
    match atten
    case AT_10X => Some(":ATTN 10")
    case AT_1X => Some(":ATTN 1")
    case AttenUnspec => None
  }

  function CouplingText(coup: Coupling): Option<string>
  {
    match coup
    case DC => Some(":CPL D1M")
    case AC => Some(":CPL A1M")
    case CouplingUnspec => None
  }

  function UnitText(unit: ChUnit): Option<string>
  {
    match unit
    case V => Some(":UNIT V")
    case UnitUnspec => None
  }

  /** The shape of every option setter: send the option's command on the
    * channel, or refuse an UNSPEC option without sending anything. */
  function SetOptionOn(s: Link, ch: Channel, text: Option<string>): (r: Step<bool>)
    ensures text.None? ==> r == Step(s, false)
    ensures text.Some? ==> r == WriteOn(s, ChannelString(ch) + text.value)
  {
    match text
    case None => Step(s, false)
    case Some(t) => WriteOn(s, ChannelString(ch) + t)
  }

  /** Skew is sent only within +-100 ns; NaN means "leave it" and succeeds. */
  function SetChannelSkewOn(s: Link, conv: Conversions, ch: Channel, skew: Double): (r: Step<bool>)
    ensures skew.NaN? ==> r == Step(s, true)
    ensures !skew.NaN? && !(Ge(skew, Num(-0.0000001)) && Le(skew, Num(0.0000001))) ==> r == Step(s, false)
    ensures r.link != s ==> skew.Num? && -0.0000001 <= skew.v <= 0.0000001
  {
    if skew.NaN? then Step(s, true)
    else if Ge(skew, Num(-0.0000001)) && Le(skew, Num(0.0000001)) then
      WriteOn(s, ChannelString(ch) + ":SKEW " + conv.toString(skew))
    else Step(s, false)
  }

  /** The trigger delay: NaN sends nothing and succeeds. */
  function SetTimeDelayOn(s: Link, conv: Conversions, delay: Double): (r: Step<bool>)
    ensures delay.NaN? ==> r == Step(s, true)
    ensures !delay.NaN? ==> r == WriteOn(s, "TRDL " + conv.toString(delay))
  {
    if delay.NaN? then Step(s, true) else WriteOn(s, "TRDL " + conv.toString(delay))
  }

  // ---------------------------------------------------------------------
  // SetEdgeTrigger

  /** "OFF, HV, 80NS" without holdoff, else "ON, HV, <t in ns>NS". */
  function HoldoffText(conv: Conversions, holdoff: bool, tHoldoff: Double): string
  {
    if holdoff then "ON, HV, " + conv.toString(Scale(tHoldoff, 1000000000.0)) + "NS"
    else "OFF, HV, 80NS"
  }

  /** The four trigger commands; the level is already divided by the probe
    * attenuation. Coupling other than DC is AC; the edge is POS unless it
    * is FALLING. */
  function EdgeTriggerCommands(conv: Conversions, ch: Channel, edge: EdgeType, level: Double,
                               coup: Coupling, holdoff: bool, tHoldoff: Double): seq<string>
  {
    var strCh := ChannelString(ch);
    [ "TRCP " + (if coup == DC then "DC" else "AC"),
      strCh + ":TRLV " + conv.toString(level) + "V",
      "TRSE EDGE, SR, " + strCh + ", HT, " + HoldoffText(conv, holdoff, tHoldoff),
      strCh + ":TRSL " + (if edge == FALLING then "NEG" else "POS") ]
  }

  /** Read the probe attenuation, then send the trigger commands in order,
    * stopping at the first refused one. */
  function SetEdgeTriggerOn(s: Link, conv: Conversions, ch: Channel, edge: EdgeType, voltage: Double,
                            coup: Coupling, holdoff: bool, tHoldoff: Double): Step<bool>
  {
    var q := QueryOn(s, ChannelString(ch) + ":ATTN?");
    if q.val.None? then Step(q.link, false)
    else
      match EdgeAttnValue(q.val.value)
      case None => Step(q.link, false)
      case Some(g) =>
        WriteChain(q.link, EdgeTriggerCommands(conv, ch, edge, Div(voltage, conv.stod(g)), coup, holdoff, tHoldoff))
  }

  /** Without a well-formed attenuation reply nothing is set and the call
    * fails. */
  lemma EdgeTriggerNeedsAttenuation(s: Link, conv: Conversions, ch: Channel, edge: EdgeType, voltage: Double,
                                    coup: Coupling, holdoff: bool, tHoldoff: Double)
    requires var q := QueryOn(s, ChannelString(ch) + ":ATTN?"); q.val.None? || EdgeAttnValue(q.val.value).None?
    ensures var r := SetEdgeTriggerOn(s, conv, ch, edge, voltage, coup, holdoff, tHoldoff);
      !r.val && OnlyQueries(s, r.link)
  {
    QueryOnlyAsks(s, ChannelString(ch) + ":ATTN?");
  }

  /** With the attenuation read as a, the trigger level sent is voltage/a:
    * after the query line come the first k trigger commands, k the number
    * the network accepts, and the call succeeds iff all four went out. */
  lemma EdgeTriggerSendsScaledLevel(s: Link, conv: Conversions, ch: Channel, edge: EdgeType, voltage: Double,
                                    coup: Coupling, holdoff: bool, tHoldoff: Double, g: string)
    requires var q := QueryOn(s, ChannelString(ch) + ":ATTN?"); q.val.Some? && EdgeAttnValue(q.val.value) == Some(g)
    ensures var q := QueryOn(s, ChannelString(ch) + ":ATTN?");
      var cmds := EdgeTriggerCommands(conv, ch, edge, Div(voltage, conv.stod(g)), coup, holdoff, tHoldoff);
      var k := Delivered(q.link.attached, q.link.sendOk, 4);
      var r := SetEdgeTriggerOn(s, conv, ch, edge, voltage, coup, holdoff, tHoldoff);
      && r.link.written == s.written + [Line(ChannelString(ch) + ":ATTN?")] + Lines(cmds[..k])
      && cmds[1] == ChannelString(ch) + ":TRLV " + conv.toString(Div(voltage, conv.stod(g))) + "V"
      && (r.val <==> k == 4)
  {
    var q := QueryOn(s, ChannelString(ch) + ":ATTN?");
    var cmds := EdgeTriggerCommands(conv, ch, edge, Div(voltage, conv.stod(g)), coup, holdoff, tHoldoff);
    WritesDeliversPrefix(q.link, cmds);
  }

  /** Without holdoff the trigger-select command ends "HT, OFF, HV, 80NS". */
  lemma DefaultHoldoff(conv: Conversions, ch: Channel, edge: EdgeType, level: Double, coup: Coupling, tHoldoff: Double)
    ensures EdgeTriggerCommands(conv, ch, edge, level, coup, false, tHoldoff)[2]
      == "TRSE EDGE, SR, " + ChannelString(ch) + ", HT, OFF, HV, 80NS"
  {
  }

  // ---------------------------------------------------------------------
  // Volts per division

  /** The volts/div table for a probe attenuation of 1 or 10. */
  function PairTable(atten: Double): seq<VoltagePair>
  {
    if atten == Num(1.0) then PairTable1X else PairTable10X
  }

  predicate KnownAtten(atten: Double) { atten == Num(1.0) || atten == Num(10.0) }

  /** SetChannelVolts: read the attenuation; with 1 or 10, send the
    * setting's text from that table, then the offset. */
  function SetChannelVoltsOn(s: Link, conv: Conversions, ch: Channel, vdiv: VoltsPerDiv, offset: Double): (r: Step<bool>)
    ensures |r.link.replies| <= |s.replies|
  {
    var a := ReadChannelAttenOn(s, conv, ch);
    if KnownAtten(a.val) then
      var table := PairTable(a.val);
      match VoltsText(table, vdiv)
      case None => Step(a.link, false)
      case Some(text) =>
        var w := WriteOn(a.link, ChannelString(ch) + ":VDIV " + text);
        if w.val then SetChannelOffsetOn(w.link, conv, ch, offset) else w
    else Step(a.link, false)
  }

  /** With an unknown attenuation, or a setting missing from its table,
    * nothing is set and the call fails. */
  lemma VoltsNeedTableEntry(s: Link, conv: Conversions, ch: Channel, vdiv: VoltsPerDiv, offset: Double)
    requires var a := ReadChannelAttenOn(s, conv, ch);
      !KnownAtten(a.val) || VoltsText(PairTable(a.val), vdiv).None?
    ensures var r := SetChannelVoltsOn(s, conv, ch, vdiv, offset); !r.val && OnlyQueries(s, r.link)
  {
  }

  /** With the default NaN offset SetChannelVolts cannot succeed, even
    * when its VDIV command went out. */
  lemma VoltsWithoutOffsetFail(s: Link, conv: Conversions, ch: Channel, vdiv: VoltsPerDiv)
    ensures !SetChannelVoltsOn(s, conv, ch, vdiv, NaN).val
  {
  }

  /** SetChannelVoltsEx: a numeric volts/div, sent only when positive and,
    * divided by the attenuation, within the 1x table's range. */
  function SetChannelVoltsExOn(s: Link, conv: Conversions, ch: Channel, vdiv: Double, offset: Double): Step<bool>
  {
    var a := ReadChannelAttenOn(s, conv, ch);
    var unscaled := Div(vdiv, a.val);
    if Gt(vdiv, Num(0.0)) && Ge(unscaled, Num(VUnscaledMin)) && Le(unscaled, Num(VUnscaledMax)) then
      var w := WriteOn(a.link, ChannelString(ch) + ":VDIV " + conv.toString(vdiv));
      if w.val then SetChannelOffsetOn(w.link, conv, ch, offset) else w
    else Step(a.link, false)
  }

  /** SetChannelVoltsEx sets something only for a positive volts/div whose
    * unscaled value lies in [5e-4, 10]. */
  lemma VoltsExRange(s: Link, conv: Conversions, ch: Channel, vdiv: Double, offset: Double)
    ensures var r := SetChannelVoltsExOn(s, conv, ch, vdiv, offset);
      var a := ReadChannelAttenOn(s, conv, ch).val;
      r.val || !OnlyQueries(s, r.link) ==>
        && vdiv.Num? && vdiv.v > 0.0 && a.Num? && a.v != 0.0
        && 0.0005 <= vdiv.v / a.v <= 10.0
  {
    var a := ReadChannelAttenOn(s, conv, ch).val;
    var unscaled := Div(vdiv, a);
    if Gt(vdiv, Num(0.0)) && Ge(unscaled, Num(VUnscaledMin)) && Le(unscaled, Num(VUnscaledMax)) {
      assert unscaled.Num?;
      assert a.Num? && a.v != 0.0;
    }
  }

  // ---------------------------------------------------------------------
  // SetChannelEx

  /** SetChannelEx: invert, attenuation, bandwidth limit, coupling, then
    * offset, volts/div (with the default NaN offset) and enable, stopping
    * at the first failure. */
  function SetChannelExOn(s: Link, conv: Conversions, ch: Channel, enabled: bool, vdiv: VoltsPerDiv, offset: Double,
                          coup: Coupling, bwl: BWLimit, atten: ChAtten, inv: ChInvert): Step<bool>
  {
    var r := ChannelOptionsOn(s, ch, coup, bwl, atten, inv);
    if !r.val then r else ChannelLevelsOn(r.link, conv, ch, enabled, vdiv, offset)
  }

  function ChannelOptionsOn(s: Link, ch: Channel, coup: Coupling, bwl: BWLimit, atten: ChAtten, inv: ChInvert): Step<bool>
  {
    var r1 := SetOptionOn(s, ch, InvertText(inv));
    var r2 := OptionThen(r1, ch, AttenText(atten));
    var r3 := OptionThen(r2, ch, BWLText(bwl));
    OptionThen(r3, ch, CouplingText(coup))
  }

  /** One more option setter after r, unless r was refused. */
  function OptionThen(r: Step<bool>, ch: Channel, text: Option<string>): Step<bool>
  {
    if !r.val then r else SetOptionOn(r.link, ch, text)
  }

  function ChannelLevelsOn(s: Link, conv: Conversions, ch: Channel, enabled: bool, vdiv: VoltsPerDiv, offset: Double): Step<bool>
  {
    var r5 := SetChannelOffsetOn(s, conv, ch, offset);
    if !r5.val then r5 else
    var r6 := SetChannelVoltsOn(r5.link, conv, ch, vdiv, NaN);
    if !r6.val then r6 else
    SetChannelEnableOn(r6.link, ch, enabled)
  }

  /** With the default UNSPEC invert SetChannelEx sends nothing at all. */
  lemma ChannelExUnspecInvert(s: Link, conv: Conversions, ch: Channel, enabled: bool, vdiv: VoltsPerDiv,
                              offset: Double, coup: Coupling, bwl: BWLimit, atten: ChAtten)
    ensures SetChannelExOn(s, conv, ch, enabled, vdiv, offset, coup, bwl, atten, InvUnspec) == Step(s, false)
  {
  }

  /** SetChannelEx never reports success: its volts/div step uses the NaN
    * default offset. */
  lemma ChannelExNeverSucceeds(s: Link, conv: Conversions, ch: Channel, enabled: bool, vdiv: VoltsPerDiv,
                               offset: Double, coup: Coupling, bwl: BWLimit, atten: ChAtten, inv: ChInvert)
    ensures !SetChannelExOn(s, conv, ch, enabled, vdiv, offset, coup, bwl, atten, inv).val
  {
    var r := ChannelOptionsOn(s, ch, coup, bwl, atten, inv);
    if r.val {
      ChannelLevelsFail(r.link, conv, ch, enabled, vdiv, offset);
    }
  }

  lemma ChannelLevelsFail(s: Link, conv: Conversions, ch: Channel, enabled: bool, vdiv: VoltsPerDiv, offset: Double)
    ensures !ChannelLevelsOn(s, conv, ch, enabled, vdiv, offset).val
  {
    var r5 := SetChannelOffsetOn(s, conv, ch, offset);
    if r5.val {
      VoltsWithoutOffsetFail(r5.link, conv, ch, vdiv);
    }
  }

  // ---------------------------------------------------------------------
  // AdjustChannelVolts

  const ZeroScale: ScaleValues := ScaleValues(Num(0.0), Num(0.0), Num(0.0), Num(0.0), Num(0.0))

  /** The screen window of a volts/div and offset: eight divisions peak to
    * peak, centred on -offset. */
  function ScaleOf(vdiv: Double, offset: Double): ScaleValues
  {
    var pp := Mul(vdiv, Num(NVoltageDivisions as real));
    ScaleValues(Sub(Div(pp, Num(2.0)), offset), Sub(Div(pp, Num(-2.0)), offset), pp, offset, vdiv)
  }

  /** For numbers the window spans pp = 8 vdiv, from -pp/2 - offset to
    * pp/2 - offset. */
  lemma ScaleWindow(vdiv: real, offset: real)
    ensures var sc := ScaleOf(Num(vdiv), Num(offset));
      && sc.pp == Num(8.0 * vdiv)
      && sc.max.Num? && sc.min.Num?
      && sc.max.v - sc.min.v == 8.0 * vdiv
      && sc.max.v + sc.min.v == -2.0 * offset
  {
  }

  /** The read-back half of AdjustChannelVolts: query volts/div and, if that
    * went through, the offset. An unparsable value reads as 0. When either
    * query fails no window is computed (a volts/div already read stays). */
  function ReadScaleOn(s: Link, conv: Conversions, ch: Channel): (r: Step<ScaleValues>)
    ensures OnlyQueries(s, r.link)
    ensures r.link.attached == s.attached
    ensures |r.link.replies| <= |s.replies|
  {
    var strCh := ChannelString(ch);
    var q1 := QueryOn(s, strCh + ":VDIV?");
    QueryOnlyAsks(s, strCh + ":VDIV?");
    if q1.val.None? then Step(q1.link, ZeroScale)
    else
      var vdiv := match VdivValue(q1.val.value) case Some(g) => conv.stod(g) case None => Num(0.0);
      var q2 := QueryOn(q1.link, strCh + ":OFST?");
      QueryOnlyAsks(q1.link, strCh + ":OFST?");
      OnlyQueriesTrans(s, q1.link, q2.link);
      if q2.val.None? then Step(q2.link, ZeroScale.(vdiv := vdiv))
      else
        var offset := match OffsetValue(q2.val.value) case Some(g) => conv.stod(g) case None => Num(0.0);
        Step(q2.link, ScaleOf(vdiv, offset))
  }

  /** The step request is limited to three table entries either way. */
  function ClampStep(adjust: int): (r: int)
    ensures -3 <= r <= 3
    ensures -3 <= adjust <= 3 ==> r == adjust
    ensures adjust < -3 ==> r == -3
    ensures adjust > 3 ==> r == 3
  {
    if adjust < -3 then -3 else if adjust > 3 then 3 else adjust
  }

  /** |x - t|, the distance the nearest-entry search compares. */
  function Dist(x: real, t: real): real { if x < t then t - x else x - t }

  /** Index of the entry of t[..n] closest to x, the first one on ties;
    * -1 for an empty prefix. */
  function NearestIn(t: seq<real>, x: real, n: nat): (i: int)
    requires n <= |t|
    ensures n == 0 ==> i == -1
    ensures n > 0 ==> 0 <= i < n
    decreases n
  {
    if n == 0 then -1
    else
      var i := NearestIn(t, x, n - 1);
      if i < 0 || Dist(x, t[n - 1]) < Dist(x, t[i]) then n - 1 else i
  }

  /** The entry the running minimum settles on: none for NaN or an
    * infinity (no distance is below infinity). */
  function Nearest(t: seq<real>, v: Double): int
  {
    if v.Num? then NearestIn(t, v.v, |t|) else -1
  }

  /** The search finds a closest entry, and no earlier entry is as close. */
  lemma {:induction false} NearestInIsFirstClosest(t: seq<real>, x: real, n: nat)
    requires 0 < n <= |t|
    ensures var i := NearestIn(t, x, n);
      && (forall j :: 0 <= j < n ==> Dist(x, t[i]) <= Dist(x, t[j]))
      && (forall j :: 0 <= j < i ==> Dist(x, t[i]) < Dist(x, t[j]))
    decreases n
  {
    if n > 1 {
      NearestInIsFirstClosest(t, x, n - 1);
    }
  }

  lemma NearestIsFirstClosest(t: seq<real>, v: Double)
    ensures Nearest(t, v) == -1 <==> !v.Num? || t == []
    ensures var i := Nearest(t, v);
      0 <= i ==> && i < |t|
                 && (forall j :: 0 <= j < |t| ==> Dist(v.v, t[i]) <= Dist(v.v, t[j]))
                 && (forall j :: 0 <= j < i ==> Dist(v.v, t[i]) < Dist(v.v, t[j]))
  {
    if v.Num? && t != [] {
      NearestInIsFirstClosest(t, v.v, |t|);
    }
  }

  /** Where a step lands and what is reported, as the source writes it:
    * below the table the report drops the part not taken; above it, it
    * subtracts the overshoot past nVoltagePairs rather than past the last
    * index, so it reports one step more than was made. */
  datatype Move = Move(index: int, applied: int)

  function MoveAsWritten(from: int, step: int): (m: Move)
    requires 0 <= from < NVoltagePairs
    ensures 0 <= m.index < NVoltagePairs
    ensures 0 <= from + step < NVoltagePairs ==> m == Move(from + step, step)
    ensures from + step < 0 ==> m == Move(0, -from)
    ensures from + step >= NVoltagePairs ==> m == Move(NVoltagePairs - 1, NVoltagePairs - from)
  {
    var i := from + step;
    var m := if i < 0 then Move(0, step - i) else Move(i, step);
    if m.index > NVoltagePairs - 1 then Move(NVoltagePairs - 1, m.applied - (m.index - NVoltagePairs))
    else m
  }

  /** The clamp as intended: it lands inside the table and reports exactly
    * the movement made. */
  function MoveClamped(from: int, step: int): (m: Move)
    requires 0 <= from < NVoltagePairs
    ensures 0 <= m.index < NVoltagePairs
    ensures m.applied == m.index - from
    ensures 0 <= from + step < NVoltagePairs ==> m.index == from + step
    ensures from + step < 0 ==> m.index == 0
    ensures from + step >= NVoltagePairs ==> m.index == NVoltagePairs - 1
  {
    var i := from + step;
    var m := if i < 0 then Move(0, step - i) else Move(i, step);
    if m.index > NVoltagePairs - 1 then Move(NVoltagePairs - 1, m.applied - (m.index - (NVoltagePairs - 1)))
    else m
  }

  /** The two agree except above the table, where the source reports one
    * step more than was made. */
  lemma MoveAsWrittenOverReports(from: int, step: int)
    requires 0 <= from < NVoltagePairs
    ensures MoveAsWritten(from, step).index == MoveClamped(from, step).index
    ensures from + step <= NVoltagePairs - 1 ==> MoveAsWritten(from, step) == MoveClamped(from, step)
    ensures from + step > NVoltagePairs - 1 ==> MoveAsWritten(from, step).applied == MoveClamped(from, step).applied + 1
  {
  }

  /** From the last entry a +1 request moves nothing; the source reports 1. */
  lemma MoveAtTopCounterexample()
    ensures MoveAsWritten(13, 1) == Move(13, 1)
    ensures MoveClamped(13, 1) == Move(13, 0)
  {
  }

  /** From index 2 a -3 request lands on 0 and reports -2 in both. */
  lemma MoveAtBottomExample()
    ensures MoveAsWritten(2, -3) == Move(0, -2) == MoveClamped(2, -3)
  {
  }

  /** What AdjustChannelVolts returns: the step applied, and the scale. */
  datatype Adjusted = Adjusted(applied: int, scale: ScaleValues)

  /** AdjustChannelVolts(ch, adjust, scale): read the scale; for a nonzero
    * step with attenuation 1 or 10, move from the entry nearest the current
    * volts/div, set it, and read the scale again. The value returned never
    * exceeds the clamped request and never points the other way; it is 0
    * when no adjustment was asked for. */
  function AdjustChannelVoltsOn(s: Link, conv: Conversions, ch: Channel, adjust: int): (r: Step<Adjusted>)
    ensures ClampStep(adjust) == 0 ==> r.val.applied == 0
    ensures ClampStep(adjust) > 0 ==> 0 <= r.val.applied <= ClampStep(adjust)
    ensures ClampStep(adjust) < 0 ==> ClampStep(adjust) <= r.val.applied <= 0
    ensures |r.link.replies| <= |s.replies|
  {
    var step := ClampStep(adjust);
    var r := ReadScaleOn(s, conv, ch);
    if step == 0 then Step(r.link, Adjusted(0, r.val))
    else StepVoltsOn(r.link, conv, ch, step, r.val)
  }

  /** The adjusting half of AdjustChannelVolts, for a nonzero clamped step
    * and the scale just read. */
  function StepVoltsOn(s: Link, conv: Conversions, ch: Channel, step: int, scale: ScaleValues): (r: Step<Adjusted>)
    requires -3 <= step <= 3
    ensures step >= 0 ==> 0 <= r.val.applied <= step
    ensures step <= 0 ==> step <= r.val.applied <= 0
    ensures |r.link.replies| <= |s.replies|
  {
    var a := ReadChannelAttenOn(s, conv, ch);
    if KnownAtten(a.val) then
      var table := PairTable(a.val);
      var i := Nearest(Volts(table), scale.vdiv);
      if i < 0 then
        var r2 := ReadScaleOn(a.link, conv, ch);
        Step(r2.link, Adjusted(step, r2.val))
      else
        var m := MoveAsWritten(i, step);
        var v := SetChannelVoltsOn(a.link, conv, ch, table[m.index].vdiv, NaN);
        var r2 := ReadScaleOn(v.link, conv, ch);
        Step(r2.link, Adjusted(m.applied, r2.val))
    else Step(a.link, Adjusted(0, scale))
  }

  /** A zero step is a pure read of the scale. */
  lemma AdjustZeroReads(s: Link, conv: Conversions, ch: Channel)
    ensures var r := AdjustChannelVoltsOn(s, conv, ch, 0);
      && r.val == Adjusted(0, ReadScaleOn(s, conv, ch).val)
      && OnlyQueries(s, r.link)
  {
  }

  /** With an attenuation other than 1 or 10 nothing is set and 0 is
    * reported. */
  lemma AdjustNeedsKnownAtten(s: Link, conv: Conversions, ch: Channel, adjust: int)
    requires !KnownAtten(ReadChannelAttenOn(ReadScaleOn(s, conv, ch).link, conv, ch).val)
    ensures var r := AdjustChannelVoltsOn(s, conv, ch, adjust);
      r.val.applied == 0 && OnlyQueries(s, r.link)
  {
    var r := ReadScaleOn(s, conv, ch);
    if ClampStep(adjust) != 0 {
      OnlyQueriesTrans(s, r.link, ReadChannelAttenOn(r.link, conv, ch).link);
    }
  }

  /** With a known attenuation and a numeric volts/div, the setting chosen
    * is the entry the step reaches from the nearest one, clamped to the
    * table, and the value returned is the as-written report: the step
    * itself inside the table, minus the shortfall below it, and one more
    * than the movement made above it. */
  lemma AdjustLands(s: Link, conv: Conversions, ch: Channel, adjust: int)
    requires ClampStep(adjust) != 0
    requires var r := ReadScaleOn(s, conv, ch);
      KnownAtten(ReadChannelAttenOn(r.link, conv, ch).val) && r.val.vdiv.Num?
    ensures var r := ReadScaleOn(s, conv, ch);
      var table := PairTable(ReadChannelAttenOn(r.link, conv, ch).val);
      var i := Nearest(Volts(table), r.val.vdiv);
      var applied := AdjustChannelVoltsOn(s, conv, ch, adjust).val.applied;
      && 0 <= i < NVoltagePairs
      && applied == MoveAsWritten(i, ClampStep(adjust)).applied
      && (0 <= i + ClampStep(adjust) < NVoltagePairs ==> applied == ClampStep(adjust))
      && (i + ClampStep(adjust) < 0 ==> applied == -i)
      && (i + ClampStep(adjust) >= NVoltagePairs ==> applied == NVoltagePairs - i
                                                     == MoveClamped(i, ClampStep(adjust)).applied + 1)
  {
    var r := ReadScaleOn(s, conv, ch);
    var table := PairTable(ReadChannelAttenOn(r.link, conv, ch).val);
    NearestIsFirstClosest(Volts(table), r.val.vdiv);
  }

  /** The two-argument AdjustChannelVolts: a zero step does nothing and
    * returns true, i.e. 1; otherwise the applied step, no larger than the
    * clamped request and of the same sign or 0. */
  function AdjustChannelVoltsBriefOn(s: Link, conv: Conversions, ch: Channel, adjust: int): (r: Step<int>)
    ensures adjust == 0 ==> r == Step(s, 1)
    ensures adjust > 0 ==> 0 <= r.val <= ClampStep(adjust)
    ensures adjust < 0 ==> ClampStep(adjust) <= r.val <= 0
  {
    if adjust != 0 then
      var r := AdjustChannelVoltsOn(s, conv, ch, adjust);
      Step(r.link, r.val.applied)
    else Step(s, 1)
  }

  // ---------------------------------------------------------------------
  // Measurements

  /** Measure: ask for one parameter; NaN unless the reply is well formed. */
  /** The query Measure sends: "C<n>:PAVA? <TOKEN>". */
  function PavaCommand(ch: Channel, token: string): (c: string)
    ensures IsQuery(c)
  {
    var c := ChannelString(ch) + ":PAVA? " + token;
    assert c[7] == '?';
    c
  }

  function MeasureOn(s: Link, conv: Conversions, ch: Channel, par: MeasParam): (r: Step<Double>)
    ensures OnlyQueries(s, r.link)
    ensures |r.link.replies| <= |s.replies|
    ensures !r.val.NaN? ==> |r.link.replies| < |s.replies|
  {
    var q := QueryOn(s, PavaCommand(ch, MeasToken(par)));
    QueryOnlyAsks(s, PavaCommand(ch, MeasToken(par)));
    if q.val.None? then Step(q.link, NaN)
    else
      match PavaValue(q.val.value)
      case Some(g) => Step(q.link, conv.stod(g))
      case None => Step(q.link, NaN)
  }

  /** A measurement other than NaN comes from a well-formed reply, and
    * every well-formed reply is read. */
  lemma MeasureReadsReply(s: Link, conv: Conversions, ch: Channel, par: MeasParam)
    ensures var q := QueryOn(s, PavaCommand(ch, MeasToken(par)));
      var r := MeasureOn(s, conv, ch, par);
      && (!r.val.NaN? ==> q.val.Some? && PavaValue(q.val.value).Some?)
      && (q.val.Some? && PavaValue(q.val.value).Some? ==> r.val == conv.stod(PavaValue(q.val.value).value))
  {
  }

  /** The query MeasureDelay sends: "C<n>-C<m>:MEAD? <TOKEN>". */
  function MeadCommand(ch1: Channel, ch2: Channel, token: string): (c: string)
    ensures IsQuery(c)
  {
    var c := ChannelString(ch1) + "-" + ChannelString(ch2) + ":MEAD? " + token;
    assert c[10] == '?';
    c
  }

  /** MeasureDelay: ask for a delay between two channels; NaN unless the
    * reply is well formed and names the same measurement. */
  function MeasureDelayOn(s: Link, conv: Conversions, ch1: Channel, ch2: Channel, par: MeasDelParam): (r: Step<Double>)
    ensures OnlyQueries(s, r.link)
    ensures |r.link.replies| <= |s.replies|
  {
    var token := MeasDelToken(par);
    QueryOnlyAsks(s, MeadCommand(ch1, ch2, token));
    var q := QueryOn(s, MeadCommand(ch1, ch2, token));
    if q.val.None? then Step(q.link, NaN)
    else
      match MeadValue(q.val.value, token)
      case Some(g) => Step(q.link, conv.stod(g))
      case None => Step(q.link, NaN)
  }

  /** The instrument's "****" (no valid measurement) gives NaN. */
  lemma MeasureDelayStars(s: Link, conv: Conversions, ch1: Channel, ch2: Channel, par: MeasDelParam, d1: char, d2: char, rest: string)
    requires var q := QueryOn(s, MeadCommand(ch1, ch2, MeasDelToken(par)));
      q.val == Some("C" + ([d1] + ("-C" + ([d2] + (":MEAD " + (MeasDelToken(par) + ("," + ("****" + rest))))))))
    ensures MeasureDelayOn(s, conv, ch1, ch2, par).val == NaN
  {
    MeadStars(d1, d2, MeasDelToken(par), rest);
  }

  // ---------------------------------------------------------------------
  // Timebase

  /** SetTimebase(tdiv, delay): UNSPEC has no entry and is refused; else
    * send the entry's text, then the delay. */
  function SetTimebaseDivOn(s: Link, conv: Conversions, tdiv: TimeDiv, delay: Double): Step<bool>
  {
    match TimeText(tdiv)
    case None => Step(s, false)
    case Some(text) =>
      var w := WriteOn(s, "TDIV " + text);
      if w.val then SetTimeDelayOn(w.link, conv, delay) else w
  }

  /** The first of secs[from..|secs|-1] at or above x; the last entry when
    * none is (or x is NaN). */
  function PickFrom(secs: seq<real>, x: Double, from: nat): (k: nat)
    requires from < |secs|
    ensures from <= k < |secs|
    decreases |secs| - from
  {
    if from == |secs| - 1 then from
    else if Le(x, Num(secs[from])) then from
    else PickFrom(secs, x, from + 1)
  }

  lemma {:induction false} PickFromSpec(secs: seq<real>, x: Double, from: nat)
    requires from < |secs|
    ensures var k := PickFrom(secs, x, from);
      && (k < |secs| - 1 ==> Le(x, Num(secs[k])))
      && (forall j :: from <= j < k ==> !Le(x, Num(secs[j])))
    decreases |secs| - from
  {
    if from < |secs| - 1 && !Le(x, Num(secs[from])) {
      PickFromSpec(secs, x, from + 1);
    }
  }

  /** The time/div entry SetTimebase(capture) picks for a capture time. */
  function PickTimebase(tcapture: Double): (k: nat)
    ensures k < |TimePairs|
  {
    PickFrom(Seconds(TimePairs), Div(tcapture, Num(NTimeDivisions as real)), 0)
  }

  /** The time/div entry SetTimebase(capture) sets. */
  function TimebaseEntry(tcapture: Double): TimePair
  {
    TimePairs[PickTimebase(tcapture)]
  }

  /** SetTimebase(capture, delay): the whole-screen time actually set, or
    * NaN when setting it failed. */
  function SetTimebaseOn(s: Link, conv: Conversions, tcapture: Double, delay: Double): Step<Double>
  {
    var e := TimebaseEntry(tcapture);
    var w := SetTimebaseDivOn(s, conv, e.tdiv, delay);
    if w.val then Step(w.link, Num(ScreenTime(e))) else Step(w.link, NaN)
  }

  /** A target no larger than the last entry picks an entry that is at
    * least the target. */
  lemma PickFromCovers(secs: seq<real>, x: real, from: nat)
    requires from < |secs| && x <= secs[|secs| - 1]
    ensures x <= secs[PickFrom(secs, Num(x), from)]
  {
    PickFromSpec(secs, Num(x), from);
  }

  /** In any table, a capture no longer than the last screen picks a
    * screen that holds it. */
  lemma PickedCovers(table: seq<TimePair>, tcapture: real)
    requires |table| > 0 && tcapture <= ScreenTime(table[|table| - 1])
    ensures tcapture <= ScreenTime(table[PickFrom(Seconds(table), Num(tcapture / 14.0), 0)])
  {
    var secs := Seconds(table);
    PickFromCovers(secs, tcapture / 14.0, 0);
    var k := PickFrom(secs, Num(tcapture / 14.0), 0);
    assert secs[k] == table[k].sec;
  }

  /** The screen picked holds the whole capture, for captures up to 1400 s. */
  lemma TimebaseCovers(tcapture: real)
    requires tcapture <= 1400.0
    ensures ScreenTime(TimebaseEntry(Num(tcapture))) >= tcapture
  {
    assert ScreenTime(TimePairs[|TimePairs| - 1]) == 1400.0;
    PickedCovers(TimePairs, tcapture);
    assert Div(Num(tcapture), Num(NTimeDivisions as real)) == Num(tcapture / 14.0);
  }

  /** A larger target never picks an earlier entry. */
  lemma {:induction false} PickFromMonotone(secs: seq<real>, x1: real, x2: real, from: nat)
    requires from < |secs| && x1 <= x2
    ensures PickFrom(secs, Num(x1), from) <= PickFrom(secs, Num(x2), from)
    decreases |secs| - from
  {
    if from < |secs| - 1 && !Le(Num(x1), Num(secs[from])) {
      PickFromMonotone(secs, x1, x2, from + 1);
    }
  }

  /** A longer capture never picks a shorter screen. */
  lemma TimebaseMonotone(c1: real, c2: real)
    requires c1 <= c2
    ensures TimebaseEntry(Num(c1)).sec <= TimebaseEntry(Num(c2)).sec
  {
    var secs := Seconds(TimePairs);
    PickFromMonotone(secs, c1 / 14.0, c2 / 14.0, 0);
    var k1, k2 := PickTimebase(Num(c1)), PickTimebase(Num(c2));
    TimeTableShape();
    if k1 < k2 {
      assert secs[k1] < secs[k2];
    }
  }

  // ---------------------------------------------------------------------
  // SetupOscilloscopeDefault

  /** The fixed commands that open the default setup. */
  const SetupPreamble: seq<string> := [
    "COMM_HEADER SHORT", "ACQUIRE_WAY SAMPLING", "MEMORY_SIZE 14M", "SINXX_SAMPLE ON",
    "XY_DISPLAY OFF", "DTJN OFF", "PESU OFF", "MENU OFF", "CRMS OFF", "HSMD OFF", "DCST OFF",
    "DI:SWITCH OFF", "MATH:TRACE OFF", "MEASURE_CLEAR", "REF_CLOSE"]

  /** Writes whose outcomes are ignored: every one is attempted. */
  function WriteEachOn(s: Link, commands: seq<string>): Link
    decreases |commands|
  {
    if commands == [] then s
    else WriteOn(WriteEachOn(s, commands[..|commands| - 1]), commands[|commands| - 1]).link
  }

  /** The default for channel i: 1 V/div, offset 0, DC, full bandwidth, 10x
    * probe, not inverted, unit V, no skew; channels 3 and 4 switched off.
    * Every outcome is ignored. */
  function ChannelDefaultOn(s: Link, conv: Conversions, i: int): Link
  {
    var ch := GetChannel(i);
    var l1 := SetChannelExOn(s, conv, ch, false, V_1V, Num(0.0), DC, BWL_FULL, AT_10X, INV_OFF).link;
    var l2 := SetOptionOn(l1, ch, UnitText(V)).link;
    var l3 := SetChannelSkewOn(l2, conv, ch, Num(0.0)).link;
    if i > 2 then SetChannelEnableOn(l3, ch, false).link else l3
  }

  /** The number of channels the default setup visits. */
  const NChannels: nat := 4

  /** The channel defaults for channels 1 to n - 1, in order. */
  function ChannelDefaultsUpTo(s: Link, conv: Conversions, n: nat): Link
    decreases n
  {
    if n <= 1 then s else ChannelDefaultOn(ChannelDefaultsUpTo(s, conv, n - 1), conv, n - 1)
  }

  /** SetupOscilloscopeDefault: the preamble, then the default settings. */
  function DefaultSetupOn(s: Link, conv: Conversions): Link
  {
    DefaultSettingsOn(WriteEachOn(s, SetupPreamble), conv)
  }

  /** 1 ms/div with no delay, the four channels, a rising DC edge trigger on
    * channel 1 at 0 V without holdoff, and auto trigger mode. */
  function DefaultSettingsOn(s: Link, conv: Conversions): Link
  {
    var l2 := SetTimebaseDivOn(s, conv, T_1mS, Num(0.0)).link;
    var l3 := ChannelDefaultsUpTo(l2, conv, NChannels + 1);
    var l4 := SetEdgeTriggerOn(l3, conv, CH1, RISING, Num(0.0), DC, false, Num(0.0)).link;
    SetTriggerModeOn(l4, AUTO).link
  }
}
