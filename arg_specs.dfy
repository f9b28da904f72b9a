// The specification arguments of the command line (EvalStimSpec,
// EvalTrigSpec, EvalMeasSpec, EvalLogSpec in MeasureResponse.cpp). Each
// evaluator starts from an all-unspecified record, reads the comma-separated
// arguments one by one and overwrites the fields each one names; it reports
// false at the first argument it does not understand. The functions say
// what each argument means; the methods run the source's loops and are
// proved to compute those functions.

module ArgSpecs {
  import opened Numbers
  import opened Text
  import opened ArgText

  // ---------------------------------------------------------------------
  // Numbers as the patterns write them: \d*\.?\d*(?:E(?:\+|-)?\d{1,3})?

  /** The end of an exponent E[+-]ddd starting at c (at most three digits),
    * or c when there is none. */
  function ExponentEnd(s: string, c: nat): (j: nat)
    requires c <= |s|
    ensures c <= j <= |s|
  {
    if c < |s| && (s[c] == 'E' || s[c] == 'e') then
      var d := if c + 1 < |s| && (s[c + 1] == '+' || s[c + 1] == '-') then c + 2 else c + 1;
      var n := Digits(s, d);
      if n == 0 then c else d + (if n > 3 then 3 else n)
    else c
  }

  /** The end of the number that starts at i: digits, an optional point,
    * digits, an optional exponent. Every part may be empty. */
  function NumberEnd(s: string, i: nat): (j: nat)
    requires i <= |s|
    ensures i <= j <= |s|
  {
    var a := i + Digits(s, i);
    var b := if a < |s| && s[a] == '.' then a + 1 else a;
    ExponentEnd(s, b + Digits(s, b))
  }

  /** A run of digits followed by something that cannot continue a number
    * is the whole number. */
  lemma NumberEndOfDigits(s: string, i: nat, n: nat)
    requires i + n <= |s|
    requires forall k :: i <= k < i + n ==> IsDigit(s[k])
    requires i + n < |s| ==> !IsDigit(s[i + n]) && s[i + n] !in ".Ee"
    ensures NumberEnd(s, i) == i + n
  {
    DigitsIs(s, i, n);
    if i + n < |s| {
      DigitsIs(s, i + n, 0);
    }
  }

  predicate IsMilli(c: char) { c == 'm' || c == 'M' }

  /** 1 when an optional (m) group (any case) matches at i, else 0. */
  function MilliLen(s: string, i: nat): (n: nat)
    requires i <= |s|
    ensures i + n <= |s|
  {
    if i < |s| && IsMilli(s[i]) then 1 else 0
  }

  // ---------------------------------------------------------------------
  // Stimulus: S1,750mVpk+0.0Vdc

  datatype StimChannelSpec = StimUnspec | S1 | S2
  datatype StimSpec = StimSpec(ch: StimChannelSpec, vpp: Double, vdc: Double)

  const StimDefault := StimSpec(StimUnspec, NaN, NaN)

  /** reChannel, ^(?:ST?|CH?)?([1-2])$ in any case: the channel its digit names. */
  function StimChannel(t: string): Option<StimChannelSpec>
  {
    if t == [] then None
    else
      var d, pre := t[|t| - 1], t[..|t| - 1];
      if (d == '1' || d == '2') && (pre == [] || EqI(pre, "S") || EqI(pre, "ST") || EqI(pre, "C") || EqI(pre, "CH"))
      then Some(if d == '1' then S1 else S2)
      else None
  }

  /** The groups reVoltage captures: amplitude, its milli suffix, the unit,
    * and the optional offset as sign, number and milli suffix. */
  datatype VoltText = VoltText(base: string, suffix: string, unit: string, dc: Option<(string, string, string)>)

  /** The unit (VPP|VPK?) at u, in any case: its length, 0 when absent. */
  function UnitLen(t: string, u: nat): (n: nat)
    requires u <= |t|
    ensures u + n <= |t|
  {
    if HasAtI(t, u, "VPP") || HasAtI(t, u, "VPK") then 3 else if HasAtI(t, u, "VP") then 2 else 0
  }

  /** The offset part (\+|-)(number)(m)?(?:V|VDC)? that ends the argument at w. */
  function OffsetText(t: string, w: nat): Option<(string, string, string)>
    requires w < |t|
  {
    if t[w] == '+' || t[w] == '-' then
      var e := NumberEnd(t, w + 1);
      var m := MilliLen(t, e);
      var tail := t[e + m..];
      if tail == [] || EqI(tail, "V") || EqI(tail, "VDC") then Some((t[w..w + 1], t[w + 1..e], t[e..e + m]))
      else None
    else None
  }

  /** reVoltage: an optional '+', the amplitude, an optional m, the unit
    * and an optional offset, which is all of the argument. */
  function StimVoltText(t: string): Option<VoltText>
  {
    var p := if t != [] && t[0] == '+' then 1 else 0;
    var e := NumberEnd(t, p);
    var u := e + MilliLen(t, e);
    var n := UnitLen(t, u);
    if n == 0 then None
    else
      var volt := VoltText(t[p..e], t[e..u], t[u..u + n], None);
      if u + n == |t| then Some(volt)
      else match OffsetText(t, u + n)
        case None => None
        case Some(dc) => Some(volt.(dc := Some(dc)))
  }

  /** A voltage argument's peak-to-peak amplitude and offset: any unit
    * but VPP is doubled, and no offset part means an offset of 0. */
  function StimVolts(stod: string -> Double, t: string): Option<(Double, Double)>
  {
    match StimVoltText(t)
    case None => None
    case Some(v) =>
      var amp := ToValue(stod, v.base, v.suffix, "");
      var vpp := if SameIcase(v.unit, "VPP") then amp else Mul(Num(2.0), amp);
      var vdc := match v.dc
        case None => Num(0.0)
        case Some(dc) => ToValue(stod, dc.1, dc.2, dc.0);
      Some((vpp, vdc))
  }

  /** What one stimulus argument does to the record: channel arguments are
    * tried before voltage arguments. */
  function StimStep(stod: string -> Double, t: string, x: StimSpec): Option<StimSpec>
  {
    match StimChannel(t)
    case Some(c) => Some(x.(ch := c))
    case None =>
      match StimVolts(stod, t)
      case Some(v) => Some(x.(vpp := v.0, vdc := v.1))
      case None => None
  }

  function StimStepOf(stod: string -> Double): (string, StimSpec) -> Option<StimSpec>
  {
    (t, x) => StimStep(stod, t, x)
  }

  /** EvalStimSpec's verdict and record. */
  function EvalStim(stod: string -> Double, s: string): Eval<StimSpec>
  {
    Fold(s, StimDefault, StimStepOf(stod))
  }

  predicate IsStimArg(stod: string -> Double, t: string)
  {
    StimChannel(t).Some? || StimVolts(stod, t).Some?
  }

  method EvalStimSpec(stod: string -> Double, strSpec: string) returns (ok: bool, spec: StimSpec)
    ensures Eval(ok, spec) == EvalStim(stod, strSpec)
  {
    spec := StimDefault;
    ok := true;
    var s := strSpec;
    while s != []
      invariant Fold(s, spec, StimStepOf(stod)) == EvalStim(stod, strSpec)
      invariant ok
      decreases |s|
    {
      var cut := Comma(s);
      if cut.None? {
        ok := false;
        break;
      }
      var arg := cut.value.arg;
      var chan := StimChannel(arg);
      if chan.Some? {
        spec := spec.(ch := chan.value);
      } else {
        var volts := StimVolts(stod, arg);
        if volts.None? {
          ok := false;
          break;
        }
        spec := spec.(vpp := volts.value.0, vdc := volts.value.1);
      }
      s := cut.value.rest;
    }
  }

  /** A stimulus specification is accepted exactly when it is on one line
    * and every argument is a channel or a voltage. */
  lemma EvalStimOk(stod: string -> Double, s: string)
    ensures EvalStim(stod, s).ok <==> OneLine(s) && forall i :: 0 <= i < |Tokens(s)| ==> IsStimArg(stod, Tokens(s)[i])
  {
    FoldIsApply(s, StimDefault, StimStepOf(stod));
    if OneLine(s) {
      ApplyOk(Tokens(s), StimDefault, StimStepOf(stod), t => IsStimArg(stod, t));
    }
  }

  predicate SetsStimChannel(t: string) { StimChannel(t).Some? }
  function StimChannelArg(t: string): StimChannelSpec { OrElse(StimChannel(t), StimUnspec) }
  function StimChannelField(x: StimSpec): StimChannelSpec { x.ch }
  predicate SetsStimVolts(t: string) { StimChannel(t).None? && StimVoltText(t).Some? }
  function StimVoltsArg(stod: string -> Double): string -> (Double, Double)
  {
    t => OrElse(StimVolts(stod, t), (NaN, NaN))
  }
  function StimVoltsField(x: StimSpec): (Double, Double) { (x.vpp, x.vdc) }

  /** The channel is the one the last channel argument names; amplitude
    * and offset come from the last voltage argument. */
  lemma EvalStimLaterWins(stod: string -> Double, s: string)
    requires EvalStim(stod, s).ok
    ensures EvalStim(stod, s).spec.ch == LastSet(Tokens(s), SetsStimChannel, StimChannelArg, StimUnspec)
    ensures StimVoltsField(EvalStim(stod, s).spec) == LastSet(Tokens(s), SetsStimVolts, StimVoltsArg(stod), (NaN, NaN))
  {
    FoldIsApply(s, StimDefault, StimStepOf(stod));
    LaterTokensWin(Tokens(s), StimDefault, StimStepOf(stod), StimChannelField, SetsStimChannel, StimChannelArg);
    LaterTokensWin(Tokens(s), StimDefault, StimStepOf(stod), StimVoltsField, SetsStimVolts, StimVoltsArg(stod));
  }

  /** stod reads every text as a finite number (no NaN, no infinity). */
  ghost predicate NumericReader(stod: string -> Double) { forall t :: stod(t).Num? }

  /** Each voltage of a stimulus record is unset (NaN) or a number. */
  predicate StimNumbers(x: StimSpec)
  {
    (x.vpp.NaN? || x.vpp.Num?) && (x.vdc.NaN? || x.vdc.Num?)
  }

  /** With a reader that yields numbers, EvalStimSpec fills in numbers or
    * leaves a voltage unset. */
  lemma EvalStimNumbers(stod: string -> Double, s: string)
    requires NumericReader(stod)
    ensures StimNumbers(EvalStim(stod, s).spec)
  {
    forall t, x | StimNumbers(x) && StimStepOf(stod)(t, x).Some?
      ensures StimNumbers(StimStepOf(stod)(t, x).value)
    {
      if StimChannel(t).None? {
        var v := StimVoltText(t).value;
        ToValueNumber(stod, v.base, v.suffix, "");
        if v.dc.Some? {
          ToValueNumber(stod, v.dc.value.1, v.dc.value.2, v.dc.value.0);
        }
      }
    }
    FoldKeeps(s, StimDefault, StimStepOf(stod), StimNumbers);
  }

  lemma UnitStartsWithV(unit: string)
    requires EqI(unit, "VPP") || EqI(unit, "VPK") || EqI(unit, "VP")
    ensures unit[0] == 'V' || unit[0] == 'v'
  {
    assert SameLetterI(unit[0], 'V');
  }

  /** A unit that ends the argument is read whole. */
  lemma UnitLenOf(t: string, u: nat)
    requires u <= |t|
    requires EqI(t[u..], "VPP") || EqI(t[u..], "VPK") || EqI(t[u..], "VP")
    ensures UnitLen(t, u) == |t| - u
  {
    var unit := t[u..];
    assert t[u..u + |unit|] == unit;
    if EqI(unit, "VP") {
      assert !HasAtI(t, u, "VPP") && !HasAtI(t, u, "VPK");
    }
  }

  /** A number and a unit alone are read as amplitude and unit. */
  lemma StimVoltTextPlain(n: string, unit: string)
    requires AllDigits(n)
    requires EqI(unit, "VPP") || EqI(unit, "VPK") || EqI(unit, "VP")
    ensures StimVoltText(n + unit) == Some(VoltText(n, "", unit, None))
  {
    var t := n + unit;
    UnitStartsWithV(unit);
    assert t[|n|..] == unit;
    assert t[|n|] == unit[0];
    assert t[0] != '+' by {
      if n != [] { assert t[0] == n[0]; }
    }
    NumberEndOfDigits(t, 0, |n|);
    UnitLenOf(t, |n|);
    StimVoltTextWhole(t, |n|);
    assert t[..|n|] == n;
  }

  /** An unsigned amplitude ending at e, no milli suffix, and a unit that
    * runs to the end are read as amplitude and unit, with no offset. */
  lemma StimVoltTextWhole(t: string, e: nat)
    requires e < |t| && (t[e] == 'V' || t[e] == 'v')
    requires (t == [] || t[0] != '+') && NumberEnd(t, 0) == e
    requires UnitLen(t, e) == |t| - e
    ensures StimVoltText(t) == Some(VoltText(t[..e], "", t[e..], None))
  {
    assert MilliLen(t, e) == 0;
    assert t[0..e] == t[..e] && t[e..e] == [] && t[e..|t|] == t[e..];
  }

  /** A plain amplitude in VPP is taken as it is; in VPK or VP it is
    * doubled to peak-to-peak; without an offset part the offset is 0. */
  lemma StimAmplitudeOf(stod: string -> Double, n: string, unit: string)
    requires AllDigits(n)
    requires EqI(unit, "VPP") || EqI(unit, "VPK") || EqI(unit, "VP")
    ensures StimVolts(stod, n + unit) ==
      Some((if EqI(unit, "VPP") then stod(n) else Mul(Num(2.0), stod(n)), Num(0.0)))
  {
    StimVoltTextPlain(n, unit);
    SameIcaseMeans(unit, "VPP");
  }

  // ---------------------------------------------------------------------
  // Trigger: CH1,0.0V,rising,ac

  datatype TrigChannelSpec = TrigUnspec | TrigCh1 | TrigCh2 | TrigCh3 | TrigCh4 | TrigIn | TrigOut
  datatype CouplingSpec = CoupUnspec | CoupAC | CoupDC
  datatype EdgeSpec = EdgeUnspec | Rising | Falling
  datatype TrigSpec = TrigSpec(voltage: Double, coup: CouplingSpec, edge: EdgeSpec, ch: TrigChannelSpec)

  const TrigDefault := TrigSpec(NaN, CoupUnspec, EdgeUnspec, TrigUnspec)

  /** reChannel, ^(?:(I)N|(O)UT|CH?([1-4]))$ in any case. */
  function TrigChannel(t: string): Option<TrigChannelSpec>
  {
    if EqI(t, "IN") then Some(TrigIn)
    else if EqI(t, "OUT") then Some(TrigOut)
    else if 2 <= |t| <= 3 && '1' <= t[|t| - 1] <= '4' && (EqI(t[..|t| - 1], "C") || EqI(t[..|t| - 1], "CH")) then
      Some(match t[|t| - 1] case '1' => TrigCh1 case '2' => TrigCh2 case '3' => TrigCh3 case _ => TrigCh4)
    else None
  }

  /** reCoup, ^(?:(A)C|(D)C)$ in any case. */
  function TrigCoupling(t: string): Option<CouplingSpec>
  {
    if EqI(t, "AC") then Some(CoupAC) else if EqI(t, "DC") then Some(CoupDC) else None
  }

  /** reEdge: R, RISE or RISING; F, FALL or FALLING; in any case. */
  function TrigEdge(t: string): Option<EdgeSpec>
  {
    if EqI(t, "R") || EqI(t, "RISE") || EqI(t, "RISING") then Some(Rising)
    else if EqI(t, "F") || EqI(t, "FALL") || EqI(t, "FALLING") then Some(Falling)
    else None
  }

  /** reVoltage, ^((?:\+|-)?number)(M)?V?(?:,(.+))?$ in any case: the
    * signed number and its suffix letter. */
  function TrigVoltText(t: string): Option<(string, string)>
  {
    var p := if t != [] && (t[0] == '+' || t[0] == '-') then 1 else 0;
    var e := NumberEnd(t, p);
    var m := MilliLen(t, e);
    var w := if e + m < |t| && (t[e + m] == 'v' || t[e + m] == 'V') then e + m + 1 else e + m;
    if w == |t| || (t[w] == ',' && w + 1 < |t| && OneLine(t[w + 1..])) then Some((t[..e], t[e..e + m]))
    else None
  }

  /** What one trigger argument does: channel, coupling, edge and voltage
    * are tried in that order. */
  function TrigStep(stod: string -> Double, t: string, x: TrigSpec): Option<TrigSpec>
  {
    match TrigChannel(t)
    case Some(c) => Some(x.(ch := c))
    case None =>
      match TrigCoupling(t)
      case Some(c) => Some(x.(coup := c))
      case None =>
        match TrigEdge(t)
        case Some(e) => Some(x.(edge := e))
        case None =>
          match TrigVoltText(t)
          case Some(v) => Some(x.(voltage := ToValue(stod, v.0, v.1, "")))
          case None => None
  }

  function TrigStepOf(stod: string -> Double): (string, TrigSpec) -> Option<TrigSpec>
  {
    (t, x) => TrigStep(stod, t, x)
  }

  function EvalTrig(stod: string -> Double, s: string): Eval<TrigSpec>
  {
    Fold(s, TrigDefault, TrigStepOf(stod))
  }

  predicate IsTrigArg(t: string)
  {
    TrigChannel(t).Some? || TrigCoupling(t).Some? || TrigEdge(t).Some? || TrigVoltText(t).Some?
  }

  method EvalTrigSpec(stod: string -> Double, strSpec: string) returns (ok: bool, spec: TrigSpec)
    ensures Eval(ok, spec) == EvalTrig(stod, strSpec)
  {
    spec := TrigDefault;
    ok := true;
    var s := strSpec;
    while s != []
      invariant Fold(s, spec, TrigStepOf(stod)) == EvalTrig(stod, strSpec)
      invariant ok
      decreases |s|
    {
      var cut := Comma(s);
      if cut.None? {
        ok := false;
        break;
      }
      var arg := cut.value.arg;
      var chan := TrigChannel(arg);
      var coup := TrigCoupling(arg);
      var edge := TrigEdge(arg);
      var volt := TrigVoltText(arg);
      if chan.Some? {
        spec := spec.(ch := chan.value);
      } else if coup.Some? {
        spec := spec.(coup := coup.value);
      } else if edge.Some? {
        spec := spec.(edge := edge.value);
      } else if volt.Some? {
        spec := spec.(voltage := ToValue(stod, volt.value.0, volt.value.1, ""));
      } else {
        ok := false;
        break;
      }
      s := cut.value.rest;
    }
  }

  /** A trigger specification is accepted exactly when it is on one line and
    * every argument is a channel, a coupling, an edge or a voltage. */
  lemma EvalTrigOk(stod: string -> Double, s: string)
    ensures EvalTrig(stod, s).ok <==> OneLine(s) && forall i :: 0 <= i < |Tokens(s)| ==> IsTrigArg(Tokens(s)[i])
  {
    FoldIsApply(s, TrigDefault, TrigStepOf(stod));
    if OneLine(s) {
      ApplyOk(Tokens(s), TrigDefault, TrigStepOf(stod), IsTrigArg);
    }
  }

  predicate TrigNumbers(x: TrigSpec) { x.voltage.NaN? || x.voltage.Num? }

  /** With a reader that yields numbers, EvalTrigSpec's voltage is a
    * number or unset. */
  lemma EvalTrigNumbers(stod: string -> Double, s: string)
    requires NumericReader(stod)
    ensures TrigNumbers(EvalTrig(stod, s).spec)
  {
    forall t, x | TrigNumbers(x) && TrigStepOf(stod)(t, x).Some?
      ensures TrigNumbers(TrigStepOf(stod)(t, x).value)
    {
      match TrigVoltText(t)
      case None =>
      case Some(v) => ToValueNumber(stod, v.0, v.1, "");
    }
    FoldKeeps(s, TrigDefault, TrigStepOf(stod), TrigNumbers);
  }

  predicate SetsTrigChannel(t: string) { TrigChannel(t).Some? }
  function TrigChannelArg(t: string): TrigChannelSpec { OrElse(TrigChannel(t), TrigUnspec) }
  function TrigChannelField(x: TrigSpec): TrigChannelSpec { x.ch }
  predicate SetsTrigCoupling(t: string) { TrigChannel(t).None? && TrigCoupling(t).Some? }
  function TrigCouplingArg(t: string): CouplingSpec { OrElse(TrigCoupling(t), CoupUnspec) }
  function TrigCouplingField(x: TrigSpec): CouplingSpec { x.coup }

  /** The trigger channel is the one the last channel argument names, and
    * the coupling the last coupling argument names. A channel argument is
    * never read as anything else; "1" alone is a voltage, not a channel. */
  lemma EvalTrigLaterWins(stod: string -> Double, s: string)
    requires EvalTrig(stod, s).ok
    ensures EvalTrig(stod, s).spec.ch == LastSet(Tokens(s), SetsTrigChannel, TrigChannelArg, TrigUnspec)
    ensures EvalTrig(stod, s).spec.coup == LastSet(Tokens(s), SetsTrigCoupling, TrigCouplingArg, CoupUnspec)
  {
    var step := TrigStepOf(stod);
    FoldIsApply(s, TrigDefault, step);
    forall t, x | step(t, x).Some?
      ensures SetsTrigChannel(t) ==> TrigChannelField(step(t, x).value) == TrigChannelArg(t)
      ensures !SetsTrigChannel(t) ==> TrigChannelField(step(t, x).value) == TrigChannelField(x)
      ensures SetsTrigCoupling(t) ==> TrigCouplingField(step(t, x).value) == TrigCouplingArg(t)
      ensures !SetsTrigCoupling(t) ==> TrigCouplingField(step(t, x).value) == TrigCouplingField(x)
    {
      assert step(t, x) == TrigStep(stod, t, x);
    }
    LaterTokensWin(Tokens(s), TrigDefault, step, TrigChannelField, SetsTrigChannel, TrigChannelArg);
    LaterTokensWin(Tokens(s), TrigDefault, step, TrigCouplingField, SetsTrigCoupling, TrigCouplingArg);
  }

  // ---------------------------------------------------------------------
  // Measurement: VPP,phase

  datatype VoltageSpec = VoltUnspec | MeasVpp | MeasVpk
  datatype TimeSpec = TimeUnspec | MeasPhase | MeasDelay
  datatype MeasSpec = MeasSpec(vspec: VoltageSpec, tspec: TimeSpec)

  const MeasDefault := MeasSpec(VoltUnspec, TimeUnspec)

  /** reVtype, ^(?:V?P(P)|V?P(K))$ in any case. */
  function MeasVoltage(t: string): Option<VoltageSpec>
  {
    if EqI(t, "VPP") || EqI(t, "PP") then Some(MeasVpp)
    else if EqI(t, "VPK") || EqI(t, "PK") then Some(MeasVpk)
    else None
  }

  /** reTtype, ^(?:(P)HA(?:SE)?|(D)EL(?:AY)?)$ in any case. */
  function MeasTime(t: string): Option<TimeSpec>
  {
    if EqI(t, "PHA") || EqI(t, "PHASE") then Some(MeasPhase)
    else if EqI(t, "DEL") || EqI(t, "DELAY") then Some(MeasDelay)
    else None
  }

  function MeasStep(t: string, x: MeasSpec): Option<MeasSpec>
  {
    match MeasVoltage(t)
    case Some(v) => Some(x.(vspec := v))
    case None =>
      match MeasTime(t)
      case Some(k) => Some(x.(tspec := k))
      case None => None
  }

  function EvalMeas(s: string): Eval<MeasSpec>
  {
    Fold(s, MeasDefault, MeasStep)
  }

  predicate IsMeasArg(t: string) { MeasVoltage(t).Some? || MeasTime(t).Some? }

  method EvalMeasSpec(strSpec: string) returns (ok: bool, spec: MeasSpec)
    ensures Eval(ok, spec) == EvalMeas(strSpec)
  {
    spec := MeasDefault;
    ok := true;
    var s := strSpec;
    while s != []
      invariant Fold(s, spec, MeasStep) == EvalMeas(strSpec)
      invariant ok
      decreases |s|
    {
      var cut := Comma(s);
      if cut.None? {
        ok := false;
        break;
      }
      var arg := cut.value.arg;
      var volt := MeasVoltage(arg);
      var time := MeasTime(arg);
      if volt.Some? {
        spec := spec.(vspec := volt.value);
      } else if time.Some? {
        spec := spec.(tspec := time.value);
      } else {
        ok := false;
        break;
      }
      s := cut.value.rest;
    }
  }

  /** A measurement specification is accepted exactly when it is on one
    * line and every argument names a voltage or a time measurement. */
  lemma EvalMeasOk(s: string)
    ensures EvalMeas(s).ok <==> OneLine(s) && forall i :: 0 <= i < |Tokens(s)| ==> IsMeasArg(Tokens(s)[i])
  {
    FoldIsApply(s, MeasDefault, MeasStep);
    if OneLine(s) {
      ApplyOk(Tokens(s), MeasDefault, MeasStep, IsMeasArg);
    }
  }

  predicate SetsMeasVoltage(t: string) { MeasVoltage(t).Some? }
  function MeasVoltageArg(t: string): VoltageSpec { OrElse(MeasVoltage(t), VoltUnspec) }
  function MeasVoltageField(x: MeasSpec): VoltageSpec { x.vspec }
  predicate SetsMeasTime(t: string) { MeasVoltage(t).None? && MeasTime(t).Some? }
  function MeasTimeArg(t: string): TimeSpec { OrElse(MeasTime(t), TimeUnspec) }
  function MeasTimeField(x: MeasSpec): TimeSpec { x.tspec }

  /** The last voltage argument and the last time argument decide. */
  lemma EvalMeasLaterWins(s: string)
    requires EvalMeas(s).ok
    ensures EvalMeas(s).spec.vspec == LastSet(Tokens(s), SetsMeasVoltage, MeasVoltageArg, VoltUnspec)
    ensures EvalMeas(s).spec.tspec == LastSet(Tokens(s), SetsMeasTime, MeasTimeArg, TimeUnspec)
  {
    FoldIsApply(s, MeasDefault, MeasStep);
    LaterTokensWin(Tokens(s), MeasDefault, MeasStep, MeasVoltageField, SetsMeasVoltage, MeasVoltageArg);
    LaterTokensWin(Tokens(s), MeasDefault, MeasStep, MeasTimeField, SetsMeasTime, MeasTimeArg);
  }

  // ---------------------------------------------------------------------
  // Log file: "C:\Tools\Data\out.txt",echo

  datatype ConsoleSpec = ConsoleUnspec | Echo | Quiet
  datatype LogSpec = LogSpec(filename: string, console: ConsoleSpec)

  const LogDefault := LogSpec("", ConsoleUnspec)

  /** An argument of a log specification: a quoted file name or a bare word. */
  datatype LogArg = Quoted(name: string) | Word(text: string)

  predicate IsQuote(c: char) { c == '"' }
  predicate IsCommaOrQuote(c: char) { c == ',' || c == '"' }

  /** The first index at or after i whose character satisfies p, or |s|. */
  function FirstFrom(s: string, i: nat, p: char -> bool): (j: nat)
    requires i <= |s|
    ensures i <= j <= |s| && (j < |s| ==> p(s[j]))
    ensures forall k :: i <= k < j ==> !p(s[k])
    decreases |s| - i
  {
    if i == |s| || p(s[i]) then i else FirstFrom(s, i + 1, p)
  }

  /** (?:,(.*))?$ at j: the end of the text, or a comma and one line. */
  function RestAfter(s: string, j: nat): (r: Option<string>)
    requires j <= |s|
    ensures r.Some? ==> |r.value| <= |s| - j
  {
    if j == |s| then Some([])
    else if s[j] == ',' && OneLine(s[j + 1..]) then Some(s[j + 1..])
    else None
  }

  // The quoted-name pattern reQuoted is written [^""] inside a C++ string
  // literal. The first of those quotes ends the literal and the second
  // opens another, so the compiler joins the two into
  // ^"([^]+)"(?:,(.*))?$ . In the ECMAScript grammar [^] is the empty
  // class negated, which matches every character, quotes and line breaks
  // included, and the greedy + backs off only as far as the last closing
  // quote after which the rest of the pattern matches.

  /** The closing quote reQuoted settles on: the last index q below n, at
    * least 2, that holds a quote followed by the end of the text or by a
    * comma and one line. */
  function LastCloseBelow(s: string, n: nat): (r: Option<nat>)
    requires n <= |s|
    ensures r.Some? ==> 2 <= r.value < n && s[r.value] == '"' && RestAfter(s, r.value + 1).Some?
    ensures r.None? ==> forall q :: 2 <= q < n && s[q] == '"' ==> RestAfter(s, q + 1).None?
    decreases n
  {
    if n <= 2 then None
    else if s[n - 1] == '"' && RestAfter(s, n).Some? then Some(n - 1)
    else LastCloseBelow(s, n - 1)
  }

  /** The next argument and the text after it: reQuoted is tried first,
    * then reNonQuoted. */
  function LogCut(s: string): (r: Option<(LogArg, string)>)
    requires s != []
    ensures r.Some? ==> |r.value.1| < |s|
  {
    if s[0] == '"' then
      match LastCloseBelow(s, |s|)
      case None => None
      case Some(q) => Some((Quoted(s[1..q]), RestAfter(s, q + 1).value))
    else WordCut(s)
  }

  /** reNonQuoted, ^([^,"]+?)(?:,(.*))?$ , on a text that does not start
    * with a quote. */
  function WordCut(s: string): (r: Option<(LogArg, string)>)
    requires s != []
    ensures r.Some? ==> |r.value.1| < |s|
  {
    var p := FirstFrom(s, 0, IsCommaOrQuote);
    if p == 0 || (p < |s| && s[p] == '"') then None
    else match RestAfter(s, p)
      case None => None
      case Some(rest) => Some((Word(s[..p]), rest))
  }

  /** What one argument does: a quoted name or a word other than echo and
    * quiet (any case) is the file name. */
  function LogStep(a: LogArg, x: LogSpec): LogSpec
  {
    match a
    case Quoted(name) => x.(filename := name)
    case Word(w) =>
      if EqI(w, "echo") then x.(console := Echo)
      else if EqI(w, "quiet") then x.(console := Quiet)
      else x.(filename := w)
  }

  function LogFrom(s: string, acc: LogSpec): Eval<LogSpec>
    decreases |s|
  {
    if s == [] then Eval(true, acc)
    else match LogCut(s)
      case None => Eval(false, acc)
      case Some(c) => LogFrom(c.1, LogStep(c.0, acc))
  }

  /** EvalLogSpec's verdict and record. */
  function EvalLog(s: string): Eval<LogSpec> { LogFrom(s, LogDefault) }

  method EvalLogSpec(strSpec: string) returns (ok: bool, spec: LogSpec)
    ensures Eval(ok, spec) == EvalLog(strSpec)
  {
    spec := LogDefault;
    ok := true;
    var s := strSpec;
    while s != []
      invariant LogFrom(s, spec) == EvalLog(strSpec)
      invariant ok
      decreases |s|
    {
      var cut := LogCut(s);
      if cut.None? {
        ok := false;
        break;
      }
      s := cut.value.1;
      match cut.value.0
      case Quoted(name) =>
        spec := spec.(filename := name);
      case Word(w) =>
        if EqI(w, "echo") {
          spec := spec.(console := Echo);
        } else if EqI(w, "quiet") {
          spec := spec.(console := Quiet);
        } else {
          spec := spec.(filename := w);
        }
    }
  }

  /** Below a stretch free of quotes the last closing quote is the one
    * found below the stretch. */
  lemma {:induction false} LastCloseSkips(s: string, m: nat, n: nat)
    requires m <= n <= |s|
    requires forall k :: m <= k < n ==> s[k] != '"'
    ensures LastCloseBelow(s, n) == LastCloseBelow(s, m)
    decreases n
  {
    if n > m && n > 2 {
      LastCloseSkips(s, m, n - 1);
    }
  }

  /** A quoted file name, then more arguments with no quote among them:
    * everything up to the closing quote is the name (quotes and line
    * breaks inside it included), and the rest is read after it, so a later
    * name replaces it. */
  lemma LogQuotedThen(name: string, rest: string, acc: LogSpec)
    requires name != []
    requires OneLine(rest) && forall k :: 0 <= k < |rest| ==> rest[k] != '"'
    ensures LogFrom("\"" + name + "\"," + rest, acc) == LogFrom(rest, acc.(filename := name))
  {
    LogQuotedCut(name, rest);
  }

  lemma LogQuotedCut(name: string, rest: string)
    requires name != []
    requires OneLine(rest) && forall k :: 0 <= k < |rest| ==> rest[k] != '"'
    ensures LogCut("\"" + name + "\"," + rest) == Some((Quoted(name), rest))
  {
    var s := "\"" + name + "\"," + rest;
    var q := |name| + 1;
    assert s[q] == '"' && s[q + 1] == ',';
    assert s[q + 2..] == rest;
    forall k | q + 1 <= k < |s|
      ensures s[k] != '"'
    {
      if k > q + 1 { assert s[k] == s[q + 2..][k - q - 2]; }
    }
    LastCloseSkips(s, q + 1, |s|);
    assert RestAfter(s, q + 1) == Some(rest);
    assert LastCloseBelow(s, |s|) == Some(q);
    assert s[1..q] == name;
  }

  /** A bare word, then more arguments: the word is read first. */
  lemma LogWordThen(w: string, rest: string, acc: LogSpec)
    requires w != [] && forall k :: 0 <= k < |w| ==> !IsCommaOrQuote(w[k])
    requires OneLine(rest)
    ensures LogFrom(w + "," + rest, acc) == LogFrom(rest, LogStep(Word(w), acc))
  {
    var s := w + "," + rest;
    forall k | 0 <= k < |w|
      ensures !IsCommaOrQuote(s[k])
    {
      assert s[k] == w[k];
    }
    assert s[|w|] == ',';
    assert FirstFrom(s, 0, IsCommaOrQuote) == |w|;
    assert s[|w| + 1..] == rest;
    assert s[..|w|] == w;
  }

  /** A specification that starts with a comma, or opens a quote it never
    * closes, is rejected. */
  lemma LogRejects(s: string, acc: LogSpec)
    requires s != [] && (s[0] == ',' || (s[0] == '"' && forall k :: 1 <= k < |s| ==> s[k] != '"'))
    ensures !LogFrom(s, acc).ok
  {
    if s[0] == '"' {
      LastCloseSkips(s, 1, |s|);
    } else {
      assert FirstFrom(s, 0, IsCommaOrQuote) == 0;
    }
  }

  /** A bare word: not empty, on one line, with no comma and no quote. */
  predicate PlainWord(t: string)
  {
    t != [] && OneLine(t) && forall k :: 0 <= k < |t| ==> !IsCommaOrQuote(t[k])
  }

  function LogWordStep(t: string, x: LogSpec): Option<LogSpec> { Some(LogStep(Word(t), x)) }

  /** Bare words separated by commas are read one by one. */
  lemma {:induction false} LogWordsRead(ws: seq<string>, acc: LogSpec)
    requires forall i :: 0 <= i < |ws| ==> PlainWord(ws[i])
    ensures LogFrom(Join(ws), acc) == Apply(ws, acc, LogWordStep)
    decreases |ws|
  {
    if |ws| == 1 {
      var w := ws[0];
      assert Join(ws) == w;
      assert FirstFrom(w, 0, IsCommaOrQuote) == |w|;
      assert w[..|w|] == w;
    } else if |ws| > 1 {
      JoinOneLine(ws[1..]);
      LogWordThen(ws[0], Join(ws[1..]), acc);
      LogWordsRead(ws[1..], LogStep(Word(ws[0]), acc));
    }
  }

  predicate NamesFile(t: string) { !EqI(t, "echo") && !EqI(t, "quiet") }
  function FileWord(t: string): string { t }
  predicate NamesConsole(t: string) { EqI(t, "echo") || EqI(t, "quiet") }
  function ConsoleWord(t: string): ConsoleSpec { if EqI(t, "echo") then Echo else Quiet }
  function LogFileField(x: LogSpec): string { x.filename }
  function LogConsoleField(x: LogSpec): ConsoleSpec { x.console }

  /** A list of bare words is accepted; the file name is the last word that
    * is not echo or quiet, and the console mode the last echo or quiet. */
  lemma EvalLogWords(ws: seq<string>)
    requires forall i :: 0 <= i < |ws| ==> PlainWord(ws[i])
    ensures EvalLog(Join(ws)).ok
    ensures EvalLog(Join(ws)).spec.filename == LastSet(ws, NamesFile, FileWord, "")
    ensures EvalLog(Join(ws)).spec.console == LastSet(ws, NamesConsole, ConsoleWord, ConsoleUnspec)
  {
    LogWordsRead(ws, LogDefault);
    ApplyOk(ws, LogDefault, LogWordStep, t => true);
    LaterTokensWin(ws, LogDefault, LogWordStep, LogFileField, NamesFile, FileWord);
    LaterTokensWin(ws, LogDefault, LogWordStep, LogConsoleField, NamesConsole, ConsoleWord);
  }

  // ---------------------------------------------------------------------
  // The quoted-name pattern as evidently meant: ^"([^"]+)"(?:,(.*))?$

  /** The cut with a quoted name ending at its first closing quote. */
  function LogCutIntended(s: string): (r: Option<(LogArg, string)>)
    requires s != []
    ensures r.Some? ==> |r.value.1| < |s|
  {
    if s[0] == '"' then
      var q := FirstFrom(s, 1, IsQuote);
      if q == |s| || q == 1 then None
      else match RestAfter(s, q + 1)
        case None => None
        case Some(rest) => Some((Quoted(s[1..q]), rest))
    else WordCut(s)
  }

  function LogFromIntended(s: string, acc: LogSpec): Eval<LogSpec>
    decreases |s|
  {
    if s == [] then Eval(true, acc)
    else match LogCutIntended(s)
      case None => Eval(false, acc)
      case Some(c) => LogFromIntended(c.1, LogStep(c.0, acc))
  }

  function EvalLogIntended(s: string): Eval<LogSpec> { LogFromIntended(s, LogDefault) }

  /** As intended, a quoted name with no quote inside ends at its closing
    * quote whatever follows, so further quoted names are read in turn. */
  lemma LogQuotedThenIntended(name: string, rest: string, acc: LogSpec)
    requires name != [] && forall k :: 0 <= k < |name| ==> name[k] != '"'
    requires OneLine(rest)
    ensures LogFromIntended("\"" + name + "\"," + rest, acc) == LogFromIntended(rest, acc.(filename := name))
  {
    var s := "\"" + name + "\"," + rest;
    forall k | 1 <= k < |name| + 1
      ensures !IsQuote(s[k])
    {
      assert s[k] == name[k - 1];
    }
    assert s[|name| + 1] == '"';
    assert FirstFrom(s, 1, IsQuote) == |name| + 1;
    assert s[|name| + 2] == ',';
    assert s[|name| + 3..] == rest;
    assert s[1..|name| + 1] == name;
  }

  /** When no quote follows the first closing one, the pattern as written
    * cuts the text exactly as the intended one does. */
  lemma LogCutAgrees(s: string)
    requires s != [] && s[0] == '"'
    requires forall k :: FirstFrom(s, 1, IsQuote) < k < |s| ==> s[k] != '"'
    ensures LogCut(s) == LogCutIntended(s)
  {
    var q := FirstFrom(s, 1, IsQuote);
    LastCloseOnly(s, |s|, q);
  }

  /** With every quote from index 1 on at q, the last acceptable closing
    * quote below n is q when q is one, and there is none otherwise. */
  lemma {:induction false} LastCloseOnly(s: string, n: nat, q: nat)
    requires n <= |s| && 1 <= q
    requires forall k :: 1 <= k < |s| && k != q ==> s[k] != '"'
    ensures LastCloseBelow(s, n)
            == if 2 <= q < n && s[q] == '"' && RestAfter(s, q + 1).Some? then Some(q) else None
    decreases n
  {
    if n > 2 {
      LastCloseOnly(s, n - 1, q);
    }
  }

  /** As written, a quoted name swallows a second quoted name after it, and
    * a stray quote after a closing one is taken into the name rather than
    * rejected. */
  lemma LogQuoteFinding()
    ensures EvalLog("\"a\",\"b\"") == Eval(true, LogSpec("a\",\"b", ConsoleUnspec))
    ensures EvalLogIntended("\"a\",\"b\"") == Eval(true, LogSpec("b", ConsoleUnspec))
    ensures EvalLog("\"a\"b\"") == Eval(true, LogSpec("a\"b", ConsoleUnspec))
    ensures !EvalLogIntended("\"a\"b\"").ok
  {
    var s := "\"a\",\"b\"";
    assert RestAfter(s, 7) == Some([]);
    assert LastCloseBelow(s, 7) == Some(6);
    assert s[1..6] == "a\",\"b";
    assert FirstFrom(s, 1, IsQuote) == 2;
    assert RestAfter(s, 3) == Some("\"b\"");
    var t := "\"b\"";
    assert FirstFrom(t, 1, IsQuote) == 2;
    assert t[1..2] == "b";
    var u := "\"a\"b\"";
    assert RestAfter(u, 5) == Some([]);
    assert LastCloseBelow(u, 5) == Some(4);
    assert u[1..4] == "a\"b";
    assert FirstFrom(u, 1, IsQuote) == 2;
    assert RestAfter(u, 3) == None;
  }
}
