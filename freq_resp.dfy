// The frequency-response session (FreqResp): it owns a sine generator and an
// oscilloscope, checks its configuration and sets both instruments up in
// Init, then measures one frequency per MeasureNext (or every frequency in
// Sweep) until the sweep has passed its stop frequency. The functions here
// say what each operation does to the session and to the two connections;
// the FreqResp class is proved to do exactly that.

module FreqResponse {
  import opened Numbers
  import opened SocketInstrument
  import opened ScopeTables
  import opened Scope
  import opened OscilloscopeDriver
  import SineGen

  // ---------------------------------------------------------------------
  // Configuration, results and return codes

  newtype uint32 = x: int | 0 <= x < 0x1_0000_0000

  datatype SweepKind = LOG | LIN
  datatype Vtype = VPP | VPK
  /** Phase or delay: what is measured between the channels, and the unit
    * of a result's time (TUNIT has the same two values). */
  datatype Ttype = PHASE | DELAY
  datatype Ctype = DC | AC
  datatype Etype = RISE | FALL

  datatype FreqConfig = FreqConfig(fStart: Double, fStop: Double, sweep: SweepKind, nPoints: uint32)
  datatype StimConfig = StimConfig(ch: int, vtStim: Vtype, vstim: Double, vdc: Double)
  datatype ChannelConfig = ChannelConfig(ch: int, coup: Ctype, atten: Double, bwl: bool)
  datatype TrigConfig = TrigConfig(ch: int, edge: Etype, coup: Ctype, vTrig: Double)
  datatype MeasConfig = MeasConfig(vtMeas: Vtype, ttMeas: Ttype)
  datatype DwellConfig = DwellConfig(stableScreens: Double, minDwellMs: uint32)

  /** Everything Init is given besides the two instrument resources. */
  datatype Config = Config(freq: FreqConfig, stim: StimConfig, input: ChannelConfig, output: ChannelConfig,
                           trig: TrigConfig, meas: MeasConfig, dwell: DwellConfig)

  /** One measured point of the response (FRS). */
  datatype FRS = FRS(freq: Double, magIn: Double, magOut: Double, dBgain: Double, time: Double, tunit: Ttype)

  /** A result record nobody has filled in. */
  const NoResult: FRS := FRS(NaN, NaN, NaN, NaN, NaN, PHASE)

  // FRRET: every failure is negative, every success is not.
  const Success := 0
  const Complete := 1
  const NotInitialized := -1
  const AlreadyInitialized := -2
  const InvalidFrequency := -3
  const InvalidStim := -4
  const InvalidTrig := -5
  const InitOscilloscope := -10
  const InitSineGen := -11

  // Auto-scaling limits, as fractions of the screen's peak-to-peak span.
  const SeekMax: real := 1.0
  const SeekMid: real := 0.39
  const SeekMin: real := 0.2
  const SeekMargin: real := 0.0275
  /** The sweep is complete once the frequency passes FreqFudge * fStop. */
  const FreqFudge: real := 1.001
  /** Cycles of the test frequency one screen should hold. */
  const MeasCycles: real := 4.0

  // ---------------------------------------------------------------------
  // Init's checks

  /** The frequency checks Init makes: neither end NaN, a start above 0
    * and a stop above the start. An infinite stop passes. */
  predicate FreqValidAsWritten(fr: FreqConfig)
  {
    !(fr.fStart.NaN? || fr.fStop.NaN?) && !Le(fr.fStart, Num(0.0)) && !Le(fr.fStop, fr.fStart)
  }

  /** The frequency checks with the stop frequency also finite: what a
    * sweep needs in order to end. */
  predicate FreqValid(fr: FreqConfig)
  {
    FreqValidAsWritten(fr) && fr.fStop.Num?
  }

  predicate StimValid(st: StimConfig)
  {
    !(st.vdc.NaN? || st.vstim.NaN?) && !Le(st.vstim, Num(0.0))
  }

  predicate TrigValid(tr: TrigConfig) { !tr.vTrig.NaN? }

  /** Init's verdict on a configuration. The checks run frequency, then
    * stimulus, then trigger, each failure overwriting the code, so the
    * last failing group decides. */
  function ValidationCode(fr: FreqConfig, st: StimConfig, tr: TrigConfig): int
  {
    if !TrigValid(tr) then InvalidTrig
    else if !StimValid(st) then InvalidStim
    else if !FreqValidAsWritten(fr) then InvalidFrequency
    else Success
  }

  /** Init's frequency checks pass exactly when the start is a positive
    * number and the stop a larger number or +inf. */
  lemma AcceptedFrequencies(fr: FreqConfig)
    ensures FreqValidAsWritten(fr) <==>
      && fr.fStart.Num? && 0.0 < fr.fStart.v
      && (fr.fStop == Inf(false) || (fr.fStop.Num? && fr.fStart.v < fr.fStop.v))
  {
  }

  /** Valid frequencies are numbers with 0 < start < stop. */
  lemma ValidFrequencies(fr: FreqConfig)
    requires FreqValid(fr)
    ensures fr.fStart.Num? && fr.fStop.Num? && 0.0 < fr.fStart.v < fr.fStop.v
  {
  }

  /** As written, an infinite stop frequency passes the checks, and then no
    * frequency at all is past FreqFudge times it: the sweep never ends. */
  lemma InfiniteStopAccepted(fr: FreqConfig)
    requires fr.fStart.Num? && fr.fStart.v > 0.0 && fr.fStop == Inf(false)
    ensures FreqValidAsWritten(fr) && !FreqValid(fr)
    ensures forall f :: !Completed(fr, f)
  {
    forall f
      ensures !Completed(fr, f)
    {
      assert Mul(Num(FreqFudge), fr.fStop) == Inf(false);
    }
  }

  // ---------------------------------------------------------------------
  // Init's mappings

  function GeneratorChannel(n: int): SineGen.Channel
  {
    if n == 2 then SineGen.CH2 else SineGen.CH1
  }

  function InputChannel(n: int): Channel
  {
    match n
    case 2 => CH2
    case 3 => CH3
    case 4 => CH4
    case _ => CH1
  }

  /** The output and trigger channels default to channel 2. */
  function OutputChannel(n: int): Channel
  {
    match n
    case 1 => CH1
    case 3 => CH3
    case 4 => CH4
    case _ => CH2
  }

  /** The stimulus amplitude in volts peak-to-peak: twice a peak value. */
  function StimVpp(st: StimConfig): Double
  {
    match st.vtStim
    case VPK => Mul(Num(2.0), Abs(st.vstim))
    case VPP => Abs(st.vstim)
  }

  /** A stimulus that passes the checks has a positive amplitude in either
    * unit, twice the given value for a peak value. */
  lemma StimAmplitude(st: StimConfig)
    requires StimValid(st)
    ensures Gt(StimVpp(st), Num(0.0))
    ensures st.vstim.Num? ==> StimVpp(st) == Num(if st.vtStim == VPK then 2.0 * st.vstim.v else st.vstim.v)
  {
  }

  /** What one AMPL reading is worth: half of it for a peak value. */
  function MeasureFactor(vt: Vtype): real
  {
    match vt
    case VPK => 0.5
    case VPP => 1.0
  }

  function AttenSetting(atten: Double): ChAtten
  {
    if atten == Num(10.0) then AT_10X else AT_1X
  }

  function CouplingSetting(c: Ctype): Coupling
  {
    match c
    case DC => Coupling.DC
    case AC => Coupling.AC
  }

  function TriggerEdge(e: Etype): EdgeType
  {
    match e
    case RISE => RISING
    case FALL => FALLING
  }

  /** The delay measured between the channels for a trigger edge. */
  function DelayEdge(e: Etype): MeasDelParam
  {
    match e
    case RISE => FRR
    case FALL => FFF
  }

  /** The channel numbers 1 to 4 name their own channel; any other number
    * gives channel 1 for the input and channel 2 for the output and trigger. */
  lemma ChannelChoice(n: int)
    ensures 1 <= n <= 4 ==> ChannelNumber(InputChannel(n)) == n && ChannelNumber(OutputChannel(n)) == n
    ensures !(1 <= n <= 4) ==> InputChannel(n) == CH1 && OutputChannel(n) == CH2
    ensures GeneratorChannel(n) == SineGen.CH2 <==> n == 2
  {
  }

  /** The session's working variables: the channels, what is measured and
    * how it is scaled, the stimulus amplitude and the result's unit. */
  datatype Vars = Vars(sg: SineGen.Channel, inCh: Channel, outCh: Channel, trigCh: Channel,
                       mp: MeasParam, measEdge: MeasDelParam, av: real, vStim: Double, tunit: Ttype)

  /** The variables the oscilloscope block of Init sets. */
  function ScopeVars(v: Vars, cfg: Config): Vars
  {
    v.(inCh := InputChannel(cfg.input.ch), outCh := OutputChannel(cfg.output.ch),
       trigCh := OutputChannel(cfg.trig.ch), measEdge := DelayEdge(cfg.trig.edge),
       mp := AMPL, av := MeasureFactor(cfg.meas.vtMeas))
  }

  // ---------------------------------------------------------------------
  // MeasureAndScaleInput

  /** The step MeasureAndScaleInput asks for, from a peak-to-peak reading
    * and the screen's peak-to-peak span. */
  function ScaleRequest(pkpk: Double, pp: Double): (step: int)
    ensures -2 <= step <= 1
  {
    if Gt(pkpk, Scale(pp, SeekMax - SeekMargin)) then 1
    else if Lt(pkpk, Scale(pp, SeekMin - SeekMargin)) then -2
    else if Lt(pkpk, Scale(pp, SeekMid - SeekMargin)) then -1
    else 0
  }

  /** On a positive span: above 97.25% one step up, below 17.25% two steps
    * down, below 36.25% one step down, and in between no step. */
  lemma ScaleRequestBands(pkpk: real, pp: real)
    requires pp > 0.0
    ensures var step := ScaleRequest(Num(pkpk), Num(pp));
      && (step == 1 <==> pkpk > 0.9725 * pp)
      && (step == -2 <==> pkpk < 0.1725 * pp)
      && (step == -1 <==> 0.1725 * pp <= pkpk < 0.3625 * pp)
      && (step == 0 <==> 0.3625 * pp <= pkpk <= 0.9725 * pp)
  {
  }

  /** A larger reading never asks for a smaller step. */
  lemma ScaleRequestMonotone(a: real, b: real, pp: real)
    requires pp > 0.0 && a <= b
    ensures ScaleRequest(Num(a), Num(pp)) <= ScaleRequest(Num(b), Num(pp))
  {
    ScaleRequestBands(a, pp);
    ScaleRequestBands(b, pp);
  }

  /** A NaN reading or a NaN span asks for no step; on a zero span (a scale
    * that could not be read) any positive reading asks for a step up. */
  lemma ScaleRequestEdges(x: Double, pkpk: real)
    ensures ScaleRequest(NaN, x) == 0 && ScaleRequest(x, NaN) == 0
    ensures pkpk > 0.0 ==> ScaleRequest(Num(pkpk), Num(0.0)) == 1
  {
  }

  /** What MeasureAndScaleInput returns: the reading, the scale and the
    * step applied. */
  datatype Scaled = Scaled(mag: Double, scale: ScaleValues, adjust: int)

  /** MeasureAndScaleInput: read the measured parameter and the peak-to-peak
    * value (the same reading when they coincide); when the peak-to-peak
    * value leaves its band, move the volts/div by the step it asks for. */
  function MeasureAndScaleOn(s: Link, conv: Conversions, ch: Channel, mp: MeasParam, scale: ScaleValues): (r: Step<Scaled>)
    ensures -2 <= r.val.adjust <= 1
    ensures |r.link.replies| <= |s.replies|
    ensures r.val.adjust != 0 ==> |r.link.replies| < |s.replies|
  {
    var m := MeasureOn(s, conv, ch, mp);
    var p := if mp == PKPK then m else MeasureOn(m.link, conv, ch, PKPK);
    var step := ScaleRequest(p.val, scale.pp);
    if step == 0 then Step(p.link, Scaled(m.val, scale, 0))
    else
      var a := AdjustChannelVoltsOn(p.link, conv, ch, step);
      Step(a.link, Scaled(m.val, a.val.scale, a.val.applied))
  }

  /** A reading inside its band changes nothing: only queries go out and
    * the scale is kept. The value returned is always the first reading. */
  lemma InBandOnlyReads(s: Link, conv: Conversions, ch: Channel, mp: MeasParam, scale: ScaleValues)
    ensures var r := MeasureAndScaleOn(s, conv, ch, mp, scale);
      && r.val.mag == MeasureOn(s, conv, ch, mp).val
      && (r.val.adjust == 0 && ScaleRequest(if mp == PKPK then r.val.mag
                                            else MeasureOn(MeasureOn(s, conv, ch, mp).link, conv, ch, PKPK).val, scale.pp) == 0
          ==> r.val.scale == scale && OnlyQueries(s, r.link))
  {
    var m := MeasureOn(s, conv, ch, mp);
    if mp != PKPK {
      OnlyQueriesTrans(s, m.link, MeasureOn(m.link, conv, ch, PKPK).link);
    }
  }

  // ---------------------------------------------------------------------
  // The convergence loop of MeasureFreq

  /** The loop's state between rounds: the last steps applied, the two
    * channels' scales and how often the scale has turned back. */
  datatype Hunt = Hunt(adjustIn: int, adjustOut: int, scaleIn: ScaleValues, scaleOut: ScaleValues, count: int)

  /** One round's readings, already multiplied by the measurement factor. */
  datatype Reading = Reading(magIn: Double, magOut: Double, hunt: Hunt)

  /** The channels and measurements the loop uses. */
  datatype Probes = Probes(inCh: Channel, outCh: Channel, mp: MeasParam, av: real, timeParam: MeasDelParam)

  function ProbesOf(v: Vars, tt: Ttype): Probes
  {
    Probes(v.inCh, v.outCh, v.mp, v.av, if tt == DELAY then v.measEdge else PHA)
  }

  /** A step turned back: it has the opposite sign of the one before. */
  predicate TurnedBack(last: int, now: int)
  {
    (last > 0 && now < 0) || (last < 0 && now > 0)
  }

  /** The loop's test, a negative product of the two steps, is exactly a
    * turn-back. */
  lemma TurnedBackIsNegativeProduct(last: int, now: int)
    ensures TurnedBack(last, now) <==> last * now < 0
  {
    if last > 0 && now > 0 {
      assert last * now > 0;
    } else if last < 0 && now < 0 {
      assert last * now == (-last) * (-now);
      assert (-last) * (-now) > 0;
    } else if last > 0 && now < 0 {
      assert last * now == -(last * (-now));
      assert last * (-now) > 0;
    } else if last < 0 && now > 0 {
      assert last * now == -((-last) * now);
      assert (-last) * now > 0;
    }
  }

  /** The loop stops when neither scale moved, or after three turn-backs. */
  predicate Settled(h: Hunt) { (h.adjustIn == 0 && h.adjustOut == 0) || h.count >= 3 }

  /** One round: measure and scale the input, then the output. */
  function RoundOn(s: Link, conv: Conversions, p: Probes, h: Hunt): (r: Step<Reading>)
    ensures |r.link.replies| <= |s.replies|
    ensures !Settled(r.val.hunt) ==> |r.link.replies| < |s.replies|
  {
    var a := MeasureAndScaleOn(s, conv, p.inCh, p.mp, h.scaleIn);
    var b := MeasureAndScaleOn(a.link, conv, p.outCh, p.mp, h.scaleOut);
    Step(b.link, ReadingOf(p.av, h, a.val, b.val))
  }

  /** A round's readings, times the measurement factor, its steps and
    * scales, and the turn-back count, one higher when either step
    * reversed the one before it. */
  function ReadingOf(av: real, h: Hunt, a: Scaled, b: Scaled): Reading
  {
    var turned := TurnedBack(h.adjustIn, a.adjust) || TurnedBack(h.adjustOut, b.adjust);
    Reading(Mul(Num(av), a.mag), Mul(Num(av), b.mag),
            Hunt(a.adjust, b.adjust, a.scale, b.scale, if turned then h.count + 1 else h.count))
  }

  /** The loop's final round, and the phase or delay read after it. */
  datatype Outcome = Outcome(reading: Reading, time: Double)

  /** The do-while loop of MeasureFreq: rounds until settled, then one
    * phase or delay reading. Every round that does not settle has used up
    * a reply, so with a finite reply script the loop ends. */
  function ConvergeOn(s: Link, conv: Conversions, p: Probes, h: Hunt): (r: Step<Outcome>)
    ensures |r.link.replies| <= |s.replies|
    decreases |s.replies|
  {
    var rd := RoundOn(s, conv, p, h);
    if Settled(rd.val.hunt) then
      var t := MeasureDelayOn(rd.link, conv, p.inCh, p.outCh, p.timeParam);
      Step(t.link, Outcome(rd.val, t.val))
    else ConvergeOn(rd.link, conv, p, rd.val.hunt)
  }

  /** The loop ends settled, and the turn-back count only grows, by at most
    * one a round, so from below 3 it ends at most at 3. */
  lemma {:induction false} ConvergeSettles(s: Link, conv: Conversions, p: Probes, h: Hunt)
    requires 0 <= h.count < 3
    ensures var o := ConvergeOn(s, conv, p, h).val.reading.hunt;
      Settled(o) && h.count <= o.count <= 3
    decreases |s.replies|
  {
    var rd := RoundOn(s, conv, p, h);
    if !Settled(rd.val.hunt) {
      ConvergeSettles(rd.link, conv, p, rd.val.hunt);
    }
  }

  /** The entry MeasureAndScaleInput starts from: nearest the volts/div
    * read after the readings, in the table for the attenuation read. */
  ghost predicate AtTopEntry(s: Link, conv: Conversions, ch: Channel, mp: MeasParam, pp: Double)
  {
    var m := MeasureOn(s, conv, ch, mp);
    var q := if mp == PKPK then m else MeasureOn(m.link, conv, ch, PKPK);
    var r := ReadScaleOn(q.link, conv, ch);
    var atten := ReadChannelAttenOn(r.link, conv, ch).val;
    && ScaleRequest(q.val, pp) == 1
    && KnownAtten(atten) && r.val.vdiv.Num?
    && Nearest(Volts(PairTable(atten)), r.val.vdiv) == NVoltagePairs - 1
  }

  /** At the last entry with a reading above its band, the step up cannot
    * be made, yet MeasureAndScaleInput reports +1, as the source computes
    * it. */
  lemma PinnedAtTopReportsOne(s: Link, conv: Conversions, ch: Channel, mp: MeasParam, scale: ScaleValues)
    requires AtTopEntry(s, conv, ch, mp, scale.pp)
    ensures MeasureAndScaleOn(s, conv, ch, mp, scale).val.adjust == 1
  {
    var m := MeasureOn(s, conv, ch, mp);
    var q := if mp == PKPK then m else MeasureOn(m.link, conv, ch, PKPK);
    AdjustLands(q.link, conv, ch, 1);
  }

  /** So with the input pinned there, the round does not settle, and a +1
    * after a step that was not negative is no turn-back: the input side
    * never counts towards the three that would end the loop. */
  lemma {:induction false} TopOfTableKeepsHunting(s: Link, conv: Conversions, p: Probes, h: Hunt)
    requires h.adjustIn >= 0
    requires AtTopEntry(s, conv, p.inCh, p.mp, h.scaleIn.pp)
    ensures var rd := RoundOn(s, conv, p, h).val.hunt;
      && rd.adjustIn == 1
      && (rd.count == h.count <==> !TurnedBack(h.adjustOut, rd.adjustOut))
      && (Settled(rd) <==> rd.count >= 3)
  {
    PinnedAtTopReportsOne(s, conv, p.inCh, p.mp, h.scaleIn);
  }

  // ---------------------------------------------------------------------
  // MeasureFreq

  /** The two connections a session drives. */
  datatype Bench = Bench(scope: Link, gen: Link)

  /** A result together with the connections after producing it. */
  datatype Stage<T> = Stage(bench: Bench, val: T)

  /** The conversions of the two instruments and the maths library. */
  datatype Env = Env(oc: Conversions, gc: Conversions, math: MathLib)

  /** What MeasureFreq produces: the result record, the wait before the
    * readings and the two scales afterwards. */
  datatype Measured = Measured(result: FRS, dwellMs: int, scaleIn: ScaleValues, scaleOut: ScaleValues)

  /** DWORD(x) where the conversion is defined; outside it (NaN, an
    * infinity, a negative or too large value) it reads as 0. */
  function Dword(x: Double): (w: int)
    ensures 0 <= w < 0x1_0000_0000
  {
    if x.Num? && 0.0 <= x.v < 4294967296.0 then x.v.Floor else 0
  }

  /** The wait before measuring, in milliseconds: the given number of
    * screens at the timebase set, and at least the minimum dwell. */
  function DwellMs(dw: DwellConfig, tActual: Double): int
  {
    var w := Dword(Mul(Num(1000.0), Mul(dw.stableScreens, tActual)));
    if w < dw.minDwellMs as int then dw.minDwellMs as int else w
  }

  /** The wait is the minimum dwell or, when longer, the screens' time in
    * whole milliseconds. */
  lemma DwellBounds(dw: DwellConfig, screens: real, t: real)
    requires dw.stableScreens == Num(screens)
    requires 0.0 <= 1000.0 * (screens * t) < 4294967296.0
    ensures var ms := DwellMs(dw, Num(t));
      && ms >= dw.minDwellMs as int
      && (ms == dw.minDwellMs as int || (ms as real <= 1000.0 * (screens * t) < ms as real + 1.0))
  {
  }

  /** The gain in decibels: 20 log10 |out / in|. */
  function Gain(math: MathLib, magIn: Double, magOut: Double): Double
  {
    Scale(Log10(math, Abs(Div(magOut, magIn))), 20.0)
  }

  /** With two non-zero readings the gain is 20 log10 of their ratio; a
    * silent input gives +inf dB and a silent output -inf dB. */
  lemma GainOfReadings(math: MathLib, x: real, y: real)
    ensures x != 0.0 && y != 0.0 ==>
      Gain(math, Num(x), Num(y)) == Num(20.0 * math.log10(if y / x < 0.0 then -(y / x) else y / x))
    ensures x == 0.0 && y != 0.0 ==> Gain(math, Num(x), Num(y)) == Inf(false)
    ensures x != 0.0 && y == 0.0 ==> Gain(math, Num(x), Num(y)) == Inf(true)
  {
    if x != 0.0 && y != 0.0 {
      var q := y / x;
      assert q * x == y;
      assert Abs(Num(q)).v > 0.0;
    }
  }

  /** MeasureFreq at frequency f: set the timebase for MeasCycles cycles,
    * set the generator's frequency, wait, run the convergence loop and
    * record the result. */
  function MeasureFreqOn(b: Bench, e: Env, v: Vars, tt: Ttype, dw: DwellConfig,
                         scaleIn: ScaleValues, scaleOut: ScaleValues, f: Double): Stage<Measured>
  {
    var tb := SetTimebaseOn(b.scope, e.oc, Div(Num(MeasCycles), f), NaN);
    var g := WriteOn(b.gen, SineGen.SettingCommand(e.gc, v.sg, SineGen.Freq(f)));
    var c := ConvergeOn(tb.link, e.oc, ProbesOf(v, tt), Hunt(0, 0, scaleIn, scaleOut, 0));
    var rd := c.val.reading;
    Stage(Bench(c.link, g.link),
          Measured(FRS(f, rd.magIn, rd.magOut, Gain(e.math, rd.magIn, rd.magOut), c.val.time, v.tunit),
                   DwellMs(dw, tb.val), rd.hunt.scaleIn, rd.hunt.scaleOut))
  }

  /** A measurement is recorded at the frequency asked for, in the unit of
    * the session, after exactly one frequency command to the generator. */
  lemma MeasuredAt(b: Bench, e: Env, v: Vars, tt: Ttype, dw: DwellConfig,
                   scaleIn: ScaleValues, scaleOut: ScaleValues, f: Double)
    ensures var m := MeasureFreqOn(b, e, v, tt, dw, scaleIn, scaleOut, f);
      && m.val.result.freq == f && m.val.result.tunit == v.tunit
      && m.bench.gen == WriteOn(b.gen, SineGen.SettingCommand(e.gc, v.sg, SineGen.Freq(f))).link
      && m.val.dwellMs >= dw.minDwellMs as int
  {
  }

  // ---------------------------------------------------------------------
  // The frequency steps

  /** exp over doubles: exp(+inf) = +inf and exp(-inf) = 0. */
  function Exp(math: MathLib, x: Double): Double
  {
    match x
    case Num(a) => Num(math.exp(a))
    case Inf(n) => if n then Num(0.0) else Inf(false)
    case NaN => NaN
  }

  /** The log sweep's ratio exp(log(10) / N); with N = 0 it is +inf. */
  function LogFactor(math: MathLib, n: uint32): Double
  {
    Exp(math, Div(Num(math.ln(10.0)), Num(n as real)))
  }

  /** N - 1 in unsigned 32-bit arithmetic: N = 0 wraps to 2^32 - 1. */
  function LinDivisor(n: uint32): real
  {
    ((n as int - 1) % 0x1_0000_0000) as real
  }

  /** The frequency after f: times the log ratio, or plus the linear step
    * (fStop - fStart) / (N - 1). */
  function NextFreq(fr: FreqConfig, math: MathLib, f: Double): Double
  {
    match fr.sweep
    case LOG => Mul(f, LogFactor(math, fr.nPoints))
    case LIN => Add(f, Div(Sub(fr.fStop, fr.fStart), Num(LinDivisor(fr.nPoints))))
  }

  /** The sweep is complete once f passes FreqFudge * fStop. */
  predicate Completed(fr: FreqConfig, f: Double)
  {
    Gt(f, Mul(Num(FreqFudge), fr.fStop))
  }

  /** The frequency after k steps. */
  function Iterate(fr: FreqConfig, math: MathLib, f: Double, k: nat): Double
    decreases k
  {
    if k == 0 then f else Iterate(fr, math, NextFreq(fr, math, f), k - 1)
  }

  /** The least distance one step moves a frequency at or above the start. */
  ghost function MinStep(fr: FreqConfig, math: MathLib): (d: real)
    requires FreqValid(fr) && Plausible(math)
    ensures d > 0.0
  {
    match fr.sweep
    case LOG =>
      if fr.nPoints == 0 then 1.0
      else
        var x := math.ln(10.0) / fr.nPoints as real;
        DivPositive(math.ln(10.0), fr.nPoints as real);
        var q := math.exp(x) - 1.0;
        assert q > 0.0;
        ValidFrequencies(fr);
        MulPositive(fr.fStart.v, q);
        fr.fStart.v * q
    case LIN =>
      if fr.nPoints == 1 then 1.0
      else (fr.fStop.v - fr.fStart.v) / LinDivisor(fr.nPoints)
  }

  lemma MulPositive(a: real, b: real)
    requires a > 0.0 && b > 0.0
    ensures a * b > 0.0
  {
  }

  lemma DivPositive(a: real, b: real)
    requires a > 0.0 && b > 0.0
    ensures a / b > 0.0
  {
    assert a / b * b == a;
  }

  lemma MulNonNegative(a: real, b: real)
    requires a >= 0.0 && b > 0.0
    ensures a * b >= 0.0
  {
    if a > 0.0 {
      MulPositive(a, b);
    } else {
      assert a * b == 0.0 * b == 0.0;
    }
  }

  lemma Regroup(x: real, a: real, q: real)
    ensures x * q == x + a * (q - 1.0) + (x - a) * (q - 1.0)
  {
    assert (x - a) * (q - 1.0) == x * (q - 1.0) - a * (q - 1.0);
    assert x * (q - 1.0) == x * q - x;
  }

  /** From any frequency at or above the start, a step reaches +inf or moves
    * up by at least MinStep. */
  lemma SweepAdvances(fr: FreqConfig, math: MathLib, x: real)
    requires FreqValid(fr) && Plausible(math) && fr.fStart.v <= x
    ensures var n := NextFreq(fr, math, Num(x));
      n == Inf(false) || (n.Num? && n.v >= x + MinStep(fr, math))
  {
    ValidFrequencies(fr);
    var a := fr.fStart.v;
    match fr.sweep
    case LOG =>
      if fr.nPoints != 0 {
        var q := math.exp(math.ln(10.0) / fr.nPoints as real);
        assert MinStep(fr, math) == a * (q - 1.0);
        assert NextFreq(fr, math, Num(x)) == Num(x * q);
        assert q - 1.0 > 0.0;
        MulNonNegative(x - a, q - 1.0);
        Regroup(x, a, q);
      }
    case LIN =>
  }

  /** The number of steps left at most before the sweep completes. */
  ghost function Budget(fr: FreqConfig, math: MathLib, f: Double): nat
    requires FreqValid(fr) && Plausible(math)
  {
    var bound := FreqFudge * fr.fStop.v;
    if f.Num? && f.v <= bound then
      var q := (bound - f.v) / MinStep(fr, math);
      assert q >= 0.0;
      q.Floor
    else 0
  }

  /** A step that does not complete the sweep lands inside the sweep range
    * and leaves fewer steps. */
  lemma BudgetDecreases(fr: FreqConfig, math: MathLib, x: real)
    requires FreqValid(fr) && Plausible(math)
    requires fr.fStart.v <= x <= FreqFudge * fr.fStop.v
    requires !Completed(fr, NextFreq(fr, math, Num(x)))
    ensures var n := NextFreq(fr, math, Num(x));
      && n.Num? && fr.fStart.v <= n.v <= FreqFudge * fr.fStop.v
      && Budget(fr, math, n) < Budget(fr, math, Num(x))
  {
    ValidFrequencies(fr);
    SweepAdvances(fr, math, x);
    var n := NextFreq(fr, math, Num(x));
    var d := MinStep(fr, math);
    var bound := FreqFudge * fr.fStop.v;
    assert n.Num? && n.v <= bound;
    QuotientStep(bound - n.v, bound - x, d);
  }

  /** Dividing by a positive step: a value at least d below another has a
    * quotient at least one below. */
  lemma QuotientStep(a: real, b: real, d: real)
    requires d > 0.0 && a <= b - d
    ensures a / d <= b / d - 1.0
  {
    var gap := b / d - 1.0 - a / d;
    assert gap * d == b - d - a;
    if gap < 0.0 {
      MulPositive(-gap, d);
    }
  }

  /** With a finite stop frequency every sweep completes. */
  lemma {:induction false} SweepReachesStop(fr: FreqConfig, math: MathLib, x: real)
    requires FreqValid(fr) && Plausible(math) && fr.fStart.v <= x
    ensures exists k: nat :: Completed(fr, Iterate(fr, math, Num(x), k))
    decreases Budget(fr, math, Num(x))
  {
    if Completed(fr, Num(x)) {
      assert Iterate(fr, math, Num(x), 0) == Num(x);
    } else {
      var n := NextFreq(fr, math, Num(x));
      assert Iterate(fr, math, Num(x), 1) == Iterate(fr, math, n, 0);
      if !Completed(fr, n) {
        BudgetDecreases(fr, math, x);
        SweepReachesStop(fr, math, n.v);
        var k: nat :| Completed(fr, Iterate(fr, math, n, k));
        assert Iterate(fr, math, Num(x), k + 1) == Iterate(fr, math, n, k);
      }
    }
  }

  /** The linear sweep moves by (fStop - fStart) / (N - 1) a step, so with
    * N >= 2 points its N-th point is fStop itself. */
  lemma LinearReachesStop(fr: FreqConfig, math: MathLib)
    requires fr.sweep == LIN && fr.nPoints >= 2
    requires fr.fStart.Num? && fr.fStop.Num?
    ensures Iterate(fr, math, fr.fStart, fr.nPoints as nat - 1) == fr.fStop
  {
    var d := (fr.fStop.v - fr.fStart.v) / (fr.nPoints as real - 1.0);
    LinearSteps(fr, math, fr.fStart.v, fr.nPoints as nat - 1);
    assert (fr.nPoints as nat - 1) as real * d == fr.fStop.v - fr.fStart.v;
  }

  lemma {:induction false} LinearSteps(fr: FreqConfig, math: MathLib, a: real, k: nat)
    requires fr.sweep == LIN && fr.nPoints >= 2
    requires fr.fStart.Num? && fr.fStop.Num?
    ensures Iterate(fr, math, Num(a), k)
            == Num(a + k as real * ((fr.fStop.v - fr.fStart.v) / (fr.nPoints as real - 1.0)))
    decreases k
  {
    var d := (fr.fStop.v - fr.fStart.v) / (fr.nPoints as real - 1.0);
    if k > 0 {
      assert LinDivisor(fr.nPoints) == fr.nPoints as real - 1.0;
      assert NextFreq(fr, math, Num(a)) == Num(a + d);
      LinearSteps(fr, math, a + d, k - 1);
      assert a + d + (k - 1) as real * d == a + k as real * d;
    }
  }

  /** The samples a sweep has taken so far, and the frequency it is at: the
    * first at fStart, each next one step further and not yet complete, and
    * the current frequency one step past the last. */
  predicate SweptFrom(ns: seq<FRS>, fr: FreqConfig, math: MathLib, f: Double)
  {
    && (ns == [] ==> f == fr.fStart)
    && (ns != [] ==> ns[0].freq == fr.fStart && f == NextFreq(fr, math, ns[|ns| - 1].freq))
    && forall j :: 0 < j < |ns| ==>
         ns[j].freq == NextFreq(fr, math, ns[j - 1].freq) && !Completed(fr, ns[j].freq)
  }

  lemma SweptSnoc(ns: seq<FRS>, fr: FreqConfig, math: MathLib, f: Double, r: FRS)
    requires SweptFrom(ns, fr, math, f)
    requires r.freq == f && (ns != [] ==> !Completed(fr, f))
    ensures SweptFrom(ns + [r], fr, math, NextFreq(fr, math, f))
  {
    var ms := ns + [r];
    forall j | 0 < j < |ms|
      ensures ms[j].freq == NextFreq(fr, math, ms[j - 1].freq) && !Completed(fr, ms[j].freq)
    {
      assert ms[j - 1] == ns[j - 1];
    }
  }

  /** The swept frequencies are numbers from fStart up to FreqFudge * fStop,
    * in strictly increasing order. */
  lemma SweptIncreasing(ns: seq<FRS>, fr: FreqConfig, math: MathLib, f: Double)
    requires FreqValid(fr) && Plausible(math) && SweptFrom(ns, fr, math, f)
    ensures forall i :: 0 <= i < |ns| ==>
      ns[i].freq.Num? && fr.fStart.v <= ns[i].freq.v <= FreqFudge * fr.fStop.v
    ensures forall i, j :: 0 <= i < j < |ns| ==> ns[i].freq.Num? && ns[j].freq.Num? && ns[i].freq.v < ns[j].freq.v
  {
    forall i | 0 <= i < |ns|
      ensures ns[i].freq.Num? && fr.fStart.v <= ns[i].freq.v <= FreqFudge * fr.fStop.v
    {
      SweptAt(ns, fr, math, f, i);
    }
    forall i, j | 0 <= i < j < |ns|
      ensures ns[i].freq.Num? && ns[j].freq.Num? && ns[i].freq.v < ns[j].freq.v
    {
      SweptBetween(ns, fr, math, f, i, j);
    }
  }

  lemma {:induction false} SweptAt(ns: seq<FRS>, fr: FreqConfig, math: MathLib, f: Double, i: nat)
    requires FreqValid(fr) && Plausible(math) && SweptFrom(ns, fr, math, f) && i < |ns|
    ensures ns[i].freq.Num? && fr.fStart.v <= ns[i].freq.v <= FreqFudge * fr.fStop.v
    decreases i
  {
    ValidFrequencies(fr);
    if i > 0 {
      SweptAt(ns, fr, math, f, i - 1);
      SweepAdvances(fr, math, ns[i - 1].freq.v);
      assert !Completed(fr, ns[i].freq);
    }
  }

  lemma {:induction false} SweptBetween(ns: seq<FRS>, fr: FreqConfig, math: MathLib, f: Double, i: nat, j: nat)
    requires FreqValid(fr) && Plausible(math) && SweptFrom(ns, fr, math, f) && i < j < |ns|
    ensures ns[i].freq.Num? && ns[j].freq.Num? && ns[i].freq.v < ns[j].freq.v
    decreases j - i
  {
    SweptAt(ns, fr, math, f, j - 1);
    SweptAt(ns, fr, math, f, j);
    SweepAdvances(fr, math, ns[j - 1].freq.v);
    if i < j - 1 {
      SweptBetween(ns, fr, math, f, i, j - 1);
    }
  }

  // ---------------------------------------------------------------------
  // The session

  /** The whole state of a session: its flags, the samples, the stored
    * configuration, the current frequency, the working variables, the two
    * channels' scales and the two connections. */
  datatype Session = Session(initialized: bool, completed: bool, data: seq<FRS>, cfg: Config, f: Double,
                             v: Vars, scaleIn: ScaleValues, scaleOut: ScaleValues, bench: Bench)

  /** A session and a return code. */
  datatype Done = Done(session: Session, code: int)

  /** Attaching the generator: any current connection is dropped; when the
    * resource is reachable (up) the default setup follows, and success
    * needs both. */
  function GenAttachOn(s: Link, up: bool): Step<bool>
  {
    if up then WriteChain(s.(attached := true), SineGen.DefaultSetup)
    else Step(s.(attached := false), false)
  }

  /** The stimulus block of Init: once the generator is attached, set its
    * channel to the start frequency, the amplitude and the offset at phase
    * 0, then turn its output on, ignoring both outcomes. */
  function StimulusOn(s: Link, up: bool, gc: Conversions, sg: SineGen.Channel,
                      fStart: Double, vpp: Double, vdc: Double): Step<bool>
  {
    var a := GenAttachOn(s, up);
    if !a.val then a
    else
      var c := SineGen.SetChannelOn(a.link, gc, sg, fStart, vpp, vdc, Num(0.0));
      Step(WriteOn(c.link, SineGen.OutputCommand(sg, true)).link, true)
  }

  /** Attaching the oscilloscope: once attached it receives its default
    * setup, whose outcomes are ignored. */
  function ScopeAttachOn(s: Link, up: bool, oc: Conversions): Step<bool>
  {
    if up then Step(DefaultSetupOn(s.(attached := true), oc), true)
    else Step(s.(attached := false), false)
  }

  /** One channel of the oscilloscope block of Init: on, at its
    * attenuation (10X for 10, else 1X), at 1 V/div with no offset. */
  function ChannelSetupOn(s: Link, oc: Conversions, ch: Channel, atten: Double): Link
  {
    var l1 := SetChannelEnableOn(s, ch, true).link;
    var l2 := SetOptionOn(l1, ch, AttenText(AttenSetting(atten))).link;
    SetChannelVoltsExOn(l2, oc, ch, Num(1.0), Num(0.0)).link
  }

  /** The trigger part of the oscilloscope block: automatic triggering on
    * the configured edge, level and coupling, without holdoff. */
  function TriggerSetupOn(s: Link, oc: Conversions, trigCh: Channel, tr: TrigConfig): Link
  {
    var l1 := SetTriggerModeOn(s, AUTO).link;
    SetEdgeTriggerOn(l1, oc, trigCh, TriggerEdge(tr.edge), tr.vTrig, CouplingSetting(tr.coup), false, Num(0.0)).link
  }

  /** The oscilloscope block of Init, every outcome ignored: both channels
    * set up, then their couplings, then the trigger. */
  function ScopeSetupOn(s: Link, oc: Conversions, v: Vars, cfg: Config): Link
  {
    var l1 := ChannelSetupOn(s, oc, v.inCh, cfg.input.atten);
    var l2 := ChannelSetupOn(l1, oc, v.outCh, cfg.output.atten);
    var l3 := SetOptionOn(l2, v.inCh, CouplingText(CouplingSetting(cfg.input.coup))).link;
    var l4 := SetOptionOn(l3, v.outCh, CouplingText(CouplingSetting(cfg.output.coup))).link;
    TriggerSetupOn(l4, oc, v.trigCh, cfg.trig)
  }

  /** Init's wrap-up: read the output's and then the input's scale with a
    * zero step, then take one measurement at the start frequency and
    * discard it. */
  function FirstMeasurementOn(b: Bench, e: Env, v: Vars, cfg: Config): Stage<Measured>
  {
    var o := AdjustChannelVoltsOn(b.scope, e.oc, v.outCh, 0);
    var i := AdjustChannelVoltsOn(o.link, e.oc, v.inCh, 0);
    MeasureFreqOn(Bench(i.link, b.gen), e, v, cfg.meas.ttMeas, cfg.dwell, i.val.scale, o.val.scale, cfg.freq.fStart)
  }

  /** Init. genUp and scopeUp say whether each instrument's resource can be
    * connected to. */
  function InitOn(s: Session, e: Env, genUp: bool, scopeUp: bool, cfg: Config): Done
  {
    if s.initialized then Done(s, AlreadyInitialized)
    else
      var code := ValidationCode(cfg.freq, cfg.stim, cfg.trig);
      if code != Success then Done(s.(cfg := cfg), code)
      else StartOn(s.(cfg := cfg), e, genUp, scopeUp)
  }

  /** Init once the configuration has passed its checks: the stimulus block,
    * the oscilloscope block and the wrap-up, stopping at the first
    * instrument that does not attach. */
  function StartOn(s: Session, e: Env, genUp: bool, scopeUp: bool): Done
  {
    var cfg := s.cfg;
    var v1 := s.v.(measEdge := FRR, av := 1.0, sg := GeneratorChannel(cfg.stim.ch), vStim := StimVpp(cfg.stim));
    var g := StimulusOn(s.bench.gen, genUp, e.gc, v1.sg, cfg.freq.fStart, v1.vStim, cfg.stim.vdc);
    if !g.val then Done(s.(v := v1, bench := s.bench.(gen := g.link)), InitSineGen)
    else ScopeStartOn(s.(v := v1, bench := s.bench.(gen := g.link)), e, scopeUp)
  }

  /** The oscilloscope block of Init and the wrap-up, once the generator
    * is set up. */
  function ScopeStartOn(s: Session, e: Env, scopeUp: bool): Done
  {
    var a := ScopeAttachOn(s.bench.scope, scopeUp, e.oc);
    if !a.val then Done(s.(bench := s.bench.(scope := a.link)), InitOscilloscope)
    else
      var v := ScopeVars(s.v, s.cfg);
      Done(WrapUpOn(s.(v := v, bench := s.bench.(scope := ScopeSetupOn(a.link, e.oc, v, s.cfg))), e), Success)
  }

  /** Init's wrap-up: initialized, the result unit chosen, both scales
    * read, the sweep at fStart and a first measurement there. */
  function WrapUpOn(s: Session, e: Env): Session
  {
    var v := s.v.(tunit := s.cfg.meas.ttMeas);
    var m := FirstMeasurementOn(s.bench, e, v, s.cfg);
    s.(initialized := true, v := v, f := s.cfg.freq.fStart,
       scaleIn := m.val.scaleIn, scaleOut := m.val.scaleOut, bench := m.bench)
  }

  /** A second Init changes nothing and reports ALREADY_INITIALIZED. */
  lemma InitTwice(s: Session, e: Env, genUp: bool, scopeUp: bool, cfg: Config)
    requires s.initialized
    ensures InitOn(s, e, genUp, scopeUp, cfg) == Done(s, AlreadyInitialized)
  {
  }

  /** A configuration that fails its checks is stored but reported, the
    * session stays uninitialized and neither instrument is touched. */
  lemma InitRejects(s: Session, e: Env, genUp: bool, scopeUp: bool, cfg: Config)
    requires !s.initialized && ValidationCode(cfg.freq, cfg.stim, cfg.trig) != Success
    ensures var d := InitOn(s, e, genUp, scopeUp, cfg);
      && d.code == ValidationCode(cfg.freq, cfg.stim, cfg.trig) && d.code < 0
      && !d.session.initialized && d.session.bench == s.bench && d.session.cfg == cfg
  {
  }

  /** Init succeeds exactly when the checks pass and both instruments
    * attach; otherwise the code is negative and says which step failed,
    * and a failed generator leaves the oscilloscope untouched. */
  lemma InitOutcome(s: Session, e: Env, genUp: bool, scopeUp: bool, cfg: Config)
    requires !s.initialized
    ensures var d := InitOn(s, e, genUp, scopeUp, cfg);
      var g := StimulusOn(s.bench.gen, genUp, e.gc, GeneratorChannel(cfg.stim.ch), cfg.freq.fStart,
                          StimVpp(cfg.stim), cfg.stim.vdc);
      && (d.code == Success <==> ValidationCode(cfg.freq, cfg.stim, cfg.trig) == Success && g.val && scopeUp)
      && (d.session.initialized <==> d.code == Success)
      && (d.code != Success ==> d.code < 0)
      && (d.code == InitSineGen <==> ValidationCode(cfg.freq, cfg.stim, cfg.trig) == Success && !g.val)
      && (d.code == InitSineGen ==> d.session.bench.scope == s.bench.scope)
  {
  }

  /** After a successful Init the sweep starts at fStart with valid
    * frequencies, AMPL readings scaled for the chosen unit, the delay
    * measured on the trigger edge and the result unit chosen. */
  lemma InitPrepares(s: Session, e: Env, genUp: bool, scopeUp: bool, cfg: Config)
    requires !s.initialized
    requires InitOn(s, e, genUp, scopeUp, cfg).code == Success
    ensures var t := InitOn(s, e, genUp, scopeUp, cfg).session;
      && FreqValidAsWritten(cfg.freq) && t.f == cfg.freq.fStart && t.cfg == cfg
      && t.completed == s.completed && t.data == s.data
      && t.v.mp == AMPL && t.v.av == MeasureFactor(cfg.meas.vtMeas)
      && t.v.measEdge == DelayEdge(cfg.trig.edge) && t.v.tunit == cfg.meas.ttMeas
      && t.v.vStim == StimVpp(cfg.stim) && Gt(t.v.vStim, Num(0.0))
  {
    StimAmplitude(cfg.stim);
  }

  /** The outcome of MeasureNext: the session, the code and the result
    * record (the one passed in when no measurement was made). */
  datatype Next = Next(session: Session, code: int, result: FRS)

  /** MeasureNext: NOT_INITIALIZED or COMPLETE without measuring; otherwise
    * measure at f, append the sample, advance f and see whether the sweep
    * is complete. */
  function MeasureNextOn(s: Session, e: Env, prior: FRS): Next
  {
    if !s.initialized then Next(s, NotInitialized, prior)
    else if s.completed then Next(s, Complete, prior)
    else
      var m := MeasureFreqOn(s.bench, e, s.v, s.cfg.meas.ttMeas, s.cfg.dwell, s.scaleIn, s.scaleOut, s.f);
      var f := NextFreq(s.cfg.freq, e.math, s.f);
      var done := Completed(s.cfg.freq, f);
      Next(s.(data := s.data + [m.val.result], f := f, completed := done,
              scaleIn := m.val.scaleIn, scaleOut := m.val.scaleOut, bench := m.bench),
           if done then Complete else Success, m.val.result)
  }

  /** Without a running sweep MeasureNext changes nothing: -1 before Init,
    * 1 once complete. */
  lemma MeasureNextIdle(s: Session, e: Env, prior: FRS)
    requires !s.initialized || s.completed
    ensures var n := MeasureNextOn(s, e, prior);
      n.session == s && n.result == prior && n.code == (if s.initialized then Complete else NotInitialized)
  {
  }

  /** A step of a running sweep appends exactly one sample, taken at the
    * current frequency, moves to the next frequency, and is complete (and
    * says COMPLETE) exactly when that frequency passes FreqFudge * fStop. */
  lemma MeasureNextStep(s: Session, e: Env, prior: FRS)
    requires s.initialized && !s.completed
    ensures var n := MeasureNextOn(s, e, prior);
      && n.session.data == s.data + [n.result] && n.result.freq == s.f
      && n.session.f == NextFreq(s.cfg.freq, e.math, s.f)
      && (n.session.completed <==> Completed(s.cfg.freq, n.session.f))
      && n.code == (if n.session.completed then Complete else Success)
      && n.session.initialized && n.session.cfg == s.cfg && n.session.v == s.v
  {
    MeasuredAt(s.bench, e, s.v, s.cfg.meas.ttMeas, s.cfg.dwell, s.scaleIn, s.scaleOut, s.f);
  }

  /** With the infinite stop Init lets through, every step of a running
    * sweep appends a sample and reports SUCCESS, and none completes it. */
  lemma InfiniteStopNeverCompletes(s: Session, e: Env, prior: FRS)
    requires s.initialized && !s.completed && s.cfg.freq.fStop == Inf(false)
    ensures var n := MeasureNextOn(s, e, prior);
      && n.code == Success && n.session.initialized && !n.session.completed
      && |n.session.data| == |s.data| + 1
  {
    MeasureNextStep(s, e, prior);
    NothingPastInfinity(s.cfg.freq, MeasureNextOn(s, e, prior).session.f);
  }

  lemma NothingPastInfinity(fr: FreqConfig, f: Double)
    requires fr.fStop == Inf(false)
    ensures !Completed(fr, f)
  {
    assert Mul(Num(FreqFudge), fr.fStop) == Inf(false);
  }

  /** A sweep under way from the samples d0 on: configuration and variables
    * as they were, d0 kept, the samples after it a sweep from fStart, and
    * complete exactly when the frequency has passed FreqFudge * fStop,
    * otherwise still inside the sweep range. */
  ghost predicate Sweeping(s: Session, d0: seq<FRS>, cfg: Config, v: Vars, math: MathLib)
  {
    && s.initialized && s.cfg == cfg && s.v == v
    && |d0| <= |s.data| && s.data[..|d0|] == d0
    && SweptFrom(s.data[|d0|..], cfg.freq, math, s.f)
    && (s.completed <==> |d0| < |s.data| && Completed(cfg.freq, s.f))
    && (!s.completed ==> s.f.Num? && cfg.freq.fStart.Num? && cfg.freq.fStop.Num? && cfg.freq.fStart.v <= s.f.v <= FreqFudge * cfg.freq.fStop.v)
  }

  /** Each MeasureNext of a sweep under way keeps it under way, reports
    * SUCCESS or COMPLETE as it is, and leaves fewer steps when it is not
    * complete. */
  lemma SweepStep(s: Session, e: Env, d0: seq<FRS>)
    requires Sweeping(s, d0, s.cfg, s.v, e.math) && !s.completed
    requires FreqValid(s.cfg.freq) && Plausible(e.math)
    ensures var n := MeasureNextOn(s, e, NoResult);
      && Sweeping(n.session, d0, s.cfg, s.v, e.math)
      && n.code == (if n.session.completed then Complete else Success)
      && (!n.session.completed ==> Budget(s.cfg.freq, e.math, n.session.f) < Budget(s.cfg.freq, e.math, s.f))
  {
    var n := MeasureNextOn(s, e, NoResult);
    MeasureNextStep(s, e, NoResult);
    SweepCarries(s, n.session, n.result, d0, e.math);
  }

  /** The sweep invariant carried over one sample taken at the current
    * frequency, followed by the step to the next frequency. */
  lemma SweepCarries(s: Session, t: Session, sample: FRS, d0: seq<FRS>, math: MathLib)
    requires Sweeping(s, d0, s.cfg, s.v, math) && !s.completed
    requires FreqValid(s.cfg.freq) && Plausible(math)
    requires t.initialized && t.cfg == s.cfg && t.v == s.v
    requires t.data == s.data + [sample] && sample.freq == s.f
    requires t.f == NextFreq(s.cfg.freq, math, s.f) && (t.completed <==> Completed(s.cfg.freq, t.f))
    ensures Sweeping(t, d0, s.cfg, s.v, math)
    ensures !t.completed ==> Budget(s.cfg.freq, math, t.f) < Budget(s.cfg.freq, math, s.f)
  {
    assert t.data[|d0|..] == s.data[|d0|..] + [sample];
    assert t.data[..|d0|] == s.data[..|d0|];
    SweptSnoc(s.data[|d0|..], s.cfg.freq, math, s.f, sample);
    if !t.completed {
      BudgetDecreases(s.cfg.freq, math, s.f.v);
    }
  }

  /** Close: both instruments detached, no samples, neither flag set. */
  function CloseOn(s: Session): Session
  {
    s.(data := [], initialized := false, completed := false,
       bench := Bench(s.bench.scope.(attached := false), s.bench.gen.(attached := false)))
  }

  /** After Close, Init may run again. */
  lemma CloseAllowsInit(s: Session, e: Env, genUp: bool, scopeUp: bool, cfg: Config)
    ensures var c := CloseOn(s);
      && !c.initialized && !c.completed && c.data == []
      && InitOn(c, e, genUp, scopeUp, cfg).code != AlreadyInitialized
  {
  }

  // ---------------------------------------------------------------------
  // The objects

  /** Whether a transport's Attach connects to the resource. */
  ghost predicate Reaches(port: Transport, resource: string)
    reads port.lib
  {
    port.lib.started && ExtractAddrPort(resource).Some? && ExtractAddrPort(resource).value in port.reachable
  }

  /** One channel of Init's oscilloscope block. */
  method SetupChannel(oscope: Oscilloscope, ch: Channel, atten: Double)
    modifies oscope.port
    ensures oscope.port.State() == ChannelSetupOn(old(oscope.port.State()), oscope.conv, ch, atten)
  {
    var _ := oscope.SetChannelEnable(ch, true);
    var _ := oscope.SetChannelAtten(ch, AttenSetting(atten));
    var _ := oscope.SetChannelVoltsEx(ch, Num(1.0), Num(0.0));
  }

  /** The trigger part of Init's oscilloscope block. */
  method SetupTrigger(oscope: Oscilloscope, trigCh: Channel, tr: TrigConfig)
    modifies oscope.port
    ensures oscope.port.State() == TriggerSetupOn(old(oscope.port.State()), oscope.conv, trigCh, tr)
  {
    var trigEdge := TriggerEdge(tr.edge);
    var trigCoup := CouplingSetting(tr.coup);
    var _ := oscope.SetTriggerMode(AUTO);
    var _ := oscope.SetEdgeTrigger(trigCh, trigEdge, tr.vTrig, trigCoup, false, Num(0.0));
  }

  /** Init's oscilloscope block after attaching, on the channels chosen. */
  method SetupScope(oscope: Oscilloscope, v: Vars, cfg: Config)
    modifies oscope.port
    ensures oscope.port.State() == ScopeSetupOn(old(oscope.port.State()), oscope.conv, v, cfg)
  {
    SetupChannel(oscope, v.inCh, cfg.input.atten);
    SetupChannel(oscope, v.outCh, cfg.output.atten);
    var _ := oscope.SetChannelCoupling(v.inCh, CouplingSetting(cfg.input.coup));
    var _ := oscope.SetChannelCoupling(v.outCh, CouplingSetting(cfg.output.coup));
    SetupTrigger(oscope, v.trigCh, cfg.trig);
  }

  /** One pass of MeasureFreq's loop body: measure and scale the input,
    * then the output, and count a turn-back when either step reversed the
    * one before it. */
  method MeasureRound(oscope: Oscilloscope, p: Probes, h: Hunt) returns (rd: Reading)
    modifies oscope.port
    ensures Step(oscope.port.State(), rd) == RoundOn(old(oscope.port.State()), oscope.conv, p, h)
  {
    var mag, scaleIn, adjustIn := MeasureAndScaleInput(oscope, p.inCh, p.mp, h.scaleIn);
    var mag2, scaleOut, adjustOut := MeasureAndScaleInput(oscope, p.outCh, p.mp, h.scaleOut);
    rd := TallyRound(p.av, h, Scaled(mag, scaleIn, adjustIn), Scaled(mag2, scaleOut, adjustOut));
  }

  /** The rest of the loop body: the readings times the factor, and a
    * turn-back counted when either step's product with the last one is
    * negative. */
  method TallyRound(av: real, h: Hunt, a: Scaled, b: Scaled) returns (rd: Reading)
    ensures rd == ReadingOf(av, h, a, b)
  {
    var magIn := Mul(Num(av), a.mag);
    var magOut := Mul(Num(av), b.mag);
    var count := h.count;
    var turnedIn := Reverses(h.adjustIn, a.adjust);
    var turnedOut := Reverses(h.adjustOut, b.adjust);
    if turnedIn || turnedOut {
      count := count + 1;
    }
    rd := Reading(magIn, magOut, Hunt(a.adjust, b.adjust, a.scale, b.scale, count));
  }

  /** The do-while loop of MeasureFreq: rounds of measuring and scaling
    * until neither scale moves or the scales have turned back three times,
    * then the phase or delay between the channels. */
  method ConvergeLoop(oscope: Oscilloscope, p: Probes, scaleIn: ScaleValues, scaleOut: ScaleValues)
    returns (outcome: Outcome)
    modifies oscope.port
    ensures Step(oscope.port.State(), outcome)
            == ConvergeOn(old(oscope.port.State()), oscope.conv, p, Hunt(0, 0, scaleIn, scaleOut, 0))
  {
    ghost var spec := ConvergeOn(oscope.port.State(), oscope.conv, p, Hunt(0, 0, scaleIn, scaleOut, 0));
    var loopDone := false;
    var hunt := Hunt(0, 0, scaleIn, scaleOut, 0);
    var rd := Reading(Num(0.0), Num(0.0), hunt);
    var timeMeas := Num(0.0);
    while !loopDone
      invariant !loopDone ==> spec == ConvergeOn(oscope.port.State(), oscope.conv, p, hunt)
      invariant loopDone ==> spec == Step(oscope.port.State(), Outcome(rd, timeMeas))
      decreases |oscope.port.replies| + (if loopDone then 0 else 1)
    {
      rd := MeasureRound(oscope, p, hunt);
      hunt := rd.hunt;
      if (hunt.adjustIn == 0 && hunt.adjustOut == 0) || hunt.count >= 3 {
        timeMeas := oscope.MeasureDelay(p.inCh, p.outCh, p.timeParam);
        loopDone := true;
      }
    }
    outcome := Outcome(rd, timeMeas);
  }

  /** The body of MeasureFreq: set the timebase for MeasCycles cycles of f,
    * tune the generator to f, work out the wait, run the convergence loop
    * and fill in the result record. */
  method MeasureAt(oscope: Oscilloscope, gen: SineGen.SineGenerator, ghost b: Bench, e: Env, v: Vars, tt: Ttype,
                   dw: DwellConfig, scaleIn: ScaleValues, scaleOut: ScaleValues, f: Double) returns (m: Measured)
    requires oscope.port != gen.port
    requires b == Bench(oscope.port.State(), gen.port.State()) && e.oc == oscope.conv && e.gc == gen.conv
    modifies oscope.port, gen.port
    ensures Stage(Bench(oscope.port.State(), gen.port.State()), m) == MeasureFreqOn(b, e, v, tt, dw, scaleIn, scaleOut, f)
  {
    var tIdeal := Div(Num(MeasCycles), f);
    var tActual := oscope.SetTimebase(tIdeal, NaN);
    var _ := gen.SetChannelFreq(v.sg, f);

    var dwellMs := Dword(Mul(Num(1000.0), Mul(dw.stableScreens, tActual)));
    if dwellMs < dw.minDwellMs as int {
      dwellMs := dw.minDwellMs as int;
    }

    var outcome := ConvergeLoop(oscope, ProbesOf(v, tt), scaleIn, scaleOut);
    var rd := outcome.reading;
    m := Measured(FRS(f, rd.magIn, rd.magOut, Gain(e.math, rd.magIn, rd.magOut), outcome.time, v.tunit),
                  dwellMs, rd.hunt.scaleIn, rd.hunt.scaleOut);
  }

  /** The loop's turn-back test: the product of the step before and the
    * step now is negative. */
  method Reverses(last: int, now: int) returns (turned: bool)
    ensures turned == TurnedBack(last, now)
  {
    turned := last * now < 0;
    TurnedBackIsNegativeProduct(last, now);
  }

  /** MeasureAndScaleInput(oscope, ch, mpMeasure, scale, adjust). */
  method MeasureAndScaleInput(oscope: Oscilloscope, ch: Channel, mp: MeasParam, scale: ScaleValues)
    returns (mag: Double, newScale: ScaleValues, adjust: int)
    modifies oscope.port
    ensures Step(oscope.port.State(), Scaled(mag, newScale, adjust))
            == MeasureAndScaleOn(old(oscope.port.State()), oscope.conv, ch, mp, scale)
  {
    ghost var spec := MeasureAndScaleOn(oscope.port.State(), oscope.conv, ch, mp, scale);
    ghost var m := MeasureOn(oscope.port.State(), oscope.conv, ch, mp);
    mag := oscope.Measure(ch, mp);
    var pkpk := mag;
    if mp != PKPK {
      pkpk := oscope.Measure(ch, PKPK);
    }
    ghost var p := Step(oscope.port.State(), pkpk);
    ghost var step := ScaleRequest(pkpk, scale.pp);
    assert spec == if step == 0 then Step(p.link, Scaled(m.val, scale, 0))
                   else var a := AdjustChannelVoltsOn(p.link, oscope.conv, ch, step);
                        Step(a.link, Scaled(m.val, a.val.scale, a.val.applied));
    newScale := scale;
    if Gt(pkpk, Scale(scale.pp, SeekMax - SeekMargin)) {
      adjust, newScale := oscope.AdjustChannelVolts(ch, 1);
    } else if Lt(pkpk, Scale(scale.pp, SeekMin - SeekMargin)) {
      adjust, newScale := oscope.AdjustChannelVolts(ch, -2);
    } else if Lt(pkpk, Scale(scale.pp, SeekMid - SeekMargin)) {
      adjust, newScale := oscope.AdjustChannelVolts(ch, -1);
    } else {
      adjust := 0;
    }
  }

  /** The stimulus block of Init: attach the generator, then set its
    * channel and turn its output on. */
  method StartStimulus(gen: SineGen.SineGenerator, szSigGen: string, sg: SineGen.Channel,
                       fStart: Double, vpp: Double, vdc: Double) returns (ok: bool)
    modifies gen.port, gen.port.lib
    ensures Step(gen.port.State(), ok)
            == StimulusOn(old(gen.port.State()), old(Reaches(gen.port, szSigGen)), gen.conv, sg, fStart, vpp, vdc)
    ensures gen.port.lib.started == old(gen.port.lib.started)
  {
    ok := gen.Attach(szSigGen);
    if ok {
      var _ := gen.SetChannel(sg, fStart, vpp, vdc, Num(0.0));
      var _ := gen.SetChannelOutput(sg, true);
    }
  }

  /** The end of Init's wrap-up: read the output's and then the input's
    * scale with a zero step, then measure at the start frequency. */
  method FirstMeasurement(oscope: Oscilloscope, gen: SineGen.SineGenerator, ghost b: Bench, e: Env,
                          v: Vars, cfg: Config) returns (m: Measured)
    requires oscope.port != gen.port
    requires b == Bench(oscope.port.State(), gen.port.State()) && e.oc == oscope.conv && e.gc == gen.conv
    modifies oscope.port, gen.port
    ensures Stage(Bench(oscope.port.State(), gen.port.State()), m) == FirstMeasurementOn(b, e, v, cfg)
  {
    var _, scaleOut := oscope.AdjustChannelVolts(v.outCh, 0);
    var _, scaleIn := oscope.AdjustChannelVolts(v.inCh, 0);
    m := MeasureAt(oscope, gen, Bench(oscope.port.State(), gen.port.State()), e, v, cfg.meas.ttMeas, cfg.dwell,
                   scaleIn, scaleOut, cfg.freq.fStart);
  }

  /** Init from the checks on, on a session whose connections are the two
    * instruments': the stimulus block, the oscilloscope block and the
    * wrap-up, stopping at the first instrument that does not attach. */
  method StartAt(oscope: Oscilloscope, gen: SineGen.SineGenerator, s: Session, e: Env,
                 szOscope: string, szSigGen: string) returns (t: Session, r: int)
    requires oscope.port != gen.port
    requires s.bench == Bench(oscope.port.State(), gen.port.State()) && e.oc == oscope.conv && e.gc == gen.conv
    modifies oscope.port, gen.port, oscope.port.lib, gen.port.lib
    ensures t.bench == Bench(oscope.port.State(), gen.port.State())
    ensures t.cfg == s.cfg && t.data == s.data && t.completed == s.completed
    ensures Done(t, r) == StartOn(s, e, old(Reaches(gen.port, szSigGen)), old(Reaches(oscope.port, szOscope)))
  {
    ghost var scopeUp := Reaches(oscope.port, szOscope);
    var cfg := s.cfg;
    var v := s.v.(measEdge := FRR, av := 1.0, sg := GeneratorChannel(cfg.stim.ch));
    match cfg.stim.vtStim {
      case VPK => v := v.(vStim := Mul(Num(2.0), Abs(cfg.stim.vstim)));
      case VPP => v := v.(vStim := Abs(cfg.stim.vstim));
    }
    assert v == s.v.(measEdge := FRR, av := 1.0, sg := GeneratorChannel(cfg.stim.ch), vStim := StimVpp(cfg.stim));
    var ok := StartStimulus(gen, szSigGen, v.sg, cfg.freq.fStart, v.vStim, cfg.stim.vdc);
    assert scopeUp == Reaches(oscope.port, szOscope);
    t := s.(v := v, bench := Bench(oscope.port.State(), gen.port.State()));
    if !ok {
      r := InitSineGen;
    } else {
      t, r := StartScopeAt(oscope, gen, t, e, szOscope);
    }
  }

  /** The oscilloscope block of Init and the wrap-up, on a session whose
    * connections are the two instruments'. */
  method StartScopeAt(oscope: Oscilloscope, gen: SineGen.SineGenerator, s: Session, e: Env, szOscope: string)
    returns (t: Session, r: int)
    requires oscope.port != gen.port
    requires s.bench == Bench(oscope.port.State(), gen.port.State()) && e.oc == oscope.conv && e.gc == gen.conv
    modifies oscope.port, gen.port, oscope.port.lib
    ensures t.bench == Bench(oscope.port.State(), gen.port.State())
    ensures t.cfg == s.cfg && t.data == s.data && t.completed == s.completed
    ensures Done(t, r) == ScopeStartOn(s, e, old(Reaches(oscope.port, szOscope)))
  {
    ghost var a := ScopeAttachOn(s.bench.scope, Reaches(oscope.port, szOscope), e.oc);
    var ok := oscope.Attach(szOscope);
    assert ok == a.val && oscope.port.State() == a.link;
    if !ok {
      t, r := s.(bench := Bench(oscope.port.State(), gen.port.State())), InitOscilloscope;
      return;
    }
    var cfg := s.cfg;
    var v := s.v.(inCh := InputChannel(cfg.input.ch), outCh := OutputChannel(cfg.output.ch),
                  trigCh := OutputChannel(cfg.trig.ch), measEdge := DelayEdge(cfg.trig.edge), mp := AMPL);
    match cfg.meas.vtMeas {
      case VPK => v := v.(av := 0.5);
      case VPP => v := v.(av := 1.0);
    }
    assert v == ScopeVars(s.v, cfg);
    SetupScope(oscope, v, cfg);
    var ready := s.(v := v, bench := Bench(oscope.port.State(), gen.port.State()));
    assert ready == s.(v := v, bench := s.bench.(scope := ScopeSetupOn(a.link, e.oc, v, cfg)));
    var newV, newF, scaleIn, scaleOut := WrapUpAt(oscope, gen, ready, e);
    t := ready.(initialized := true, v := newV, f := newF, scaleIn := scaleIn, scaleOut := scaleOut,
                bench := Bench(oscope.port.State(), gen.port.State()));
    r := Success;
  }

  /** Init's wrap-up on a session whose connections are the two
    * instruments': the new variables, frequency and scales. */
  method WrapUpAt(oscope: Oscilloscope, gen: SineGen.SineGenerator, s: Session, e: Env)
    returns (v: Vars, f: Double, scaleIn: ScaleValues, scaleOut: ScaleValues)
    requires oscope.port != gen.port
    requires s.bench == Bench(oscope.port.State(), gen.port.State()) && e.oc == oscope.conv && e.gc == gen.conv
    modifies oscope.port, gen.port
    ensures WrapUpOn(s, e) == s.(initialized := true, v := v, f := f, scaleIn := scaleIn, scaleOut := scaleOut,
                                  bench := Bench(oscope.port.State(), gen.port.State()))
  {
    v := s.v;
    if s.cfg.meas.ttMeas == DELAY {
      v := v.(tunit := DELAY);
    } else {
      v := v.(tunit := PHASE);
    }
    var m := FirstMeasurement(oscope, gen, s.bench, e, v, s.cfg);
    f, scaleIn, scaleOut := s.cfg.freq.fStart, m.scaleIn, m.scaleOut;
  }

  /** The body of MeasureNext on a session whose connections are the two
    * instruments': measure at f, append the sample, step f and test for
    * completion. */
  method MeasureNextAt(oscope: Oscilloscope, gen: SineGen.SineGenerator, s: Session, e: Env, prior: FRS)
    returns (t: Session, r: int, result: FRS)
    requires oscope.port != gen.port
    requires s.bench == Bench(oscope.port.State(), gen.port.State()) && e.oc == oscope.conv && e.gc == gen.conv
    modifies oscope.port, gen.port
    ensures t.bench == Bench(oscope.port.State(), gen.port.State())
    ensures Next(t, r, result) == MeasureNextOn(s, e, prior)
  {
    t, r, result := s, Success, prior;
    if !s.initialized {
      r := NotInitialized;
    } else if s.completed {
      r := Complete;
    } else {
      var m := MeasureAt(oscope, gen, s.bench, e, s.v, s.cfg.meas.ttMeas, s.cfg.dwell, s.scaleIn, s.scaleOut, s.f);
      result := m.result;
      var fr := s.cfg.freq;
      var f := s.f;
      var completed := false;
      match fr.sweep {
        case LOG =>
          f := Mul(f, Exp(e.math, Div(Num(e.math.ln(10.0)), Num(fr.nPoints as real))));
          if Gt(f, Mul(Num(FreqFudge), fr.fStop)) {
            completed := true;
          }
        case LIN =>
          f := Add(f, Div(Sub(fr.fStop, fr.fStart), Num(LinDivisor(fr.nPoints))));
          if Gt(f, Mul(Num(FreqFudge), fr.fStop)) {
            completed := true;
          }
      }
      t := s.(data := s.data + [m.result], f := f, completed := completed, scaleIn := m.scaleIn,
              scaleOut := m.scaleOut, bench := Bench(oscope.port.State(), gen.port.State()));
      if completed {
        r := Complete;
      }
    }
  }

  /** The frequency-response session: an oscilloscope and a sine generator,
    * the stored configuration (cfg), the working variables (v), the
    * current frequency, the two channels' scales and the samples taken. */
  class FreqResp {
    const oscope: Oscilloscope
    const stimulus: SineGen.SineGenerator
    const math: MathLib

    var initialized: bool
    var completed: bool
    var data: seq<FRS>
    var cfg: Config
    var f: Double
    var v: Vars
    var osScaleInput: ScaleValues
    var osScaleOutput: ScaleValues

    function Environment(): Env
    {
      Env(oscope.conv, stimulus.conv, math)
    }

    function Snap(): Session
      reads this, oscope.port, stimulus.port
    {
      Session(initialized, completed, data, cfg, f, v, osScaleInput, osScaleOutput,
              Bench(oscope.port.State(), stimulus.port.State()))
    }

    /** Two separate connections sharing one sockets library; a plausible
      * maths library; an initialized session has frequencies that passed Init's checks, and only
      * an initialized one can be complete. */
    ghost predicate Valid()
      reads this
    {
      && oscope.port != stimulus.port && oscope.port.lib == stimulus.port.lib
      && Plausible(math)
      && (initialized ==> FreqValidAsWritten(cfg.freq))
      && (!initialized ==> !completed)
    }

    constructor(oscope: Oscilloscope, stimulus: SineGen.SineGenerator, math: MathLib)
      requires oscope.port != stimulus.port && oscope.port.lib == stimulus.port.lib
      requires Plausible(math)
      ensures Valid()
      ensures this.oscope == oscope && this.stimulus == stimulus && this.math == math
      ensures !initialized && !completed && data == []
    {
      this.oscope := oscope;
      this.stimulus := stimulus;
      this.math := math;
      initialized := false;
      completed := false;
      data := [];
      cfg := Config(FreqConfig(NaN, NaN, LOG, 0), StimConfig(1, VPP, NaN, NaN),
                    ChannelConfig(1, Ctype.AC, NaN, false), ChannelConfig(2, Ctype.AC, NaN, false),
                    TrigConfig(2, Etype.RISE, Ctype.AC, NaN), MeasConfig(VPP, PHASE), DwellConfig(NaN, 0));
      f := NaN;
      v := Vars(SineGen.CH1, CH1, CH2, CH2, AMPL, FRR, 1.0, NaN, PHASE);
      osScaleInput := ZeroScale;
      osScaleOutput := ZeroScale;
    }

    method Close() returns (r: int)
      requires Valid()
      modifies this, oscope.port, stimulus.port, oscope.port.lib
      ensures Valid() && r == Success
      ensures Snap() == CloseOn(old(Snap()))
      ensures oscope.port.lib.attachedCount == old(oscope.port.lib.attachedCount)
        - (if old(oscope.port.attached) then 1 else 0) - (if old(stimulus.port.attached) then 1 else 0)
    {
      var _ := oscope.Detach();
      var _ := stimulus.Detach();
      data := [];
      initialized := false;
      completed := false;
      return Success;
    }

    method Init(szOscope: string, szSigGen: string, fr: FreqConfig, st: StimConfig, inp: ChannelConfig,
                outp: ChannelConfig, tr: TrigConfig, ms: MeasConfig, dw: DwellConfig) returns (r: int)
      requires Valid()
      modifies this, oscope.port, stimulus.port, oscope.port.lib
      ensures Valid()
      ensures Done(Snap(), r) == InitOn(old(Snap()), Environment(), old(Reaches(stimulus.port, szSigGen)),
                                        old(Reaches(oscope.port, szOscope)), Config(fr, st, inp, outp, tr, ms, dw))
    {
      if initialized {
        return AlreadyInitialized;
      }
      r := Success;
      cfg := Config(fr, st, inp, outp, tr, ms, dw);

      if cfg.freq.fStart.NaN? || cfg.freq.fStop.NaN? {
        r := InvalidFrequency;
      }
      if Le(cfg.freq.fStart, Num(0.0)) {
        r := InvalidFrequency;
      }
      if Le(cfg.freq.fStop, cfg.freq.fStart) {
        r := InvalidFrequency;
      }
      if cfg.stim.vdc.NaN? || cfg.stim.vstim.NaN? {
        r := InvalidStim;
      }
      if Le(cfg.stim.vstim, Num(0.0)) {
        r := InvalidStim;
      }
      if cfg.trig.vTrig.NaN? {
        r := InvalidTrig;
      }
      assert r == ValidationCode(fr, st, tr);
      if r < Success {
        return;
      }
      r := StartInstruments(szOscope, szSigGen);
    }

    /** Init from the checks on: the stimulus block, the oscilloscope block
      * and the wrap-up. */
    method StartInstruments(szOscope: string, szSigGen: string) returns (r: int)
      requires Valid() && !initialized && ValidationCode(cfg.freq, cfg.stim, cfg.trig) == Success
      modifies this, oscope.port, stimulus.port, oscope.port.lib
      ensures Valid()
      ensures Done(Snap(), r) == StartOn(old(Snap()), Environment(), old(Reaches(stimulus.port, szSigGen)),
                                         old(Reaches(oscope.port, szOscope)))
    {
      var t;
      t, r := StartAt(oscope, stimulus, Snap(), Environment(), szOscope, szSigGen);
      Store(t.initialized, completed, data, t.f, t.v, t.scaleIn, t.scaleOut);
    }

    /** Sets the session's own members at once. */
    method Store(initialized: bool, completed: bool, data: seq<FRS>, f: Double, v: Vars,
                 scaleIn: ScaleValues, scaleOut: ScaleValues)
      modifies this
      ensures this.initialized == initialized && this.completed == completed && this.data == data
      ensures this.f == f && this.v == v && osScaleInput == scaleIn && osScaleOutput == scaleOut
      ensures cfg == old(cfg)
    {
      this.initialized, this.completed, this.data, this.f, this.v := initialized, completed, data, f, v;
      osScaleInput, osScaleOutput := scaleIn, scaleOut;
    }

    method MeasureNext(prior: FRS) returns (r: int, result: FRS)
      requires oscope.port != stimulus.port
      modifies this, oscope.port, stimulus.port
      ensures Next(Snap(), r, result) == MeasureNextOn(old(Snap()), Environment(), prior)
    {
      var t;
      t, r, result := MeasureNextAt(oscope, stimulus, Snap(), Environment(), prior);
      data, f, completed, osScaleInput, osScaleOutput := t.data, t.f, t.completed, t.scaleIn, t.scaleOut;
    }

    /** MeasureFreq(f, result); also returns the wait it would sleep. */
    method MeasureFreq(atFreq: Double) returns (ret: int, result: FRS, dwellMs: int)
      requires oscope.port != stimulus.port
      modifies this`osScaleInput, this`osScaleOutput, oscope.port, stimulus.port
      ensures ret == Success
      ensures Stage(Bench(oscope.port.State(), stimulus.port.State()),
                    Measured(result, dwellMs, osScaleInput, osScaleOutput))
              == MeasureFreqOn(old(Bench(oscope.port.State(), stimulus.port.State())), Environment(), old(v),
                               old(cfg.meas.ttMeas), old(cfg.dwell), old(osScaleInput), old(osScaleOutput), atFreq)
    {
      ret := Success;
      var m := MeasureAt(oscope, stimulus, Bench(oscope.port.State(), stimulus.port.State()), Environment(), v,
                         cfg.meas.ttMeas, cfg.dwell, osScaleInput, osScaleOutput, atFreq);
      result, dwellMs := m.result, m.dwellMs;
      osScaleInput, osScaleOutput := m.scaleIn, m.scaleOut;
    }

    /** Sweep: MeasureNext from fStart until COMPLETE. With an infinite stop,
      * which Init accepts, it never completes (InfiniteStopNeverCompletes),
      * so the loop is proved to end only for a finite one. */
    method Sweep() returns (r: int)
      requires Valid()
      requires initialized ==> cfg.freq.fStop.Num?
      modifies this, oscope.port, stimulus.port
      ensures Valid()
      ensures cfg == old(cfg) && v == old(v) && initialized == old(initialized)
      ensures !old(initialized) ==> r == NotInitialized && Snap() == old(Snap())
      ensures old(initialized) ==>
        && r == Complete && completed && Completed(cfg.freq, f)
        && |old(data)| < |data| && data[..|old(data)|] == old(data)
        && SweptFrom(data[|old(data)|..], cfg.freq, math, f)
    {
      if !initialized {
        return NotInitialized;
      }
      r := Success;
      completed := false;
      f := cfg.freq.fStart;
      ghost var d0 := data;
      ValidFrequencies(cfg.freq);
      while !completed
        invariant Valid()
        invariant Sweeping(Snap(), d0, old(cfg), old(v), math)
        invariant r == (if completed then Complete else Success)
        decreases if completed then 0 else 1, Budget(cfg.freq, math, f)
      {
        SweepStep(Snap(), Environment(), d0);
        var result;
        r, result := MeasureNext(NoResult);
        if r < Success {
          break;
        }
      }
    }
  }
}
