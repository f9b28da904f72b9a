// The oscilloscope's setting enumerations and its fixed lookup tables:
// volts/div per probe attenuation, time/div, and the measurement tokens.

module ScopeTables {
  import opened Numbers

  datatype Channel = CH1 | CH2 | CH3 | CH4

  /** Volts per division; 500uV exists only at 1x, 100V only at 10x. */
  datatype VoltsPerDiv = VoltsUnspec
    | V_500uV | V_1mV | V_2mV | V_5mV | V_10mV | V_20mV | V_50mV | V_100mV | V_200mV | V_500mV
    | V_1V | V_2V | V_5V | V_10V | V_20V | V_50V | V_100V

  datatype BWLimit = BwlUnspec | BWL_FULL | BWL_ON
  datatype ChInvert = InvUnspec | INV_OFF | INV_ON
  datatype Coupling = CouplingUnspec | DC | AC
  datatype ChAtten = AttenUnspec | AT_1X | AT_10X
  datatype ChUnit = UnitUnspec | V
  datatype EdgeType = RISING | FALLING
  datatype TriggerMode = STOP | AUTO | NORMAL | SINGLE

  datatype MeasParam = PKPK | MAX | MIN | AMPL | TOP | BASE | CMEAN | MEAN | RMS | CRMS | OVSN
    | FPRE | OVSP | RPRE | PER | FREQ | PWID | NWID | RISE | FALL | WID | DUTY | NDUTY

  datatype MeasDelParam = PHA | FRR | FRF | FFR | FFF | LRR | LRF | LFR | LFF | SKEW

  datatype TimeDiv = TimeUnspec
    | T_1nS | T_2nS | T_5nS | T_10nS | T_20nS | T_50nS | T_100nS | T_200nS | T_500nS
    | T_1uS | T_2uS | T_5uS | T_10uS | T_20uS | T_50uS | T_100uS | T_200uS | T_500uS
    | T_1mS | T_2mS | T_5mS | T_10mS | T_20mS | T_50mS | T_100mS | T_200mS | T_500mS
    | T_1S | T_2S | T_5S | T_10S | T_20S | T_50S | T_100S

  /** The scale an auto-range step reads back: exactly these five values. */
  datatype ScaleValues = ScaleValues(max: Double, min: Double, pp: Double, offset: Double, vdiv: Double)

  datatype VoltagePair = VoltagePair(vdiv: VoltsPerDiv, volts: real, str: string)
  datatype TimePair = TimePair(tdiv: TimeDiv, sec: real, str: string)
  datatype MeasPair = MeasPair(par: MeasParam, str: string)
  datatype MeasDelPair = MeasDelPair(par: MeasDelParam, str: string)

  const NAttenuationTables: nat := 2
  const NVoltagePairs: nat := 14
  const NTimeDivisions: nat := 14
  const NVoltageDivisions: nat := 8

  /** The whole-screen time of a time/div entry. */
  function ScreenTime(p: TimePair): real
  {
    p.sec * NTimeDivisions as real
  }

  const PairTable1X: seq<VoltagePair> := [
    VoltagePair(V_500uV, 0.0005, "500UV"), VoltagePair(V_1mV, 0.001, "1MV"),
    VoltagePair(V_2mV, 0.002, "2MV"), VoltagePair(V_5mV, 0.005, "5MV"),
    VoltagePair(V_10mV, 0.01, "10MV"), VoltagePair(V_20mV, 0.02, "20MV"),
    VoltagePair(V_50mV, 0.05, "50MV"), VoltagePair(V_100mV, 0.1, "100MV"),
    VoltagePair(V_200mV, 0.2, "200MV"), VoltagePair(V_500mV, 0.5, "500MV"),
    VoltagePair(V_1V, 1.0, "1V"), VoltagePair(V_2V, 2.0, "2V"),
    VoltagePair(V_5V, 5.0, "5V"), VoltagePair(V_10V, 10.0, "10V")]

  const PairTable10X: seq<VoltagePair> := [
    VoltagePair(V_5mV, 0.005, "5MV"), VoltagePair(V_10mV, 0.01, "10MV"),
    VoltagePair(V_20mV, 0.02, "20MV"), VoltagePair(V_50mV, 0.05, "50MV"),
    VoltagePair(V_100mV, 0.1, "100MV"), VoltagePair(V_200mV, 0.2, "200MV"),
    VoltagePair(V_500mV, 0.5, "500MV"), VoltagePair(V_1V, 1.0, "1V"),
    VoltagePair(V_2V, 2.0, "2V"), VoltagePair(V_5V, 5.0, "5V"),
    VoltagePair(V_10V, 10.0, "10V"), VoltagePair(V_20V, 20.0, "20V"),
    VoltagePair(V_50V, 50.0, "50V"), VoltagePair(V_100V, 100.0, "100V")]

  /** VoltagePairs[PAIR_TABLE_1X] and VoltagePairs[PAIR_TABLE_10X]. */
  const VoltagePairs: seq<seq<VoltagePair>> := [PairTable1X, PairTable10X]

  /** The smallest and largest volts/div at 1x probe attenuation. */
  const VUnscaledMin: real := PairTable1X[0].volts
  const VUnscaledMax: real := PairTable1X[NVoltagePairs - 1].volts

  const TimePairs: seq<TimePair> := [
    TimePair(T_1nS, 0.000000001, "1NS"), TimePair(T_2nS, 0.000000002, "2NS"),
    TimePair(T_5nS, 0.000000005, "5NS"), TimePair(T_10nS, 0.00000001, "10NS"),
    TimePair(T_20nS, 0.00000002, "20NS"), TimePair(T_50nS, 0.00000005, "50NS"),
    TimePair(T_100nS, 0.0000001, "100NS"), TimePair(T_200nS, 0.0000002, "200NS"),
    TimePair(T_500nS, 0.0000005, "500NS"), TimePair(T_1uS, 0.000001, "1US"),
    TimePair(T_2uS, 0.000002, "2US"), TimePair(T_5uS, 0.000005, "5US"),
    TimePair(T_10uS, 0.00001, "10US"), TimePair(T_20uS, 0.00002, "20US"),
    TimePair(T_50uS, 0.00005, "50US"), TimePair(T_100uS, 0.0001, "100US"),
    TimePair(T_200uS, 0.0002, "200US"), TimePair(T_500uS, 0.0005, "500US"),
    TimePair(T_1mS, 0.001, "1MS"), TimePair(T_2mS, 0.002, "2MS"),
    TimePair(T_5mS, 0.005, "5MS"), TimePair(T_10mS, 0.01, "10MS"),
    TimePair(T_20mS, 0.02, "20MS"), TimePair(T_50mS, 0.05, "50MS"),
    TimePair(T_100mS, 0.1, "100MS"), TimePair(T_200mS, 0.2, "200MS"),
    TimePair(T_500mS, 0.5, "500MS"), TimePair(T_1S, 1.0, "1S"),
    TimePair(T_2S, 2.0, "2S"), TimePair(T_5S, 5.0, "5S"),
    TimePair(T_10S, 10.0, "10S"), TimePair(T_20S, 20.0, "20S"),
    TimePair(T_50S, 50.0, "50S"), TimePair(T_100S, 100.0, "100S")]

  const MeasPairs: seq<MeasPair> := [
    MeasPair(PKPK, "PKPK"), MeasPair(MAX, "MAX"), MeasPair(MIN, "MIN"), MeasPair(AMPL, "AMPL"),
    MeasPair(TOP, "TOP"), MeasPair(BASE, "BASE"), MeasPair(CMEAN, "CMEAN"), MeasPair(MEAN, "MEAN"),
    MeasPair(RMS, "RMS"), MeasPair(CRMS, "CRMS"), MeasPair(OVSN, "OVSN"), MeasPair(FPRE, "FPRE"),
    MeasPair(OVSP, "OVSP"), MeasPair(RPRE, "RPRE"), MeasPair(PER, "PER"), MeasPair(FREQ, "FREQ"),
    MeasPair(PWID, "PWID"), MeasPair(NWID, "NWID"), MeasPair(RISE, "RISE"), MeasPair(FALL, "FALL"),
    MeasPair(WID, "WID"), MeasPair(DUTY, "DUTY"), MeasPair(NDUTY, "NDUTY")]

  const MeasDelPairs: seq<MeasDelPair> := [
    MeasDelPair(PHA, "PHA"), MeasDelPair(FRR, "FRR"), MeasDelPair(FRF, "FRF"),
    MeasDelPair(FFR, "FFR"), MeasDelPair(FFF, "FFF"), MeasDelPair(LRR, "LRR"),
    MeasDelPair(LRF, "LRF"), MeasDelPair(LFR, "LFR"), MeasDelPair(LFF, "LFF"),
    MeasDelPair(SKEW, "SKEW")]

  // ---------------------------------------------------------------------
  // Channels

  /** GetChannel: channel numbers 1..4; anything else is channel 1. */
  function GetChannel(i: int): (ch: Channel)
    ensures 1 <= i <= 4 ==> ChannelNumber(ch) == i
    ensures !(1 <= i <= 4) ==> ch == CH1
  {
    match i
    case 2 => CH2
    case 3 => CH3
    case 4 => CH4
    case _ => CH1
  }

  function ChannelNumber(ch: Channel): (n: int)
    ensures 1 <= n <= 4
  {
    match ch
    case CH1 => 1
    case CH2 => 2
    case CH3 => 3
    case CH4 => 4
  }

  /** GetChannelString: "C" followed by the channel's digit. */
  function ChannelString(ch: Channel): (r: string)
    ensures |r| == 2 && r[0] == 'C' && r[1] as int == '0' as int + ChannelNumber(ch)
  {
    match ch
    case CH1 => "C1"
    case CH2 => "C2"
    case CH3 => "C3"
    case CH4 => "C4"
  }

  /** Channel numbers and their channels are inverse on 1..4. */
  lemma GetChannelNumber(ch: Channel)
    ensures GetChannel(ChannelNumber(ch)) == ch
  {
  }

  // ---------------------------------------------------------------------
  // Table shape

  function Volts(table: seq<VoltagePair>): (r: seq<real>)
    ensures |r| == |table|
  {
    seq(|table|, i requires 0 <= i < |table| => table[i].volts)
  }

  function Seconds(table: seq<TimePair>): (r: seq<real>)
    ensures |r| == |table|
  {
    seq(|table|, i requires 0 <= i < |table| => table[i].sec)
  }

  predicate StepsUp(t: seq<real>) { forall i :: 0 <= i < |t| - 1 ==> t[i] < t[i + 1] }
  predicate StrictlyIncreasing(t: seq<real>) { forall i, j :: 0 <= i < j < |t| ==> t[i] < t[j] }

  /** Each step going up makes the whole sequence increasing. */
  lemma {:induction false} StepsUpIncreasing(t: seq<real>)
    requires StepsUp(t)
    ensures StrictlyIncreasing(t)
    decreases |t|
  {
    if |t| > 1 {
      var u := t[..|t| - 1];
      assert StepsUp(u) by {
        assert forall i :: 0 <= i < |u| ==> u[i] == t[i];
      }
      StepsUpIncreasing(u);
      forall i, j | 0 <= i < j < |t|
        ensures t[i] < t[j]
      {
        if j < |t| - 1 {
          assert u[i] < u[j];
        } else if i < j - 1 {
          assert u[i] < u[j - 1];
        }
      }
    }
  }

  /** Two attenuation tables of fourteen entries each, volts strictly
    * increasing in both. */
  lemma VoltageTablesShape()
    ensures |VoltagePairs| == NAttenuationTables
    ensures forall k :: 0 <= k < |VoltagePairs| ==> |VoltagePairs[k]| == NVoltagePairs
    ensures forall k :: 0 <= k < |VoltagePairs| ==> StrictlyIncreasing(Volts(VoltagePairs[k]))
  {
    assert StepsUp(Volts(PairTable1X));
    assert StepsUp(Volts(PairTable10X));
    StepsUpIncreasing(Volts(PairTable1X));
    StepsUpIncreasing(Volts(PairTable10X));
  }

  /** The 10x table is the 1x table's settings scaled by ten. */
  lemma TenXIsScaled()
    ensures forall i :: 0 <= i < NVoltagePairs ==> PairTable10X[i].volts == 10.0 * PairTable1X[i].volts
  {
  }

  /** 34 time settings from 1 ns to 100 s, seconds strictly increasing. */
  lemma TimeTableShape()
    ensures |TimePairs| == 34
    ensures StrictlyIncreasing(Seconds(TimePairs))
    ensures TimePairs[0].sec == 0.000000001 && TimePairs[|TimePairs| - 1].sec == 100.0
  {
    assert StepsUp(Seconds(TimePairs));
    StepsUpIncreasing(Seconds(TimePairs));
  }

  // ---------------------------------------------------------------------
  // Lookups: the source's search loops stop at the first entry whose key
  // matches.

  function FirstIndex<K(==)>(keys: seq<K>, k: K, from: nat): (r: Option<nat>)
    requires from <= |keys|
    ensures r.Some? ==> from <= r.value < |keys| && keys[r.value] == k
    decreases |keys| - from
  {
    if from == |keys| then None
    else if keys[from] == k then Some(from)
    else FirstIndex(keys, k, from + 1)
  }

  /** The search fails exactly when no key from `from` on matches, and
    * otherwise finds the first match. */
  lemma {:induction false} FirstIndexSpec<K>(keys: seq<K>, k: K, from: nat)
    requires from <= |keys|
    ensures FirstIndex(keys, k, from).None? <==> forall j :: from <= j < |keys| ==> keys[j] != k
    ensures FirstIndex(keys, k, from).Some? ==>
      forall j :: from <= j < FirstIndex(keys, k, from).value ==> keys[j] != k
    decreases |keys| - from
  {
    if from < |keys| && keys[from] != k {
      FirstIndexSpec(keys, k, from + 1);
    }
  }

  function Vdivs(table: seq<VoltagePair>): (r: seq<VoltsPerDiv>)
    ensures |r| == |table|
  {
    seq(|table|, i requires 0 <= i < |table| => table[i].vdiv)
  }

  /** The command text of a volts/div setting in a table, if it has one. */
  function VoltsText(table: seq<VoltagePair>, vdiv: VoltsPerDiv): Option<string>
  {
    match FirstIndex(Vdivs(table), vdiv, 0)
    case None => None
    case Some(i) => Some(table[i].str)
  }

  /** A table has no text for a setting exactly when no entry holds it. */
  lemma VoltsTextMissing(table: seq<VoltagePair>, vdiv: VoltsPerDiv)
    ensures VoltsText(table, vdiv).None? <==> vdiv !in Vdivs(table)
  {
    FirstIndexSpec(Vdivs(table), vdiv, 0);
  }

  /** UNSPEC and the 10x-only settings 20V, 50V and 100V have no 1x
    * entry, so setting them with a 1x probe fails. */
  lemma Vdiv1XCoverage(vdiv: VoltsPerDiv)
    requires vdiv in {VoltsUnspec, V_20V, V_50V, V_100V}
    ensures VoltsText(PairTable1X, vdiv).None?
  {
    VoltsTextMissing(PairTable1X, vdiv);
  }

  /** UNSPEC and the 1x-only settings 500uV, 1mV and 2mV have no 10x
    * entry. */
  lemma Vdiv10XCoverage(vdiv: VoltsPerDiv)
    requires vdiv in {VoltsUnspec, V_500uV, V_1mV, V_2mV}
    ensures VoltsText(PairTable10X, vdiv).None?
  {
    VoltsTextMissing(PairTable10X, vdiv);
  }

  function TimeDivs(table: seq<TimePair>): (r: seq<TimeDiv>)
    ensures |r| == |table|
  {
    seq(|table|, i requires 0 <= i < |table| => table[i].tdiv)
  }

  /** The command text of a time/div setting, if the table has one. */
  function TimeText(tdiv: TimeDiv): Option<string>
  {
    TimeTextIn(TimePairs, tdiv)
  }

  function TimeTextIn(table: seq<TimePair>, tdiv: TimeDiv): Option<string>
  {
    match FirstIndex(TimeDivs(table), tdiv, 0)
    case None => None
    case Some(i) => Some(table[i].str)
  }

  /** A time/div setting has command text exactly when the table lists it. */
  lemma TimeTextMissing(table: seq<TimePair>, tdiv: TimeDiv)
    ensures TimeTextIn(table, tdiv).None? <==> tdiv !in TimeDivs(table)
  {
    FirstIndexSpec(TimeDivs(table), tdiv, 0);
  }

  function MeasParams(table: seq<MeasPair>): (r: seq<MeasParam>)
    ensures |r| == |table|
  {
    seq(|table|, i requires 0 <= i < |table| => table[i].par)
  }

  function MeasDelParams(table: seq<MeasDelPair>): (r: seq<MeasDelParam>)
    ensures |r| == |table|
  {
    seq(|table|, i requires 0 <= i < |table| => table[i].par)
  }

  /** The token Measure sends: the table entry for the parameter, or the
    * first entry's token when the table has none. */
  function MeasToken(par: MeasParam): string
  {
    MeasTokenIn(MeasPairs, par)
  }

  function MeasTokenIn(table: seq<MeasPair>, par: MeasParam): string
    requires table != []
  {
    match FirstIndex(MeasParams(table), par, 0)
    case Some(i) => table[i].str
    case None => table[0].str
  }

  /** The token MeasureDelay sends, with the same fallback. */
  function MeasDelToken(par: MeasDelParam): string
  {
    MeasDelTokenIn(MeasDelPairs, par)
  }

  function MeasDelTokenIn(table: seq<MeasDelPair>, par: MeasDelParam): string
    requires table != []
  {
    match FirstIndex(MeasDelParams(table), par, 0)
    case Some(i) => table[i].str
    case None => table[0].str
  }

  predicate Token(t: string) { |t| > 0 && forall k :: 0 <= k < |t| ==> IsUpperChar(t[k]) }
  predicate IsUpperChar(c: char) { 'A' <= c <= 'Z' }

  /** Every measurement token is a nonempty run of capital letters. */
  lemma MeasTokenShape(par: MeasParam)
    ensures Token(MeasToken(par))
  {
    assert forall i :: 0 <= i < |MeasPairs| ==> Token(MeasPairs[i].str);
  }

  /** Every delay measurement token is a nonempty run of capital letters. */
  lemma MeasDelTokenShape(del: MeasDelParam)
    ensures Token(MeasDelToken(del))
  {
    assert forall i :: 0 <= i < |MeasDelPairs| ==> Token(MeasDelPairs[i].str);
  }
}
