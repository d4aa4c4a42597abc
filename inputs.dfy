/** Analog and switch inputs: the three-way switch decoder and the per-channel
    auto-calibrating linear scaler `LinearInput` (src/inputs.rs). */
module Inputs {
  import opened Wrappers
  import opened MachineInts

  /** Full scale of a scaled reading: outputs lie in `0..=RESOLUTION`. */
  const RESOLUTION: U16 := 1000
  const HALF_RESOLUTION: U16 := RESOLUTION / 2
  /** Largest conversion result of the 12-bit ADC that feeds the scaler. */
  const ADC_MAX: U16 := 4095

  // ---------------------------------------------------------------------
  // Three-way switch
  // ---------------------------------------------------------------------

  datatype ThreeWay = Low | Mid | High

  const BOTH_ACTIVE: string := "Both bools are true, invalid state"

  /** The pin pattern that each switch position produces (the reference the
      decoder is checked against). */
  function SwitchPins(position: ThreeWay): (pins: seq<bool>)
    ensures |pins| == 2 && !(pins[0] && pins[1])
  {
    match position
    case Low => [true, false]
    case Mid => [false, false]
    case High => [false, true]
  }

  /** `TryFrom<&[bool; 2]> for ThreeWay`: both pins active is a decode error. */
  function ThreeWayTryFrom(value: seq<bool>): (r: Result<ThreeWay, string>)
    requires |value| == 2
    ensures r.Failure? <==> value[0] && value[1]
    ensures r.Failure? ==> r.error == BOTH_ACTIVE
    ensures r.Success? ==> SwitchPins(r.value) == value
  {
    if !value[0] && !value[1] then Success(Mid)
    else if value[0] && !value[1] then Success(Low)
    else if !value[0] && value[1] then Success(High)
    else Failure(BOTH_ACTIVE)
  }

  /** Decoding the pattern of a position gives that position back. */
  lemma ThreeWayRoundTrip(position: ThreeWay)
    ensures ThreeWayTryFrom(SwitchPins(position)) == Success(position)
  {
  }

  // ---------------------------------------------------------------------
  // u16 / u32 arithmetic as the firmware performs it
  // ---------------------------------------------------------------------

  /** Why a computation would trap in a build with overflow checks and
      debug assertions enabled. */
  datatype Trap =
    | ArithmeticOverflow     // a u16/u32 `+`, `-` or `*` leaves its range
    | ClampBoundsInverted    // `num::clamp` asserts `min <= max`
    | ZeroSpan               // `debug_assert!(span != 0)`

  function AddU16(a: U16, b: U16): (r: Result<U16, Trap>)
    ensures r.Success? <==> a + b < U16_LIMIT
    ensures r.Success? ==> r.value == a + b
  {
    if a + b < U16_LIMIT then Success(a + b) else Failure(ArithmeticOverflow)
  }

  function SubU16(a: U16, b: U16): (r: Result<U16, Trap>)
    ensures r.Success? <==> b <= a
    ensures r.Success? ==> r.value == a - b
  {
    if b <= a then Success(a - b) else Failure(ArithmeticOverflow)
  }

  function MulU32(a: U32, b: U32): (r: Result<U32, Trap>)
    ensures r.Success? <==> a * b < U32_LIMIT
    ensures r.Success? ==> r.value == a * b
  {
    if a * b < U32_LIMIT then Success(a * b) else Failure(ArithmeticOverflow)
  }

  /** `x as u16`: keeps the low 16 bits. */
  function TruncateU16(x: U32): (r: U16)
    ensures x < U16_LIMIT ==> r == x
  {
    x % U16_LIMIT
  }

  function Min(a: int, b: int): int { if a <= b then a else b }
  function Max(a: int, b: int): int { if a <= b then b else a }

  /** `num::clamp(v, lo, hi)` when `lo <= hi`. */
  function Clamp(v: U16, lo: U16, hi: U16): (r: U16)
    requires lo <= hi
    ensures lo <= r <= hi
    ensures lo <= v <= hi ==> r == v
    ensures v <= lo ==> r == lo
    ensures hi <= v ==> r == hi
  {
    if v < lo then lo else if v > hi then hi else v
  }

  // ---------------------------------------------------------------------
  // LinearInput
  // ---------------------------------------------------------------------

  datatype LinearInput =
    | NoCalibration
    | OngoingCalibration(start: U16, end: U16)
    | Calibrated(start: U16, mid: U16, end: U16)

  /** The one invariant the operations keep: the learned envelope is ordered.
      The midpoint is whatever `SetCenter` was given, inside the envelope or not. */
  predicate Valid(s: LinearInput) {
    !s.NoCalibration? ==> s.start <= s.end
  }

  /** The envelope was learned from 12-bit samples. */
  predicate WithinAdc(s: LinearInput) {
    Valid(s) && (!s.NoCalibration? ==> s.end <= ADC_MAX)
  }

  /** `impl Default for LinearInput`. */
  function Default(): (r: LinearInput)
    ensures WithinAdc(r)
    ensures forall v: U16 {:trigger SetCenter(r, v)} :: SetCenter(r, v) == r
  {
    NoCalibration
  }

  /** `reset_calibration`: forgets the envelope and the midpoint, whatever the state. */
  function ResetCalibration(s: LinearInput): (r: LinearInput)
    ensures r == Default()
    ensures WithinAdc(r)
  {
    NoCalibration
  }

  /** `set_center`: commits an ongoing calibration with `v` as midpoint, or moves
      the midpoint of a committed one; refuses to commit when nothing was observed. */
  function SetCenter(s: LinearInput, v: U16): (r: LinearInput)
    ensures s.NoCalibration? ==> r == s
    ensures !s.NoCalibration? ==> r.Calibrated? && r.mid == v && r.start == s.start && r.end == s.end
    ensures Valid(s) ==> Valid(r)
    ensures WithinAdc(s) ==> WithinAdc(r)
  {
    match s
    case NoCalibration => s
    case OngoingCalibration(start, end) => Calibrated(start, v, end)
    case Calibrated(start, _, end) => Calibrated(start, v, end)
  }

  /** The calibration half of `get`: the first sample opens an envelope, an
      ongoing calibration widens it, a committed one stays as it is. */
  function Observe(s: LinearInput, v: U16): (r: LinearInput)
    ensures !r.NoCalibration?
    ensures s.NoCalibration? ==> r == OngoingCalibration(v, v)
    ensures s.OngoingCalibration? && Valid(s) ==>
              r == OngoingCalibration(Min(s.start, v), Max(s.end, v))
    ensures s.Calibrated? ==> r == s
    ensures Valid(s) ==> Valid(r)
    ensures WithinAdc(s) && v <= ADC_MAX ==> WithinAdc(r)
  {
    match s
    case NoCalibration => OngoingCalibration(v, v)
    case OngoingCalibration(start, end) =>
      if v < start then OngoingCalibration(v, end)
      else if v > end then OngoingCalibration(start, v)
      else s
    case Calibrated(_, _, _) => s
  }

  /** Lines 107-113 of `get`: maps `v` in `[lo, hi]` proportionally onto
      `offset + 0..=HALF_RESOLUTION`, with the rounding-bias correction. */
  function ScaleHalf(lo: U16, hi: U16, offset: U16, v: U16): Result<U16, Trap>
  {
    var span :- SubU16(hi, lo);
    if span == 0 then Failure(ZeroSpan)
    else
      var biased :- AddU16(v, span / RESOLUTION);
      var delta :- SubU16(biased, lo);
      var product :- MulU32(delta, HALF_RESOLUTION);
      AddU16(TruncateU16(product / span), offset)
  }

  /** Lines 95-113 of `get`: clamp to the envelope, then scale in the half
      below or above the midpoint; the midpoint itself is exactly half scale. */
  function Scale(start: U16, mid: U16, end: U16, v: U16): Result<U16, Trap>
  {
    if start > end then Failure(ClampBoundsInverted)
    else
      var c := Clamp(v, start, end);
      if c < mid then ScaleHalf(start, mid, 0, c)
      else if c > mid then ScaleHalf(mid, end, HALF_RESOLUTION, c)
      else Success(HALF_RESOLUTION)
  }

  /** `get`: the new state of the channel and the scaled reading (or the trap
      that would stop the firmware). */
  function Get(s: LinearInput, v: U16): (r: (LinearInput, Result<U16, Trap>))
    ensures r.0 == Observe(s, v)
  {
    var s' := Observe(s, v);
    var out :=
      match s'
      case NoCalibration => Success(HALF_RESOLUTION)
      case OngoingCalibration(start, end) =>
        var sum :- AddU16(start, end);
        Scale(start, sum / 2, end, v)
      case Calibrated(start, mid, end) => Scale(start, mid, end, v);
    (s', out)
  }

  // ---------------------------------------------------------------------
  // Arithmetic facts used by the scaling proofs
  // ---------------------------------------------------------------------

  /** Cancelling a positive factor from a strict inequality. */
  lemma MulCancelLess(d: int, x: int, y: int)
    requires 0 < d && d * x < d * y
    ensures x < y
  {
  }

  lemma DivMonotone(a: int, b: int, d: int)
    requires 0 <= a <= b && 0 < d
    ensures a / d <= b / d
  {
    var qa, qb := a / d, b / d;
    assert d * qa <= a;
    assert b < d * qb + d;
    assert d * qa < d * (qb + 1);
    MulCancelLess(d, qa, qb + 1);
  }

  lemma MulDivCancel(k: int, d: int)
    requires 0 <= k && 0 < d
    ensures (k * d) / d == k
  {
    var q := (k * d) / d;
    assert d * q <= k * d < d * q + d;
    MulCancelLess(d, q, k + 1);
    MulCancelLess(d, k, q + 1);
  }

  /** If `a < (k + 1) * d` then `a / d <= k`. */
  lemma DivBelow(a: int, d: int, k: int)
    requires 0 <= a && 0 < d && 0 <= k && a < (k + 1) * d
    ensures a / d <= k
  {
    var q := a / d;
    assert d * q <= a;
    assert d * q < d * (k + 1);
    MulCancelLess(d, q, k + 1);
  }

  /** The bias `span / RESOLUTION` never pushes a half past its full scale. */
  lemma BiasedProportionBound(span: int, delta: int)
    requires 0 < span && 0 <= delta <= span + span / RESOLUTION
    ensures delta * HALF_RESOLUTION / span <= HALF_RESOLUTION
  {
    var b := span / RESOLUTION;
    assert b * RESOLUTION <= span;
    assert delta * HALF_RESOLUTION <= span * HALF_RESOLUTION + b * HALF_RESOLUTION;
    assert delta * HALF_RESOLUTION < (HALF_RESOLUTION + 1) * span;
    DivBelow(delta * HALF_RESOLUTION, span, HALF_RESOLUTION);
  }

  // ---------------------------------------------------------------------
  // Properties of the scaling
  // ---------------------------------------------------------------------

  /** The share of half scale that `v` reaches on the way from `lo` to `hi`,
      with the bias `span / RESOLUTION` added to the sample first. */
  function BiasedProportion(lo: int, hi: int, v: int): int
    requires lo < hi
  {
    (v + (hi - lo) / RESOLUTION - lo) * HALF_RESOLUTION / (hi - lo)
  }

  lemma BiasedProportionMonotone(lo: int, hi: int, v1: int, v2: int)
    requires lo <= v1 <= v2 && lo < hi
    ensures BiasedProportion(lo, hi, v1) <= BiasedProportion(lo, hi, v2)
  {
    var span := hi - lo;
    var b := span / RESOLUTION;
    var d1, d2 := v1 + b - lo, v2 + b - lo;
    assert 0 <= d1 * HALF_RESOLUTION <= d2 * HALF_RESOLUTION;
    DivMonotone(d1 * HALF_RESOLUTION, d2 * HALF_RESOLUTION, span);
  }

  /** In a non-empty half whose biased sample stays inside u16, nothing traps and
      the result is `offset` plus the biased proportion, which lies in
      `0..=HALF_RESOLUTION`. */
  lemma ScaleHalfValue(lo: U16, hi: U16, offset: U16, v: U16)
    requires lo <= v <= hi && lo < hi && offset <= HALF_RESOLUTION
    requires v + (hi - lo) / RESOLUTION < U16_LIMIT
    ensures ScaleHalf(lo, hi, offset, v) == Success(offset + BiasedProportion(lo, hi, v))
    ensures 0 <= BiasedProportion(lo, hi, v) <= HALF_RESOLUTION
  {
    var span := hi - lo;
    var delta := v + span / RESOLUTION - lo;
    assert delta < U16_LIMIT;
    assert delta * HALF_RESOLUTION < U32_LIMIT;
    BiasedProportionBound(span, delta);
  }

  /** Within a half, a larger sample never scales lower. */
  lemma ScaleHalfMonotone(lo: U16, hi: U16, offset: U16, v1: U16, v2: U16)
    requires lo <= v1 <= v2 <= hi && lo < hi && offset <= HALF_RESOLUTION
    requires v2 + (hi - lo) / RESOLUTION < U16_LIMIT
    ensures ScaleHalf(lo, hi, offset, v1).Success? && ScaleHalf(lo, hi, offset, v2).Success?
    ensures ScaleHalf(lo, hi, offset, v1).value <= ScaleHalf(lo, hi, offset, v2).value
  {
    ScaleHalfValue(lo, hi, offset, v1);
    ScaleHalfValue(lo, hi, offset, v2);
    BiasedProportionMonotone(lo, hi, v1, v2);
  }

  /** With an ordered envelope learned from 12-bit samples, scaling never traps
      (whatever the midpoint and the sample), the result lies in
      `0..=RESOLUTION`, a sample below the midpoint scales into the lower half,
      one above it into the upper half, and one that clamps onto the midpoint
      gives exactly half scale. */
  lemma ScaleInRange(start: U16, mid: U16, end: U16, v: U16)
    requires start <= end <= ADC_MAX
    ensures Scale(start, mid, end, v).Success?
    ensures Scale(start, mid, end, v).value <= RESOLUTION
    ensures Clamp(v, start, end) < mid ==> Scale(start, mid, end, v).value <= HALF_RESOLUTION
    ensures Clamp(v, start, end) > mid ==> Scale(start, mid, end, v).value >= HALF_RESOLUTION
    ensures Clamp(v, start, end) == mid ==> Scale(start, mid, end, v).value == HALF_RESOLUTION
  {
    var c := Clamp(v, start, end);
    if c < mid {
      ScaleHalfValue(start, mid, 0, c);
    } else if c > mid {
      ScaleHalfValue(mid, end, HALF_RESOLUTION, c);
    }
  }

  /** The clamp: every sample at or below the envelope's start scales like the
      start, every sample at or above its end like the end. */
  lemma ScaleClamps(start: U16, mid: U16, end: U16, v: U16)
    ensures v <= start ==> Scale(start, mid, end, v) == Scale(start, mid, end, start)
    ensures v >= end ==> Scale(start, mid, end, v) == Scale(start, mid, end, end)
  {
  }

  /** With a fixed calibration, `get` is monotone non-decreasing in the sample. */
  lemma ScaleMonotone(start: U16, mid: U16, end: U16, v1: U16, v2: U16)
    requires start <= end <= ADC_MAX && v1 <= v2
    ensures Scale(start, mid, end, v1).Success? && Scale(start, mid, end, v2).Success?
    ensures Scale(start, mid, end, v1).value <= Scale(start, mid, end, v2).value
  {
    ScaleInRange(start, mid, end, v1);
    ScaleInRange(start, mid, end, v2);
    var c1, c2 := Clamp(v1, start, end), Clamp(v2, start, end);
    assert c1 <= c2;
    if c1 < mid && c2 < mid {
      ScaleHalfMonotone(start, mid, 0, c1, c2);
    } else if c1 > mid && c2 > mid {
      ScaleHalfMonotone(mid, end, HALF_RESOLUTION, c1, c2);
    }
  }

  /** The envelope maps onto the full output range: its start gives 0 when the
      midpoint lies above it, its end gives `RESOLUTION` when the midpoint lies
      below it. */
  lemma ScaleEndpoints(start: U16, mid: U16, end: U16)
    requires start <= end <= ADC_MAX
    ensures start < mid ==> Scale(start, mid, end, start) == Success(0)
    ensures mid < end ==> Scale(start, mid, end, end) == Success(RESOLUTION)
  {
    if start < mid {
      ScaleHalfValue(start, mid, 0, start);
      BiasedProportionAtStart(start, mid);
    }
    if mid < end {
      ScaleHalfValue(mid, end, HALF_RESOLUTION, end);
      BiasedProportionAtEnd(mid, end);
    }
  }

  /** The bias alone never lifts the start of a half off zero. */
  lemma BiasedProportionAtStart(lo: int, hi: int)
    requires lo < hi
    ensures BiasedProportion(lo, hi, lo) == 0
  {
    var span := hi - lo;
    var b := span / RESOLUTION;
    assert b * RESOLUTION <= span;
    assert b * HALF_RESOLUTION < span;
    DivBelow(b * HALF_RESOLUTION, span, 0);
  }

  /** The end of a half reaches exactly full half scale. */
  lemma BiasedProportionAtEnd(lo: int, hi: int)
    requires lo < hi
    ensures BiasedProportion(lo, hi, hi) == HALF_RESOLUTION
  {
    var span := hi - lo;
    var b := span / RESOLUTION;
    assert b * RESOLUTION <= span;
    var x := (span + b) * HALF_RESOLUTION;
    assert x == HALF_RESOLUTION * span + b * HALF_RESOLUTION;
    assert x < (HALF_RESOLUTION + 1) * span;
    DivBelow(x, span, HALF_RESOLUTION);
    MulDivCancel(HALF_RESOLUTION, span);
    DivMonotone(HALF_RESOLUTION * span, x, span);
  }

  /** A degenerate calibration (start, midpoint and end equal) reads half scale
      for every sample and never divides. */
  lemma ScaleDegenerate(p: U16, v: U16)
    ensures Scale(p, p, p, v) == Success(HALF_RESOLUTION)
  {
  }

  /** The calibration 100 / 500 / 900: its three reference points and a sample
      below the envelope. */
  lemma ScaleExample()
    ensures Scale(100, 500, 900, 100) == Success(0)
    ensures Scale(100, 500, 900, 500) == Success(500)
    ensures Scale(100, 500, 900, 900) == Success(1000)
    ensures Scale(100, 500, 900, 50) == Success(0)
  {
    ScaleEndpoints(100, 500, 900);
    ScaleClamps(100, 500, 900, 50);
  }

  // ---------------------------------------------------------------------
  // Properties of `get`
  // ---------------------------------------------------------------------

  /** The first sample opens the envelope `[v, v]` and reads exactly half scale;
      `start + end` overflows u16 (and traps) only for a first sample above
      32767, which a 12-bit ADC cannot deliver. */
  lemma GetFirstSample(v: U16)
    ensures Get(NoCalibration, v).0 == OngoingCalibration(v, v)
    ensures Get(NoCalibration, v).1 ==
              if v + v < U16_LIMIT then Success(HALF_RESOLUTION) else Failure(ArithmeticOverflow)
  {
  }

  /** `Get` never leaves a channel uncalibrated, so the early return for
      `NoCalibration` in its second match is dead code. */
  lemma GetNeverUncalibrated(s: LinearInput, v: U16)
    ensures !Get(s, v).0.NoCalibration?
  {
  }

  /** During calibration the envelope only widens, to the smallest and largest
      samples seen. */
  lemma GetWidensEnvelope(s: LinearInput, v: U16)
    requires s.OngoingCalibration? && Valid(s)
    ensures Get(s, v).0.OngoingCalibration?
    ensures Get(s, v).0.start == Min(s.start, v) && Get(s, v).0.end == Max(s.end, v)
    ensures Get(s, v).0.start <= s.start && s.end <= Get(s, v).0.end
    ensures Get(s, v).0.start <= v <= Get(s, v).0.end
  {
  }

  /** A committed calibration is never changed by `Get`, which then reads
      through the fixed calibration. */
  lemma GetCalibratedKeepsState(s: LinearInput, v: U16)
    requires s.Calibrated?
    ensures Get(s, v).0 == s
    ensures Get(s, v).1 == Scale(s.start, s.mid, s.end, v)
  {
  }

  /** From a state learned from 12-bit samples, a 12-bit sample never traps
      (the divisor is never zero and no u16/u32 operation overflows), the result
      lies in `0..=RESOLUTION`, and the new state again satisfies the invariant. */
  lemma GetInRange(s: LinearInput, v: U16)
    requires WithinAdc(s) && v <= ADC_MAX
    ensures Get(s, v).1.Success?
    ensures Get(s, v).1.value <= RESOLUTION
    ensures WithinAdc(Get(s, v).0)
  {
    var s' := Observe(s, v);
    match s'
    case OngoingCalibration(start, end) =>
      ScaleInRange(start, (start + end) / 2, end, v);
    case Calibrated(start, mid, end) =>
      ScaleInRange(start, mid, end, v);
  }

  /** With a committed calibration, `Get` is monotone in the sample, whatever
      the sample. */
  lemma GetMonotone(s: LinearInput, v1: U16, v2: U16)
    requires s.Calibrated? && WithinAdc(s) && v1 <= v2
    ensures Get(s, v1).1.Success? && Get(s, v2).1.Success?
    ensures Get(s, v1).1.value <= Get(s, v2).1.value
  {
    ScaleMonotone(s.start, s.mid, s.end, v1, v2);
  }

  /** Committing the current sample as midpoint and then reading it gives exactly
      half scale when the sample lies in the envelope; with nothing observed the
      commit is refused and the read opens the envelope. */
  lemma CommitThenGet(s: LinearInput, v: U16)
    requires WithinAdc(s) && v <= ADC_MAX
    requires !s.NoCalibration? ==> s.start <= v <= s.end
    ensures Get(SetCenter(s, v), v).1 == Success(HALF_RESOLUTION)
    ensures s.NoCalibration? ==> Get(SetCenter(s, v), v).0 == OngoingCalibration(v, v)
    ensures !s.NoCalibration? ==> Get(SetCenter(s, v), v).0 == Calibrated(s.start, v, s.end)
  {
    if !s.NoCalibration? {
      ScaleInRange(s.start, v, s.end, v);
    }
  }

  /** A whole calibration: sweep the stick to 100 and 900, commit 500 as centre,
      then read the extremes and the centre back. */
  lemma CalibrationScenario()
    ensures var s1 := Get(Default(), 500).0;
            var s2 := Get(s1, 100).0;
            var s3 := Get(s2, 900).0;
            var s4 := SetCenter(s3, 500);
            && s3 == OngoingCalibration(100, 900)
            && s4 == Calibrated(100, 500, 900)
            && Get(s4, 100) == (s4, Success(0))
            && Get(s4, 500) == (s4, Success(HALF_RESOLUTION))
            && Get(s4, 900) == (s4, Success(RESOLUTION))
  {
    ScaleExample();
  }
}
