/**
  The discrete rules of one mill's hourly operation (`_generate_mill_operation`
  and `_generate_base_conditions`): the hourly time index, the shift of each
  hour and the feed-rate offset of that shift, and the ranges every generated
  column is clipped to. Row `i` is the `i`-th hour after the start, which is
  a midnight, so its hour of day is `i % 24`.
 */
module MillOperation {
  import opened Signals

  /** `int(duration_years * 365.25)`: whole days of the simulation (truncation toward zero,
      which is the floor for a non-negative duration). */
  function DurationDays(durationYears: real): (days: nat)
    requires durationYears >= 0.0
    ensures days as real <= durationYears * 365.25 < days as real + 1.0
  {
    (durationYears * 365.25).Floor
  }

  /** `pd.date_range(start, end, freq='H')`: one row per hour from the start to the end, both
      included; times are hours from the start. */
  function HourlyIndex(days: nat): (ts: seq<real>)
    ensures |ts| == days * 24 + 1
    ensures ts[0] == 0.0 && ts[|ts| - 1] == (days * 24) as real
    ensures forall i :: 0 < i < |ts| ==> ts[i] == ts[i - 1] + 1.0
  {
    seq(days * 24 + 1, i requires 0 <= i <= days * 24 => i as real)
  }

  /** `timestamps.dt.hour` of row `i`. */
  function HourOfDay(i: nat): (h: nat)
    ensures h < 24 && (i - h) % 24 == 0
  {
    i % 24
  }

  /** The three operator shifts A, B and C. */
  datatype Shift = A | B | C

  /** The feed-rate effect of each shift's operators: A conservative, B aggressive, C normal. */
  function ShiftEffect(s: Shift): int
  {
    match s
    case A => -10
    case B => 5
    case C => 0
  }

  /** `turno_effect`: the nested `np.where` on `hour_of_day < 8` and `hour_of_day < 16`. */
  function ShiftOffset(hour: nat): (offset: int)
    ensures offset == -10 <==> hour < 8
    ensures offset == 5 <==> 8 <= hour < 16
    ensures offset == 0 <==> 16 <= hour
  {
    if hour < 8 then -10 else if hour < 16 then 5 else 0
  }

  /** The `turno` column as written: `pd.cut(hour, bins=[0, 8, 16, 24], labels=['A', 'B', 'C'],
      include_lowest=True)`. The bins are closed on the right, so hour 8 falls in A and hour 16
      in B. */
  function TurnoLabelAsWritten(hour: nat): (s: Shift)
    requires hour < 24
    ensures s == A <==> hour <= 8
    ensures s == C <==> hour > 16
  {
    if hour <= 8 then A else if hour <= 16 then B else C
  }

  /** The shift of an hour as the feed-rate offset defines it: three blocks of eight hours,
      [0, 8), [8, 16) and [16, 24). */
  function TurnoLabel(hour: nat): (s: Shift)
    requires hour < 24
    ensures s == [A, B, C][hour / 8]
  {
    if hour < 8 then A else if hour < 16 then B else C
  }

  /** The feed-rate offset of every hour is the effect of that hour's shift. */
  lemma ShiftOffsetMatchesTurno(hour: nat)
    requires hour < 24
    ensures ShiftOffset(hour) == ShiftEffect(TurnoLabel(hour))
  {
  }

  /** The `turno` column as written disagrees with the feed-rate offset at the two bin edges,
      hours 8 and 16, and nowhere else. */
  lemma TurnoAsWrittenDisagrees(hour: nat)
    requires hour < 24
    ensures TurnoLabelAsWritten(hour) != TurnoLabel(hour) <==> hour == 8 || hour == 16
    ensures hour == 8 ==> ShiftEffect(TurnoLabelAsWritten(hour)) != ShiftOffset(hour)
  {
  }

  /** The ranges the generated columns are clipped to. */
  const WorkIndexRange: Range := Range(10.0, 20.0)
  const HardnessRange: Range := Range(3.0, 6.5)
  const HumidityRange: Range := Range(4.0, 12.0)
  const FeedSizeRange: Range := Range(9000.0, 15000.0)
  const FeedRateRange: Range := Range(180.0, 350.0)
  const SpeedPctCriticalRange: Range := Range(70.0, 85.0)
  const BallChargeRange: Range := Range(28.0, 36.0)
  const PulpDensityRange: Range := Range(68.0, 78.0)
  const OilQualityRange: Range := Range(70.0, 100.0)

  /** The clipped columns of the shared base conditions: Bond work index, ore hardness, ore
      humidity and feed size P80, each from its raw series. */
  function BaseConditionColumns(raw: seq<seq<real>>): (cols: seq<seq<real>>)
    requires |raw| == 4
    ensures |cols| == 4 && forall c :: 0 <= c < 4 ==> |cols[c]| == |raw[c]|
    ensures InRange(cols[0], 10.0, 20.0) && InRange(cols[1], 3.0, 6.5)
    ensures InRange(cols[2], 4.0, 12.0) && InRange(cols[3], 9000.0, 15000.0)
  {
    ClipColumns(raw, [WorkIndexRange, HardnessRange, HumidityRange, FeedSizeRange])
  }

  /** The clipped operating columns of one mill: speed as a percentage of critical speed, ball
      charge level, pulp density and oil quality. */
  function OperationColumns(raw: seq<seq<real>>): (cols: seq<seq<real>>)
    requires |raw| == 4
    ensures |cols| == 4 && forall c :: 0 <= c < 4 ==> |cols[c]| == |raw[c]|
    ensures InRange(cols[0], 70.0, 85.0) && InRange(cols[1], 28.0, 36.0)
    ensures InRange(cols[2], 68.0, 78.0) && InRange(cols[3], 70.0, 100.0)
  {
    ClipColumns(raw, [SpeedPctCriticalRange, BallChargeRange, PulpDensityRange, OilQualityRange])
  }

  /** The feed rate of row `i`: 280 t/h plus the random variation and the shift offset, clipped
      to [180, 350]. */
  function FeedRate(variation: seq<real>): (rate: seq<real>)
    ensures |rate| == |variation| && InRange(rate, 180.0, 350.0)
    ensures forall i :: 0 <= i < |variation| ==>
      rate[i] == Clip(280.0 + variation[i] + ShiftOffset(HourOfDay(i)) as real, 180.0, 350.0)
  {
    var raw := seq(|variation|, i requires 0 <= i < |variation| =>
                     280.0 + variation[i] + ShiftOffset(HourOfDay(i)) as real);
    ClipToRange(raw, FeedRateRange)
  }

  /** In the middle of the range the clip has no effect: with a variation of at most 60 t/h
      either way, the feed rate is exactly 280 plus the variation plus the shift offset. */
  lemma FeedRateUnclippedNearMean(variation: seq<real>, i: nat)
    requires i < |variation| && -60.0 <= variation[i] <= 60.0
    ensures FeedRate(variation)[i] == 280.0 + variation[i] + ShiftOffset(HourOfDay(i)) as real
  {
  }
}
