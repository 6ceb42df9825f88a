/**
  Failure scheduling for one mill (`_schedule_failures`): a clock walks
  forward from the first timestamp by Weibull-distributed gaps, records a
  failure whenever the next failure time is still before the last
  timestamp, and then waits a cool-down of 7 to 30 days.

  Times are hours from the start of the simulation. The random samples of
  each loop iteration are inputs, given as a finite sequence `draws` that
  holds at least one draw per iteration the loop can make (`EnoughDraws`).
 */
module Scheduling {
  import opened FailureModes

  /** `base_mtbf`: mean hours between failures before the condition adjustment (six months). */
  const BaseMtbfHours: real := 4380.0

  /** Bounds of `np.random.uniform(7, 30)`, the cool-down in days after a failure. */
  const MinCooldownDays: real := 7.0
  const MaxCooldownDays: real := 30.0

  /** The shortest cool-down, in hours. */
  const MinCooldownHours: real := 168.0

  /** The random samples one iteration of the scheduling loop consumes: the time to the next
      failure in hours (the Weibull(2) sample already multiplied by the mill's MTBF, see
      `ScaleDraws`), the uniform samples behind the two categorical choices, and the cool-down
      in days. */
  datatype Draw = Draw(hoursToFailure: real, typeSample: real, severitySample: real, cooldownDays: real)

  /** The ranges numpy's generators produce. */
  predicate ValidDraw(d: Draw)
  {
    && d.hoursToFailure >= 0.0
    && 0.0 <= d.typeSample < 1.0
    && 0.0 <= d.severitySample < 1.0
    && MinCooldownDays <= d.cooldownDays < MaxCooldownDays
  }

  predicate ValidDraws(draws: seq<Draw>)
  {
    forall k :: 0 <= k < |draws| ==> ValidDraw(draws[k])
  }

  /** The draws from number `k` on are enough to reach `end` from `current`: every recorded
      failure is followed by at least `MinCooldownHours`, so the loop can record at most one
      failure per 7 days of horizon and consume at most one more draw to stop. */
  predicate EnoughDraws(draws: seq<Draw>, k: nat, current: real, end: real)
  {
    k <= |draws| && end - current < (|draws| - k) as real * MinCooldownHours
  }

  /** One scheduled failure event: `{'mill_id', 'failure_time', 'failure_type', 'severity'}`. */
  datatype Failure = Failure(millId: string, time: real, kind: FailureType, severity: int)

  /** The mean time between failures of a mill in `condition`: `base_mtbf * condition`. */
  function MillMtbf(condition: real): (h: real)
    requires condition >= 0.0
    ensures h >= 0.0
    ensures condition <= 1.0 ==> h <= BaseMtbfHours
  {
    BaseMtbfHours * condition
  }

  /** The raw samples of one iteration: `np.random.weibull(2)`, the two uniform samples behind
      the categorical choices, and `np.random.uniform(7, 30)`. */
  datatype Sample = Sample(weibull: real, typeSample: real, severitySample: real, cooldownDays: real)

  predicate ValidSamples(samples: seq<Sample>)
  {
    forall k :: 0 <= k < |samples| ==>
      && samples[k].weibull >= 0.0
      && 0.0 <= samples[k].typeSample < 1.0
      && 0.0 <= samples[k].severitySample < 1.0
      && MinCooldownDays <= samples[k].cooldownDays < MaxCooldownDays
  }

  /** `time_to_failure = np.random.weibull(2) * mtbf` for every iteration. */
  function ScaleDraws(samples: seq<Sample>, mtbf: real): (draws: seq<Draw>)
    requires ValidSamples(samples) && mtbf >= 0.0
    ensures |draws| == |samples| && ValidDraws(draws)
    ensures forall k :: 0 <= k < |samples| && samples[k].weibull <= 1.0 ==> draws[k].hoursToFailure <= mtbf
  {
    seq(|samples|, k requires 0 <= k < |samples| =>
      var sk := samples[k];
      Draw(sk.weibull * mtbf, sk.typeSample, sk.severitySample, sk.cooldownDays))
  }

  /** The failure record of one loop iteration: the type is drawn with the mill's tendency-adjusted
      probabilities, the severity with the type's severity probabilities. */
  function NextFailure(millId: string, typeProbs: seq<real>, d: Draw, failureTime: real): (f: Failure)
    requires TypeDistribution(typeProbs) && ValidDraw(d)
    ensures f.millId == millId && f.time == failureTime
    ensures 1 <= f.severity <= 3
    ensures exists i :: 0 <= i < |typeProbs| && FailureTypes[i] == f.kind && typeProbs[i] > 0.0
  {
    var kind := DrawFailureType(typeProbs, d.typeSample);
    Failure(millId, failureTime, kind, DrawSeverity(kind, d.severitySample))
  }

  /** Termination measure of the scheduling loop: whole hours left before the horizon. */
  function HoursLeft(current: real, end: real): nat
  {
    if current < end then (end - current).Floor + 1 else 0
  }

  /** The failure times the loop records when it resumes at `current` with draw number `k`:
      the next failure comes `hoursToFailure` later, and is recorded only while it is still
      before `end`; the clock then moves on by the cool-down. */
  function FailureTimes(draws: seq<Draw>, k: nat, current: real, end: real): (times: seq<real>)
    requires ValidDraws(draws) && EnoughDraws(draws, k, current, end)
    ensures |times| <= |draws| - k
    decreases |draws| - k
  {
    if current >= end then []
    else
      var failureTime := current + draws[k].hoursToFailure;
      if failureTime < end then
        [failureTime] + FailureTimes(draws, k + 1, failureTime + draws[k].cooldownDays * 24.0, end)
      else []
  }

  /** Times in [start, end), each at least one shortest cool-down after the one before. */
  predicate SpacedTimes(times: seq<real>, start: real, end: real)
  {
    && (forall i :: 0 <= i < |times| ==> start <= times[i] < end)
    && (forall i :: 0 < i < |times| ==> times[i] >= times[i - 1] + MinCooldownHours)
  }

  lemma {:induction false} FailureTimesSpaced(draws: seq<Draw>, k: nat, current: real, end: real)
    requires ValidDraws(draws) && EnoughDraws(draws, k, current, end)
    ensures SpacedTimes(FailureTimes(draws, k, current, end), current, end)
    decreases |draws| - k
  {
    if current < end && current + draws[k].hoursToFailure < end {
      var failureTime := current + draws[k].hoursToFailure;
      var next := failureTime + draws[k].cooldownDays * 24.0;
      FailureTimesSpaced(draws, k + 1, next, end);
      var rest := FailureTimes(draws, k + 1, next, end);
      var times := FailureTimes(draws, k, current, end);
      assert times == [failureTime] + rest;
      forall i | 0 < i < |times|
        ensures times[i] >= times[i - 1] + MinCooldownHours
      {
        if i > 1 {
          assert times[i - 1] == rest[i - 2];
        }
      }
    }
  }

  /** The failure records built from draws number 0, 1, ... at the given failure times. */
  function Records(millId: string, typeProbs: seq<real>, draws: seq<Draw>, times: seq<real>): (failures: seq<Failure>)
    requires TypeDistribution(typeProbs) && ValidDraws(draws) && |times| <= |draws|
    ensures |failures| == |times|
  {
    seq(|times|, i requires 0 <= i < |times| => NextFailure(millId, typeProbs, draws[i], times[i]))
  }

  lemma RecordsSnoc(millId: string, typeProbs: seq<real>, draws: seq<Draw>, times: seq<real>, k: nat)
    requires TypeDistribution(typeProbs) && ValidDraws(draws) && |times| <= |draws| && k < |times|
    ensures Records(millId, typeProbs, draws, times[..k + 1])
         == Records(millId, typeProbs, draws, times[..k]) + [NextFailure(millId, typeProbs, draws[k], times[k])]
  {
  }

  /** The failure list of one mill: the i-th recorded failure is built from draw number i at
      the i-th failure time. */
  function Schedule(millId: string, typeProbs: seq<real>, draws: seq<Draw>, start: real, end: real): (failures: seq<Failure>)
    requires TypeDistribution(typeProbs) && ValidDraws(draws) && EnoughDraws(draws, 0, start, end)
    ensures |failures| <= |draws|
    ensures forall i :: 0 <= i < |failures| ==>
      failures[i].millId == millId && 1 <= failures[i].severity <= 3
  {
    Records(millId, typeProbs, draws, FailureTimes(draws, 0, start, end))
  }

  /** What the generator promises of the failure list of one mill over [start, end). */
  predicate WellFormedSchedule(failures: seq<Failure>, millId: string, start: real, end: real)
  {
    && (forall i :: 0 <= i < |failures| ==> start <= failures[i].time < end)
    && (forall i :: 0 < i < |failures| ==> failures[i].time >= failures[i - 1].time + MinCooldownHours)
    && (forall i :: 0 <= i < |failures| ==>
          && failures[i].millId == millId
          && 1 <= failures[i].severity <= 3)
  }

  /** Every failure lies in [start, end), consecutive failures are at least 7 days apart,
      and each carries the mill's id and a severity in {1, 2, 3}. */
  lemma ScheduleWellFormed(millId: string, typeProbs: seq<real>, draws: seq<Draw>, start: real, end: real)
    requires TypeDistribution(typeProbs) && ValidDraws(draws) && EnoughDraws(draws, 0, start, end)
    ensures WellFormedSchedule(Schedule(millId, typeProbs, draws, start, end), millId, start, end)
  {
    FailureTimesSpaced(draws, 0, start, end);
  }

  /** `_schedule_failures`: adjusts and normalises the failure-type weights for the mill's
      tendency, then runs the scheduling loop. `start` and `end` are the first and the last
      timestamp of the mill's series. */
  method ScheduleFailures(millId: string, tendency: string, draws: seq<Draw>,
                          start: real, end: real) returns (failures: seq<Failure>)
    requires ValidDraws(draws) && EnoughDraws(draws, 0, start, end)
    ensures failures == Schedule(millId, FailureTypeProbabilities(tendency), draws, start, end)
    ensures WellFormedSchedule(failures, millId, start, end)
  {
    var typeProbs := FailureTypeProbabilities(tendency);
    failures := RunSchedule(millId, typeProbs, draws, start, end);
  }

  /** The while loop over `current_time` of `_schedule_failures`, proved to build exactly the
      list `Schedule` describes, and hence a well-formed schedule. */
  method RunSchedule(millId: string, typeProbs: seq<real>, draws: seq<Draw>,
                     start: real, end: real) returns (failures: seq<Failure>)
    requires TypeDistribution(typeProbs) && ValidDraws(draws) && EnoughDraws(draws, 0, start, end)
    ensures failures == Schedule(millId, typeProbs, draws, start, end)
    ensures WellFormedSchedule(failures, millId, start, end)
  {
    ghost var times := FailureTimes(draws, 0, start, end);
    failures := [];
    var current := start;
    var k := 0;
    while current < end
      invariant EnoughDraws(draws, k, current, end)
      invariant k <= |times| && FailureTimes(draws, k, current, end) == times[k..]
      invariant failures == Records(millId, typeProbs, draws, times[..k])
      decreases HoursLeft(current, end)
    {
      var d := draws[k];
      var failureTime := current + d.hoursToFailure;
      if failureTime < end {
        var next := failureTime + d.cooldownDays * 24.0;
        ghost var rest := FailureTimes(draws, k + 1, next, end);
        assert times[k..] == [failureTime] + rest;
        assert times[k] == failureTime && times[k + 1..] == rest by {
          assert times[k + 1..] == times[k..][1..];
        }
        RecordsSnoc(millId, typeProbs, draws, times, k);
        var failure := NextFailure(millId, typeProbs, d, failureTime);
        failures := failures + [failure];
        current := next;
        k := k + 1;
      } else {
        break;
      }
    }
    assert times[..k] == times;
    ScheduleWellFormed(millId, typeProbs, draws, start, end);
  }
}
