/**
  Degradation of the ball-mill signals ahead of scheduled failures
  (`_apply_degradation_effects`) and the two piecewise-linear helpers of
  `DegradationModels` (lubrication and liner wear).

  A failure affects the rows that lie strictly between 0 and 720 hours
  (30 days) before it. A temperature signal gains a linear ramp there; a
  vibration signal is replaced by the bearing-degradation value, but only
  for the two bearing failure types. The random and transcendental parts
  (the noise factors and the bearing-degradation value itself) are inputs.
 */
module Degradation {
  import opened FailureModes
  import opened Scheduling

  /** The `signal_type` argument: only 'vibration' and 'temperature' have an effect. */
  datatype SignalType = Vibration | Temperature | OtherSignal

  /** Length of the degradation window, in hours. */
  const WindowHours: real := 720.0

  /** `time_diff`: hours from the row at time `t` to failure `f`. */
  function HoursBefore(t: real, f: Failure): real
  {
    f.time - t
  }

  /** `degradation_mask`: the row lies in the open window (0, 720) hours before `f`. */
  predicate InWindow(t: real, f: Failure)
  {
    0.0 < HoursBefore(t, f) < WindowHours
  }

  /** `2.0 * (1 - hours_to_failure / 720)`: the temperature increase `h` hours before a failure;
      it grows from 0 to 2 degrees as the failure approaches. */
  function TemperatureRamp(h: real): (r: real)
    ensures 0.0 < h < WindowHours ==> 0.0 < r < 2.0
  {
    2.0 * (1.0 - h / WindowHours)
  }

  /** The main signal of the row at time `t` after failure `f` has been applied to `value`;
      `bearingValue` is the bearing-degradation value drawn for this row and failure. */
  function Degrade(value: real, t: real, f: Failure, signal: SignalType, bearingValue: real): (r: real)
    ensures !InWindow(t, f) ==> r == value
    ensures signal == Temperature && InWindow(t, f) ==> value < r < value + 2.0
    ensures signal == Vibration && !f.kind.IsBearing() ==> r == value
    ensures signal == OtherSignal ==> r == value
  {
    if !InWindow(t, f) then value
    else if f.kind.IsBearing() && signal == Vibration then bearingValue
    else if signal == Temperature then value + TemperatureRamp(HoursBefore(t, f))
    else value
  }

  /** The second ("_v") signal of the row, which only the bearing branch changes. */
  function DegradeV(value: real, t: real, f: Failure, signal: SignalType, bearingValue: real, noise: real): (r: real)
    ensures signal != Vibration ==> r == value
    ensures !InWindow(t, f) ==> r == value
    ensures !f.kind.IsBearing() ==> r == value
  {
    if InWindow(t, f) && f.kind.IsBearing() && signal == Vibration then bearingValue * noise else value
  }

  /** The main signal of the row at time `t` once the failures are applied in list order;
      `bearing[j]` is the value drawn for failure `j`. */
  function DegradedAt(base: real, t: real, failures: seq<Failure>, signal: SignalType, bearing: seq<real>): (r: real)
    requires |bearing| == |failures|
    ensures signal == Temperature ==> r >= base
    decreases |failures|
  {
    if |failures| == 0 then base
    else
      var n := |failures| - 1;
      Degrade(DegradedAt(base, t, failures[..n], signal, bearing[..n]), t, failures[n], signal, bearing[n])
  }

  /** The second signal of the row, starting from `base * noise`. */
  function DegradedVAt(start: real, t: real, failures: seq<Failure>, signal: SignalType,
                       bearing: seq<real>, bearingNoise: seq<real>): (r: real)
    requires |bearing| == |failures| && |bearingNoise| == |failures|
    ensures signal != Vibration ==> r == start
    decreases |failures|
  {
    if |failures| == 0 then start
    else
      var n := |failures| - 1;
      DegradeV(DegradedVAt(start, t, failures[..n], signal, bearing[..n], bearingNoise[..n]),
               t, failures[n], signal, bearing[n], bearingNoise[n])
  }

  /** The row-wise draws of the degradation: for row `i`, the factor of
      `np.random.normal(0.95, 0.05)`, and per failure the bearing value and its noise factor. */
  predicate DrawsFit(n: int, failures: seq<Failure>, vNoise: seq<real>,
                     bearing: seq<seq<real>>, bearingNoise: seq<seq<real>>)
  {
    && |vNoise| == n && |bearing| == n && |bearingNoise| == n
    && (forall i :: 0 <= i < n ==> |bearing[i]| == |failures| && |bearingNoise[i]| == |failures|)
  }

  /** `_apply_degradation_effects`: copies the base signal (and a noisy copy of it), then
      applies the failures one after the other. */
  method ApplyDegradationEffects(timestamps: seq<real>, failures: seq<Failure>, base: seq<real>,
                                 signal: SignalType, vNoise: seq<real>,
                                 bearing: seq<seq<real>>, bearingNoise: seq<seq<real>>)
    returns (degraded: seq<real>, degradedV: seq<real>)
    requires |timestamps| == |base|
    requires DrawsFit(|base|, failures, vNoise, bearing, bearingNoise)
    ensures |degraded| == |base| && |degradedV| == |base|
    ensures forall i :: 0 <= i < |base| ==>
      degraded[i] == DegradedAt(base[i], timestamps[i], failures, signal, bearing[i])
    ensures forall i :: 0 <= i < |base| ==>
      degradedV[i] == DegradedVAt(base[i] * vNoise[i], timestamps[i], failures, signal, bearing[i], bearingNoise[i])
  {
    var main := new real[|base|](i requires 0 <= i < |base| => base[i]);
    var second := new real[|base|](i requires 0 <= i < |base| => base[i] * vNoise[i]);
    for j := 0 to |failures|
      invariant main != second && main.Length == second.Length == |base|
      invariant AppliedUpTo(main, second, timestamps, failures, base, signal, vNoise, bearing, bearingNoise, j)
    {
      ApplyNextFailure(main, second, timestamps, failures, base, signal, vNoise, bearing, bearingNoise, j);
    }
    forall r | 0 <= r < |base|
      ensures failures[..|failures|] == failures
      ensures bearing[r][..|failures|] == bearing[r] && bearingNoise[r][..|failures|] == bearingNoise[r]
    {
    }
    degraded := main[..];
    degradedV := second[..];
  }

  /** The arrays hold each row's two signals once failures `0 .. j - 1` have been applied. */
  predicate AppliedUpTo(main: array<real>, second: array<real>, timestamps: seq<real>, failures: seq<Failure>,
                        base: seq<real>, signal: SignalType, vNoise: seq<real>,
                        bearing: seq<seq<real>>, bearingNoise: seq<seq<real>>, j: nat)
    requires main.Length == second.Length == |base| == |timestamps| && j <= |failures|
    requires DrawsFit(|base|, failures, vNoise, bearing, bearingNoise)
    reads main, second
  {
    && (forall r :: 0 <= r < |base| ==>
          main[r] == DegradedAt(base[r], timestamps[r], failures[..j], signal, bearing[r][..j]))
    && (forall r :: 0 <= r < |base| ==>
          second[r] == DegradedVAt(base[r] * vNoise[r], timestamps[r], failures[..j], signal,
                                   bearing[r][..j], bearingNoise[r][..j]))
  }

  /** One turn of the loop over `failures`: applying failure `j` to every row. */
  method ApplyNextFailure(main: array<real>, second: array<real>, timestamps: seq<real>, failures: seq<Failure>,
                          base: seq<real>, signal: SignalType, vNoise: seq<real>,
                          bearing: seq<seq<real>>, bearingNoise: seq<seq<real>>, j: nat)
    requires main != second && main.Length == second.Length == |base| == |timestamps| && j < |failures|
    requires DrawsFit(|base|, failures, vNoise, bearing, bearingNoise)
    requires AppliedUpTo(main, second, timestamps, failures, base, signal, vNoise, bearing, bearingNoise, j)
    modifies main, second
    ensures AppliedUpTo(main, second, timestamps, failures, base, signal, vNoise, bearing, bearingNoise, j + 1)
  {
    ApplyFailure(main, second, timestamps, failures[j], signal,
                 seq(|base|, r requires 0 <= r < |base| => bearing[r][j]),
                 seq(|base|, r requires 0 <= r < |base| => bearingNoise[r][j]));
    forall r | 0 <= r < |base|
      ensures main[r] == DegradedAt(base[r], timestamps[r], failures[..j + 1], signal, bearing[r][..j + 1])
      ensures second[r] == DegradedVAt(base[r] * vNoise[r], timestamps[r], failures[..j + 1], signal,
                                       bearing[r][..j + 1], bearingNoise[r][..j + 1])
    {
      DegradedPrefixStep(base[r], base[r] * vNoise[r], timestamps[r], failures, signal, bearing[r], bearingNoise[r], j);
    }
  }

  /** Extending the prefix of applied failures by failure `j` applies that one failure to the row. */
  lemma DegradedPrefixStep(base: real, start: real, t: real, failures: seq<Failure>, signal: SignalType,
                           bearing: seq<real>, bearingNoise: seq<real>, j: nat)
    requires |bearing| == |failures| && |bearingNoise| == |failures| && j < |failures|
    ensures DegradedAt(base, t, failures[..j + 1], signal, bearing[..j + 1])
         == Degrade(DegradedAt(base, t, failures[..j], signal, bearing[..j]), t, failures[j], signal, bearing[j])
    ensures DegradedVAt(start, t, failures[..j + 1], signal, bearing[..j + 1], bearingNoise[..j + 1])
         == DegradeV(DegradedVAt(start, t, failures[..j], signal, bearing[..j], bearingNoise[..j]),
                     t, failures[j], signal, bearing[j], bearingNoise[j])
  {
    assert failures[..j + 1][..j] == failures[..j];
    assert bearing[..j + 1][..j] == bearing[..j];
    assert bearingNoise[..j + 1][..j] == bearingNoise[..j];
  }

  /** The body of the loop over `failures`: the rows in the window of `f` get the temperature
      ramp, or, for a bearing failure and a vibration signal, the bearing value. */
  method ApplyFailure(main: array<real>, second: array<real>, timestamps: seq<real>, f: Failure,
                      signal: SignalType, bearingValue: seq<real>, bearingNoise: seq<real>)
    requires main != second
    requires main.Length == second.Length == |timestamps| == |bearingValue| == |bearingNoise|
    modifies main, second
    ensures forall r :: 0 <= r < main.Length ==>
      main[r] == Degrade(old(main[r]), timestamps[r], f, signal, bearingValue[r])
    ensures forall r :: 0 <= r < second.Length ==>
      second[r] == DegradeV(old(second[r]), timestamps[r], f, signal, bearingValue[r], bearingNoise[r])
  {
    for i := 0 to main.Length
      invariant forall r :: 0 <= r < i ==>
        main[r] == Degrade(old(main[r]), timestamps[r], f, signal, bearingValue[r])
      invariant forall r :: 0 <= r < i ==>
        second[r] == DegradeV(old(second[r]), timestamps[r], f, signal, bearingValue[r], bearingNoise[r])
      invariant forall r :: i <= r < main.Length ==> main[r] == old(main[r]) && second[r] == old(second[r])
    {
      if InWindow(timestamps[i], f) {
        if f.kind.IsBearing() && signal == Vibration {
          main[i] := bearingValue[i];
          second[i] := bearingValue[i] * bearingNoise[i];
        } else if signal == Temperature {
          main[i] := main[i] + TemperatureRamp(HoursBefore(timestamps[i], f));
        }
      }
    }
  }

  /** Hours-before-failure of the rows a failure can touch form the open window (0, 720): a row
      outside the window of every failure keeps both signals. */
  lemma {:induction false} OutsideWindowsUnchanged(base: real, start: real, t: real, failures: seq<Failure>,
                                                   signal: SignalType, bearing: seq<real>, bearingNoise: seq<real>)
    requires |bearing| == |failures| && |bearingNoise| == |failures|
    requires forall j :: 0 <= j < |failures| ==> !InWindow(t, failures[j])
    ensures DegradedAt(base, t, failures, signal, bearing) == base
    ensures DegradedVAt(start, t, failures, signal, bearing, bearingNoise) == start
    decreases |failures|
  {
    if |failures| > 0 {
      var n := |failures| - 1;
      OutsideWindowsUnchanged(base, start, t, failures[..n], signal, bearing[..n], bearingNoise[..n]);
    }
  }

  /** Number of failures whose window covers the row at time `t`. */
  function Covering(t: real, failures: seq<Failure>): nat
    decreases |failures|
  {
    if |failures| == 0 then 0
    else Covering(t, failures[..|failures| - 1]) + if InWindow(t, failures[|failures| - 1]) then 1 else 0
  }

  /** The total temperature increase of the row at time `t`: one ramp per covering failure. */
  function Gain(t: real, failures: seq<Failure>): real
    decreases |failures|
  {
    if |failures| == 0 then 0.0
    else
      var f := failures[|failures| - 1];
      Gain(t, failures[..|failures| - 1]) + if InWindow(t, f) then TemperatureRamp(HoursBefore(t, f)) else 0.0
  }

  /** A temperature signal ends as its base value plus the ramps of all covering failures,
      bearing failures included. */
  lemma {:induction false} TemperatureGainsAdd(base: real, t: real, failures: seq<Failure>, bearing: seq<real>)
    requires |bearing| == |failures|
    ensures DegradedAt(base, t, failures, Temperature, bearing) == base + Gain(t, failures)
    decreases |failures|
  {
    if |failures| > 0 {
      var n := |failures| - 1;
      TemperatureGainsAdd(base, t, failures[..n], bearing[..n]);
    }
  }

  /** Each covering failure adds strictly between 0 and 2 degrees, so the gain is positive
      exactly when some failure covers the row, and below 2 degrees per covering failure. */
  lemma {:induction false} GainBounds(t: real, failures: seq<Failure>)
    ensures 0.0 <= Gain(t, failures) <= 2.0 * Covering(t, failures) as real
    ensures Gain(t, failures) == 0.0 <==> Covering(t, failures) == 0
    ensures Covering(t, failures) == 0 <==> forall j :: 0 <= j < |failures| ==> !InWindow(t, failures[j])
    decreases |failures|
  {
    if |failures| > 0 {
      var n := |failures| - 1;
      var front := failures[..n];
      GainBounds(t, front);
      if Covering(t, front) != 0 {
        var j :| 0 <= j < |front| && InWindow(t, front[j]);
        assert failures[j] == front[j];
      }
      if exists j :: 0 <= j < |failures| && InWindow(t, failures[j]) {
        var j :| 0 <= j < |failures| && InWindow(t, failures[j]);
        if j < n {
          assert front[j] == failures[j];
        }
      }
    }
  }

  /** A vibration signal is changed only by bearing failures: with no covering bearing failure
      the row keeps its value. */
  lemma {:induction false} NonBearingLeavesVibration(base: real, t: real, failures: seq<Failure>, bearing: seq<real>)
    requires |bearing| == |failures|
    requires forall j :: 0 <= j < |failures| && InWindow(t, failures[j]) ==> !failures[j].kind.IsBearing()
    ensures DegradedAt(base, t, failures, Vibration, bearing) == base
    decreases |failures|
  {
    if |failures| > 0 {
      var n := |failures| - 1;
      NonBearingLeavesVibration(base, t, failures[..n], bearing[..n]);
    }
  }

  /** Failure `j` is a bearing failure covering the row at time `t`, and no later one is. */
  predicate LastBearing(t: real, failures: seq<Failure>, j: int)
  {
    && 0 <= j < |failures| && InWindow(t, failures[j]) && failures[j].kind.IsBearing()
    && (forall k :: j < k < |failures| && InWindow(t, failures[k]) ==> !failures[k].kind.IsBearing())
  }

  /** When some bearing failure covers the row, there is a last one in list order. */
  lemma {:induction false} LastBearingExists(t: real, failures: seq<Failure>)
    requires exists j :: 0 <= j < |failures| && InWindow(t, failures[j]) && failures[j].kind.IsBearing()
    ensures exists j :: LastBearing(t, failures, j)
    decreases |failures|
  {
    var n := |failures| - 1;
    if InWindow(t, failures[n]) && failures[n].kind.IsBearing() {
      assert LastBearing(t, failures, n);
    } else {
      var front := failures[..n];
      var j :| 0 <= j < |failures| && InWindow(t, failures[j]) && failures[j].kind.IsBearing();
      assert front[j] == failures[j];
      LastBearingExists(t, front);
      var i :| LastBearing(t, front, i);
      assert failures[i] == front[i];
      forall k | i < k < |failures| && InWindow(t, failures[k])
        ensures !failures[k].kind.IsBearing()
      {
        if k < n {
          assert failures[k] == front[k];
        }
      }
      assert LastBearing(t, failures, i);
    }
  }

  /** A last covering bearing failure of the whole list that is not the final failure is also
      the last one of the list without its final failure. */
  lemma LastBearingOfFront(t: real, failures: seq<Failure>, j: int)
    requires LastBearing(t, failures, j) && j < |failures| - 1
    ensures LastBearing(t, failures[..|failures| - 1], j)
  {
    var front := failures[..|failures| - 1];
    assert front[j] == failures[j];
    forall k | j < k < |front| && InWindow(t, front[k])
      ensures !front[k].kind.IsBearing()
    {
      assert front[k] == failures[k];
    }
  }

  /** Both vibration signals of a row hold the values drawn for the last covering bearing
      failure in list order. */
  lemma {:induction false} LastBearingWins(base: real, start: real, t: real, failures: seq<Failure>,
                                           bearing: seq<real>, bearingNoise: seq<real>, j: int)
    requires |bearing| == |failures| && |bearingNoise| == |failures|
    requires LastBearing(t, failures, j)
    ensures DegradedAt(base, t, failures, Vibration, bearing) == bearing[j]
    ensures DegradedVAt(start, t, failures, Vibration, bearing, bearingNoise) == bearing[j] * bearingNoise[j]
    decreases |failures|
  {
    var n := |failures| - 1;
    if j < n {
      LastBearingOfFront(t, failures, j);
      LastBearingWins(base, start, t, failures[..n], bearing[..n], bearingNoise[..n], j);
    }
  }

  /** Only a vibration signal's second copy is ever changed; for any other signal type it keeps
      its starting value, and a signal that is neither vibration nor temperature is not changed
      at all. */
  lemma {:induction false} OnlyVibrationChangesSecond(base: real, start: real, t: real, failures: seq<Failure>,
                                                      signal: SignalType, bearing: seq<real>, bearingNoise: seq<real>)
    requires |bearing| == |failures| && |bearingNoise| == |failures|
    requires signal != Vibration
    ensures DegradedVAt(start, t, failures, signal, bearing, bearingNoise) == start
    ensures signal == OtherSignal ==> DegradedAt(base, t, failures, signal, bearing) == base
    decreases |failures|
  {
    if |failures| > 0 {
      var n := |failures| - 1;
      OnlyVibrationChangesSecond(base, start, t, failures[..n], signal, bearing[..n], bearingNoise[..n]);
    }
  }

  /** `min(hours_since_change / 8760, 1.0)`: oil degradation normalised to one year. */
  function OilDegradation(hoursSinceChange: real): (d: real)
    ensures d <= 1.0
    ensures hoursSinceChange >= 0.0 ==> d >= 0.0
    ensures d == 1.0 <==> hoursSinceChange >= 8760.0
  {
    var d := hoursSinceChange / 8760.0;
    if d < 1.0 then d else 1.0
  }

  /** `generate_lubrication_degradation`: the base temperature plus 5 degrees per unit of oil
      degradation and 10 per unit of the quality factor `(1 - oil_quality / 100) * 2`. For a
      quality in [0, 100] and a non-negative age the increase lies in [0, 25] degrees. */
  function LubricationDegradation(baseTemp: real, oilQuality: real, hoursSinceChange: real): (temp: real)
    ensures hoursSinceChange >= 0.0 && 0.0 <= oilQuality <= 100.0 ==> baseTemp <= temp <= baseTemp + 25.0
    ensures oilQuality == 100.0 && hoursSinceChange >= 8760.0 ==> temp == baseTemp + 5.0
  {
    var qualityFactor := (1.0 - oilQuality / 100.0) * 2.0;
    baseTemp + 5.0 * OilDegradation(hoursSinceChange) + 10.0 * qualityFactor
  }

  /** `1.0 + (wear_percentage / 100) * 0.15`: up to 15% more power for fully worn liners. */
  function WearFactor(wearPercentage: real): (f: real)
    ensures 0.0 <= wearPercentage <= 100.0 ==> 1.0 <= f <= 1.15
    ensures wearPercentage == 100.0 ==> f == 1.15
  {
    1.0 + (wearPercentage / 100.0) * 0.15
  }

  /** `generate_liner_wear_effect`: the base power scaled by the wear factor, so a non-negative
      power grows by at most 15%. */
  function LinerWearEffect(basePower: real, wearPercentage: real): (power: real)
    ensures basePower >= 0.0 && 0.0 <= wearPercentage <= 100.0 ==> basePower <= power <= basePower * 1.15
  {
    var f := WearFactor(wearPercentage);
    assert basePower >= 0.0 && 0.0 <= wearPercentage <= 100.0 ==> basePower * 1.0 <= basePower * f <= basePower * 1.15;
    basePower * f
  }
}
