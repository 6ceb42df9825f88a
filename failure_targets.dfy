/**
  The prediction targets of the ball-mill data (`_generate_failure_targets`):
  every row starts with the default labels, then each scheduled failure, in
  list order, marks the rows whose time lies 0 to 7, 14 or 30 days before it.
  Inside the 30-day window the failure also writes its type and severity and
  lowers the days-to-failure to its own distance if that is smaller.

  Row times and failure times are hours from the start of the simulation.
 */
module FailureTargets {
  import opened FailureModes
  import opened Scheduling

  /** The six target columns of one row. */
  datatype Targets = Targets(
    in7d: bool,            // falla_en_7d
    in14d: bool,           // falla_en_14d
    in30d: bool,           // falla_en_30d
    kind: string,          // tipo_falla
    severity: int,         // severidad_falla
    daysToFailure: real    // dias_hasta_falla
  )

  /** The labels of a row no failure has marked. */
  const Defaults: Targets := Targets(false, false, false, "normal", 0, 365.0)

  /** `(failure_time - timestamp)` in days. */
  function DaysBefore(t: real, f: Failure): real
  {
    (f.time - t) / 24.0
  }

  /** The row at time `t` lies in the window (0, `days`] days before failure `f`. */
  predicate Within(t: real, f: Failure, days: real)
  {
    0.0 < DaysBefore(t, f) <= days
  }

  /** The labels of the row at time `t` after failure `f` has been applied to `row`. */
  function Mark(row: Targets, t: real, f: Failure): (r: Targets)
    ensures !Within(t, f, 30.0) ==> r == row
    ensures Within(t, f, 30.0) ==>
      && r.in30d && r.kind == f.kind.Name() && r.severity == f.severity
      && r.daysToFailure <= row.daysToFailure && r.daysToFailure <= DaysBefore(t, f)
      && (r.daysToFailure == row.daysToFailure || r.daysToFailure == DaysBefore(t, f))
  {
    var d := DaysBefore(t, f);
    Targets(
      row.in7d || Within(t, f, 7.0),
      row.in14d || Within(t, f, 14.0),
      row.in30d || Within(t, f, 30.0),
      if Within(t, f, 30.0) then f.kind.Name() else row.kind,
      if Within(t, f, 30.0) then f.severity else row.severity,
      if Within(t, f, 30.0) && d < row.daysToFailure then d else row.daysToFailure)
  }

  /** The labels of the row at time `t` once the failures are applied in list order. */
  function LabelsAt(t: real, failures: seq<Failure>): (r: Targets)
    ensures r.in30d || r == Defaults
    decreases |failures|
  {
    if |failures| == 0 then Defaults
    else Mark(LabelsAt(t, failures[..|failures| - 1]), t, failures[|failures| - 1])
  }

  /** `_generate_failure_targets`: writes the defaults into every row, then for each failure
      updates, column by column, the rows its windows select. */
  method GenerateFailureTargets(timestamps: seq<real>, labels: array<Targets>, failures: seq<Failure>)
    requires labels.Length == |timestamps|
    modifies labels
    ensures forall i :: 0 <= i < labels.Length ==> labels[i] == LabelsAt(timestamps[i], failures)
  {
    for i := 0 to labels.Length
      invariant forall r :: 0 <= r < i ==> labels[r] == Defaults
    {
      labels[i] := Defaults;
    }
    for j := 0 to |failures|
      invariant forall r :: 0 <= r < labels.Length ==> labels[r] == LabelsAt(timestamps[r], failures[..j])
    {
      MarkRows(timestamps, labels, failures[j]);
      assert failures[..j + 1][..j] == failures[..j];
    }
    assert failures[..|failures|] == failures;
  }

  /** The body of the loop over `failures`: the `.loc` updates of the rows that the windows of
      failure `f` select. */
  method MarkRows(timestamps: seq<real>, labels: array<Targets>, f: Failure)
    requires labels.Length == |timestamps|
    modifies labels
    ensures forall r :: 0 <= r < labels.Length ==> labels[r] == Mark(old(labels[r]), timestamps[r], f)
  {
    for i := 0 to labels.Length
      invariant forall r :: 0 <= r < i ==> labels[r] == Mark(old(labels[r]), timestamps[r], f)
      invariant forall r :: i <= r < labels.Length ==> labels[r] == old(labels[r])
    {
      labels[i] := MarkRow(labels[i], timestamps[i], f);
    }
  }

  /** The column-by-column updates of one row: the three window flags, then, inside the 30-day
      window, the type, the severity and the running minimum of the days to failure. */
  method MarkRow(row: Targets, t: real, f: Failure) returns (marked: Targets)
    ensures marked == Mark(row, t, f)
  {
    var days := DaysBefore(t, f);
    marked := row;
    if Within(t, f, 7.0) {
      marked := marked.(in7d := true);
    }
    if Within(t, f, 14.0) {
      marked := marked.(in14d := true);
    }
    if Within(t, f, 30.0) {
      marked := marked.(in30d := true, kind := f.kind.Name(), severity := f.severity);
      if days < marked.daysToFailure {
        marked := marked.(daysToFailure := days);
      }
    }
  }

  /** The windows are nested: a 7-day label implies the 14-day one, which implies the 30-day one. */
  lemma {:induction false} LabelsNested(t: real, failures: seq<Failure>)
    ensures LabelsAt(t, failures).in7d ==> LabelsAt(t, failures).in14d
    ensures LabelsAt(t, failures).in14d ==> LabelsAt(t, failures).in30d
    decreases |failures|
  {
    if |failures| > 0 {
      LabelsNested(t, failures[..|failures| - 1]);
    }
  }

  /** A window label is set exactly when some failure's window of that width covers the row. */
  lemma {:induction false} LabelsCovered(t: real, failures: seq<Failure>)
    ensures LabelsAt(t, failures).in7d <==> exists i :: 0 <= i < |failures| && Within(t, failures[i], 7.0)
    ensures LabelsAt(t, failures).in14d <==> exists i :: 0 <= i < |failures| && Within(t, failures[i], 14.0)
    ensures LabelsAt(t, failures).in30d <==> exists i :: 0 <= i < |failures| && Within(t, failures[i], 30.0)
    decreases |failures|
  {
    if |failures| > 0 {
      var n := |failures| - 1;
      var front := failures[..n];
      LabelsCovered(t, front);
      forall days: real
        ensures (exists i :: 0 <= i < |failures| && Within(t, failures[i], days))
            <==> (exists i :: 0 <= i < |front| && Within(t, front[i], days)) || Within(t, failures[n], days)
      {
        if exists i :: 0 <= i < |failures| && Within(t, failures[i], days) {
          var i :| 0 <= i < |failures| && Within(t, failures[i], days);
          if i < n {
            assert front[i] == failures[i];
          }
        }
        if exists i :: 0 <= i < |front| && Within(t, front[i], days) {
          var i :| 0 <= i < |front| && Within(t, front[i], days);
          assert failures[i] == front[i];
        }
      }
    }
  }

  /** A row that no failure's 30-day window covers keeps every default label. */
  lemma {:induction false} UncoveredKeepsDefaults(t: real, failures: seq<Failure>)
    requires forall i :: 0 <= i < |failures| ==> !Within(t, failures[i], 30.0)
    ensures LabelsAt(t, failures) == Defaults
    decreases |failures|
  {
    if |failures| > 0 {
      UncoveredKeepsDefaults(t, failures[..|failures| - 1]);
    }
  }

  /** On a covered row, the days-to-failure is the smallest distance of a covering failure, so it
      lies in (0, 30]; on an uncovered row it is the default 365. */
  lemma {:induction false} DaysIsMinimum(t: real, failures: seq<Failure>)
    ensures var r := LabelsAt(t, failures);
      && (forall i :: 0 <= i < |failures| && Within(t, failures[i], 30.0) ==> r.daysToFailure <= DaysBefore(t, failures[i]))
      && (r.in30d ==> exists i :: 0 <= i < |failures| && Within(t, failures[i], 30.0) && r.daysToFailure == DaysBefore(t, failures[i]))
      && (r.in30d ==> 0.0 < r.daysToFailure <= 30.0)
      && (!r.in30d ==> r.daysToFailure == 365.0)
    decreases |failures|
  {
    if |failures| > 0 {
      var n := |failures| - 1;
      var front := failures[..n];
      DaysIsMinimum(t, front);
      LabelsCovered(t, front);
      var r := LabelsAt(t, failures);
      var p := LabelsAt(t, front);
      forall i | 0 <= i < |failures| && Within(t, failures[i], 30.0)
        ensures r.daysToFailure <= DaysBefore(t, failures[i])
      {
        if i < n {
          assert failures[i] == front[i];
        }
      }
      if r.in30d && !(Within(t, failures[n], 30.0) && DaysBefore(t, failures[n]) < p.daysToFailure) {
        var i :| 0 <= i < |front| && Within(t, front[i], 30.0) && p.daysToFailure == DaysBefore(t, front[i]);
        assert failures[i] == front[i];
      }
    }
  }

  /** Failure `i` is the last one in list order whose 30-day window covers the row at `t`. */
  predicate LastCovering(t: real, failures: seq<Failure>, i: int)
  {
    && 0 <= i < |failures| && Within(t, failures[i], 30.0)
    && forall j :: i < j < |failures| ==> !Within(t, failures[j], 30.0)
  }

  /** When some failure's 30-day window covers the row, there is a last one in list order. */
  lemma {:induction false} LastCoveringExists(t: real, failures: seq<Failure>)
    requires exists i :: 0 <= i < |failures| && Within(t, failures[i], 30.0)
    ensures exists i :: LastCovering(t, failures, i)
    decreases |failures|
  {
    var n := |failures| - 1;
    if Within(t, failures[n], 30.0) {
      assert LastCovering(t, failures, n);
    } else {
      var front := failures[..n];
      var k :| 0 <= k < |failures| && Within(t, failures[k], 30.0);
      assert front[k] == failures[k];
      LastCoveringExists(t, front);
      var i :| LastCovering(t, front, i);
      assert failures[i] == front[i];
      forall j | i < j < |failures|
        ensures !Within(t, failures[j], 30.0)
      {
        if j < n {
          assert failures[j] == front[j];
        }
      }
      assert LastCovering(t, failures, i);
    }
  }

  /** A last covering failure that is not the final failure is also the last covering one of the
      list without its final failure. */
  lemma LastCoveringOfFront(t: real, failures: seq<Failure>, i: int)
    requires LastCovering(t, failures, i) && i < |failures| - 1
    ensures LastCovering(t, failures[..|failures| - 1], i)
  {
    var front := failures[..|failures| - 1];
    assert front[i] == failures[i];
    forall j | i < j < |front|
      ensures !Within(t, front[j], 30.0)
    {
      assert front[j] == failures[j];
    }
  }

  /** On a covered row, the type and the severity are those of the last failure in list order
      whose 30-day window covers it. */
  lemma {:induction false} KindFromLastCovering(t: real, failures: seq<Failure>, i: int)
    requires LastCovering(t, failures, i)
    ensures LabelsAt(t, failures).in30d
    ensures LabelsAt(t, failures).kind == failures[i].kind.Name()
    ensures LabelsAt(t, failures).severity == failures[i].severity
    decreases |failures|
  {
    var n := |failures| - 1;
    if i < n {
      LastCoveringOfFront(t, failures, i);
      KindFromLastCovering(t, failures[..n], i);
    }
  }

  /** A row at or after a failure's time is never marked by that failure: wherever `f` stands
      in the list, the row's labels are those of the list without it. */
  lemma {:induction false} PastFailureIgnored(t: real, before: seq<Failure>, f: Failure, after: seq<Failure>)
    requires t >= f.time
    ensures LabelsAt(t, before + [f] + after) == LabelsAt(t, before + after)
    decreases |after|
  {
    if |after| == 0 {
      assert before + [f] + after == before + [f];
      assert (before + [f])[..|before|] == before;
      assert before + after == before;
    } else {
      var n := |after| - 1;
      PastFailureIgnored(t, before, f, after[..n]);
      assert (before + [f] + after)[..|before + [f] + after| - 1] == before + [f] + after[..n];
      assert (before + after)[..|before + after| - 1] == before + after[..n];
    }
  }
}
