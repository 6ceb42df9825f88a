/**
  The crusher data script: three crushers, one row every 30 minutes from
  2023-01-01 for two years. Each row gets a shift, an operating-hours
  counter and clipped sensor columns; rows drawn as 7-day alerts get a
  failure type, mode, component and severity, and a row 12 to 95 steps
  later (clamped to the last row) is marked as the failure's occurrence,
  with the confirmed component and the affected system.

  All random values are inputs: the alert flags, and for every row the
  indices of the four choices and the occurrence offset.
 */
module Crushers {
  import opened Signals

  datatype Option<T> = None | Some(value: T)

  const NumCrushers: nat := 3

  /** `pd.date_range("2023-01-01", "2025-01-01", freq="30min", inclusive="left")`: 731 days of
      48 half-hour rows. */
  const RowsPerCrusher: nat := 731 * 48

  /** The hour of day of row `i`; the first row is at midnight. */
  function HourOfRow(i: nat): (h: nat)
    ensures h < 24 && (i / 2 - h) % 24 == 0
  {
    (i / 2) % 24
  }

  /** `turno`: "Día" from 06:00 to 17:59, "Noche" otherwise. */
  function Turno(i: nat): (t: string)
    ensures t == "Día" <==> 6 <= HourOfRow(i) < 18
    ensures t == "Día" || t == "Noche"
  {
    var h := HourOfRow(i);
    if 6 <= h && h < 18 then "Día" else "Noche"
  }

  /** `np.mod(np.arange(n) / 2, 720)`: the hours since the start, wrapped every 720 hours. */
  function OperatingHours(i: nat): (h: real)
    ensures 0.0 <= h < 720.0
    ensures h + 720.0 * (i / 1440) as real == i as real / 2.0
  {
    (i % 1440) as real / 2.0
  }

  /** The clip ranges of the twelve sensor columns, in column order: feed rate, motor current,
      motor power, oil temperature, motor temperature, main shaft temperature, cone bushing
      temperature, bowl, main shaft, mantle and pinion vibration, motor voltage. */
  const SensorRanges: seq<Range> := [
    Range(400.0, 1000.0), Range(180.0, 260.0), Range(180.0, 350.0), Range(40.0, 70.0),
    Range(40.0, 80.0), Range(45.0, 75.0), Range(40.0, 75.0), Range(0.5, 4.5),
    Range(0.5, 5.0), Range(0.5, 5.5), Range(0.5, 4.0), Range(380.0, 460.0)]

  const TipoChoices: seq<string> := ["Mecánica", "Lubricación", "Eléctrica"]
  const ModoChoices: seq<string> := ["Desgaste", "Sobrecalentamiento", "Vibración"]
  const ComponenteChoices: seq<string> := ["Forros", "Bocina", "Cojinete", "Piñón", "Tanque de aceite"]
  const SeveridadChoices: seq<int> := [1, 2, 3]

  /** The failure columns of one row. */
  datatype FaultRow = FaultRow(
    tipo: Option<string>,
    modo: Option<string>,
    componente: Option<string>,
    severidad: Option<int>,
    ocurrida: int,                       // falla_ocurrida
    confirmado: Option<string>,          // componente_falla_confirmado
    sistema: Option<string>)             // sistema_afectado

  /** The failure columns as initialised: no attributes and no occurrence. */
  const DefaultRow: FaultRow := FaultRow(None, None, None, None, 0, None, None)

  /** The random choices of one alert: indices into the four choice lists and the offset
      `np.random.randint(12, 96)`. */
  datatype AlertDraw = AlertDraw(tipo: nat, modo: nat, componente: nat, severidad: nat, offset: int)

  predicate ValidDraw(d: AlertDraw)
  {
    && d.tipo < |TipoChoices| && d.modo < |ModoChoices|
    && d.componente < |ComponenteChoices| && d.severidad < |SeveridadChoices|
    && 12 <= d.offset < 96
  }

  /** The draws of a crusher with `n` rows; draw `i` is used when row `i` is an alert. */
  predicate ValidDraws(draws: seq<AlertDraw>, n: nat)
  {
    |draws| == n && forall i :: 0 <= i < n ==> ValidDraw(draws[i])
  }

  /** `min(idx + randint(12, 96), n - 1)`: the occurrence row of the alert at `idx`. It is never
      before the alert, never past the last row, and at least 12 rows later unless clamped. */
  function Occurrence(idx: nat, offset: int, n: nat): (occ: nat)
    requires idx < n && 12 <= offset < 96
    ensures idx <= occ <= n - 1 && occ <= idx + offset
    ensures occ == n - 1 || (idx + 12 <= occ < idx + 96 && occ == idx + offset)
    ensures idx + offset <= n - 1 ==> occ == idx + offset
  {
    if idx + offset < n - 1 then idx + offset else n - 1
  }

  /** The affected system of a failure type; `None` for a type outside the choice list. */
  function Sistema(tipo: string): (s: Option<string>)
    ensures s.Some? <==> tipo in TipoChoices
  {
    if tipo == "Mecánica" then Some("Sistema mecánico")
    else if tipo == "Lubricación" then Some("Sistema de lubricación")
    else if tipo == "Eléctrica" then Some("Sistema eléctrico")
    else None
  }

  /** One iteration of the alert loop: the alert row gets its four attributes, then its
      occurrence row gets the occurrence flag, the confirmed component and the system. */
  function MarkAlert(rows: seq<FaultRow>, idx: nat, d: AlertDraw): (marked: seq<FaultRow>)
    requires idx < |rows| && ValidDraw(d)
    ensures |marked| == |rows|
  {
    var tipo := TipoChoices[d.tipo];
    var componente := ComponenteChoices[d.componente];
    var alerted := rows[idx := rows[idx].(tipo := Some(tipo), modo := Some(ModoChoices[d.modo]),
                                          componente := Some(componente),
                                          severidad := Some(SeveridadChoices[d.severidad]))];
    var occ := Occurrence(idx, d.offset, |rows|);
    alerted[occ := alerted[occ].(ocurrida := 1, confirmado := Some(componente), sistema := Sistema(tipo))]
  }

  /** The failure columns after the alert loop has visited rows 0 to `k - 1`. */
  function Marked(alerts: seq<bool>, draws: seq<AlertDraw>, k: nat): (rows: seq<FaultRow>)
    requires ValidDraws(draws, |alerts|) && k <= |alerts|
    ensures |rows| == |alerts|
  {
    if k == 0 then seq(|alerts|, _ => DefaultRow)
    else
      var prev := Marked(alerts, draws, k - 1);
      if alerts[k - 1] then MarkAlert(prev, k - 1, draws[k - 1]) else prev
  }

  /** The alert loop of one crusher, writing cell by cell into its table. */
  method MarkFailures(alerts: seq<bool>, draws: seq<AlertDraw>) returns (rows: seq<FaultRow>)
    requires ValidDraws(draws, |alerts|)
    ensures rows == Marked(alerts, draws, |alerts|)
  {
    var n := |alerts|;
    var table := new FaultRow[n](_ => DefaultRow);
    assert table[..] == Marked(alerts, draws, 0);
    for idx := 0 to n
      invariant table[..] == Marked(alerts, draws, idx)
    {
      if alerts[idx] {
        var d := draws[idx];
        var tipo := TipoChoices[d.tipo];
        var componente := ComponenteChoices[d.componente];
        table[idx] := table[idx].(tipo := Some(tipo), modo := Some(ModoChoices[d.modo]),
                                  componente := Some(componente),
                                  severidad := Some(SeveridadChoices[d.severidad]));
        var occ := Occurrence(idx, d.offset, n);
        table[occ] := table[occ].(ocurrida := 1, confirmado := Some(componente));
        table[occ] := table[occ].(sistema := Sistema(tipo));
      }
    }
    rows := table[..];
  }

  /** The alert at row `i` has its occurrence at row `j`. */
  predicate OccursAt(alerts: seq<bool>, draws: seq<AlertDraw>, i: int, j: int)
    requires ValidDraws(draws, |alerts|)
  {
    0 <= i < |alerts| && alerts[i] && Occurrence(i, draws[i].offset, |alerts|) == j
  }

  /** Every alert row visited so far carries the attributes of its own draw, taken from the
      fixed choice lists, and no other row carries any. */
  lemma {:induction false} AlertAttributes(alerts: seq<bool>, draws: seq<AlertDraw>, k: nat, j: nat)
    requires ValidDraws(draws, |alerts|) && k <= |alerts| && j < |alerts|
    ensures var r := Marked(alerts, draws, k)[j];
      && (r.tipo.Some? <==> j < k && alerts[j])
      && (r.tipo.Some? ==>
          && r.tipo == Some(TipoChoices[draws[j].tipo]) && r.tipo.value in TipoChoices
          && r.modo == Some(ModoChoices[draws[j].modo]) && r.modo.value in ModoChoices
          && r.componente == Some(ComponenteChoices[draws[j].componente]) && r.componente.value in ComponenteChoices
          && r.severidad == Some(SeveridadChoices[draws[j].severidad]) && r.severidad.value in SeveridadChoices)
      && (r.tipo.None? ==> r.modo.None? && r.componente.None? && r.severidad.None?)
    decreases k
  {
    if k > 0 {
      AlertAttributes(alerts, draws, k - 1, j);
    }
  }

  /** The alert at row `i` is the last one visited before `k` whose occurrence is row `j`. */
  predicate LastOccurrence(alerts: seq<bool>, draws: seq<AlertDraw>, k: nat, i: int, j: int)
    requires ValidDraws(draws, |alerts|)
  {
    && i < k && OccursAt(alerts, draws, i, j)
    && forall i' :: i < i' < k ==> !OccursAt(alerts, draws, i', j)
  }

  /** A row is marked as an occurrence exactly when some visited alert's occurrence is that
      row; an unmarked row keeps `None` as its confirmed component and affected system. */
  lemma {:induction false} OccurrenceFlag(alerts: seq<bool>, draws: seq<AlertDraw>, k: nat, j: nat)
    requires ValidDraws(draws, |alerts|) && k <= |alerts| && j < |alerts|
    ensures var r := Marked(alerts, draws, k)[j];
      && (r.ocurrida == 1 <==> exists i :: i < k && OccursAt(alerts, draws, i, j))
      && (r.ocurrida == 0 <==> !exists i :: i < k && OccursAt(alerts, draws, i, j))
      && (r.ocurrida == 0 ==> r.confirmado.None? && r.sistema.None?)
    decreases k
  {
    if k > 0 {
      OccurrenceFlag(alerts, draws, k - 1, j);
      var r := Marked(alerts, draws, k)[j];
      var p := Marked(alerts, draws, k - 1)[j];
      if OccursAt(alerts, draws, k - 1, j) {
        assert r.ocurrida == 1;
      } else {
        assert r.ocurrida == p.ocurrida && r.confirmado == p.confirmado && r.sistema == p.sistema;
        if exists i :: i < k && OccursAt(alerts, draws, i, j) {
          var i :| i < k && OccursAt(alerts, draws, i, j);
          assert i < k - 1;
        }
      }
    }
  }

  /** When some visited alert's occurrence is row `j`, there is a last such alert. */
  lemma {:induction false} LastOccurrenceExists(alerts: seq<bool>, draws: seq<AlertDraw>, k: nat, j: nat)
    requires ValidDraws(draws, |alerts|) && k <= |alerts|
    requires exists i :: i < k && OccursAt(alerts, draws, i, j)
    ensures exists i :: LastOccurrence(alerts, draws, k, i, j)
    decreases k
  {
    if OccursAt(alerts, draws, k - 1, j) {
      assert LastOccurrence(alerts, draws, k, k - 1, j);
    } else {
      LastOccurrenceExists(alerts, draws, k - 1, j);
      var i :| LastOccurrence(alerts, draws, k - 1, i, j);
      assert LastOccurrence(alerts, draws, k, i, j);
    }
  }

  /** The confirmed component and the affected system of an occurrence row are those of the
      last alert whose occurrence it is, and the system is one of the three. */
  lemma {:induction false} LastOccurrenceWins(alerts: seq<bool>, draws: seq<AlertDraw>, k: nat, i: nat, j: nat)
    requires ValidDraws(draws, |alerts|) && k <= |alerts| && j < |alerts|
    requires LastOccurrence(alerts, draws, k, i, j)
    ensures var r := Marked(alerts, draws, k)[j];
      && r.confirmado == Some(ComponenteChoices[draws[i].componente])
      && r.sistema == Sistema(TipoChoices[draws[i].tipo]) && r.sistema.Some?
    decreases k
  {
    var r := Marked(alerts, draws, k)[j];
    if i < k - 1 {
      assert LastOccurrence(alerts, draws, k - 1, i, j);
      LastOccurrenceWins(alerts, draws, k - 1, i, j);
      var p := Marked(alerts, draws, k - 1)[j];
      assert !OccursAt(alerts, draws, k - 1, j);
      assert r.confirmado == p.confirmado && r.sistema == p.sistema;
    } else {
      assert Marked(alerts, draws, k) == MarkAlert(Marked(alerts, draws, k - 1), i, draws[i]);
    }
  }

  /** A row that is neither an alert nor the occurrence of one keeps the default columns. */
  lemma UntouchedRowsKeepDefaults(alerts: seq<bool>, draws: seq<AlertDraw>, j: nat)
    requires ValidDraws(draws, |alerts|) && j < |alerts|
    requires !alerts[j] && forall i :: 0 <= i < |alerts| ==> !OccursAt(alerts, draws, i, j)
    ensures Marked(alerts, draws, |alerts|)[j] == DefaultRow
  {
    AlertAttributes(alerts, draws, |alerts|, j);
    OccurrenceFlag(alerts, draws, |alerts|, j);
  }

  /** The affected system of each of the three failure types. */
  lemma SistemaOfEachType()
    ensures Sistema(TipoChoices[0]) == Some("Sistema mecánico")
    ensures Sistema(TipoChoices[1]) == Some("Sistema de lubricación")
    ensures Sistema(TipoChoices[2]) == Some("Sistema eléctrico")
  {
  }

  /** The table of one crusher. */
  datatype CrusherTable = CrusherTable(
    crusherId: nat,
    turno: seq<string>,
    operatingHours: seq<real>,
    sensors: seq<seq<real>>,
    alerts: seq<bool>,            // falla_en_7d
    faults: seq<FaultRow>)

  /** The random inputs of one crusher: the raw sensor columns, the alert flags and the draws. */
  datatype CrusherInput = CrusherInput(raw: seq<seq<real>>, alerts: seq<bool>, draws: seq<AlertDraw>)

  predicate ValidInput(c: CrusherInput, n: nat)
  {
    && |c.raw| == |SensorRanges| && (forall col :: 0 <= col < |c.raw| ==> |c.raw[col]| == n)
    && |c.alerts| == n && ValidDraws(c.draws, n)
  }

  /** The table the script builds for crusher `cid` from its inputs. */
  function CrusherTableOf(cid: nat, c: CrusherInput, n: nat): (t: CrusherTable)
    requires ValidInput(c, n)
    ensures |t.turno| == n && |t.operatingHours| == n && |t.faults| == n
    ensures forall i :: 0 <= i < n ==> 0.0 <= t.operatingHours[i] < 720.0
    ensures |t.sensors| == |SensorRanges|
    ensures forall col :: 0 <= col < |t.sensors| ==> InRange(t.sensors[col], SensorRanges[col].lo, SensorRanges[col].hi)
  {
    CrusherTable(cid, seq(n, i requires 0 <= i < n => Turno(i)), seq(n, i requires 0 <= i < n => OperatingHours(i)),
                 ClipColumns(c.raw, SensorRanges), c.alerts, Marked(c.alerts, c.draws, n))
  }

  /** The script's loop over crushers 1 to 3, appending each crusher's table to `data`; every
      crusher has one row per half hour of the two years. */
  method GenerateCrusherData(inputs: seq<CrusherInput>) returns (data: seq<CrusherTable>)
    requires |inputs| == NumCrushers && forall c :: 0 <= c < |inputs| ==> ValidInput(inputs[c], RowsPerCrusher)
    ensures |data| == NumCrushers
    ensures forall c :: 0 <= c < |data| ==> data[c] == CrusherTableOf(c + 1, inputs[c], RowsPerCrusher)
  {
    var n := RowsPerCrusher;
    data := [];
    for cid := 1 to NumCrushers + 1
      invariant |data| == cid - 1
      invariant forall c :: 0 <= c < |data| ==> data[c] == CrusherTableOf(c + 1, inputs[c], RowsPerCrusher)
    {
      var input := inputs[cid - 1];
      var turno := seq(n, i requires 0 <= i < n => Turno(i));
      var hours := seq(n, i requires 0 <= i < n => OperatingHours(i));
      var sensors := ClipColumns(input.raw, SensorRanges);
      var faults := MarkFailures(input.alerts, input.draws);
      data := data + [CrusherTable(cid, turno, hours, sensors, input.alerts, faults)];
    }
  }
}
