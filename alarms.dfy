/** The alarm evaluator of the data collector (backend/src/services/dataCollector.js,
    `checkAlarm`): a threshold classification of each reading and the changes it makes to the
    `alarms` table, which hold at most one active row per point and alarm type. */
module Alarms {
  import opened Wrappers
  import opened Numbers
  import opened Records

  datatype AlarmType = High | Low

  /** `active` when raised, `cleared` when the value came back, `acknowledged` by an operator. */
  datatype Status = Active | Cleared | Acknowledged

  /** A row of the `alarms` table; rows are kept in insertion order. */
  datatype AlarmRow = AlarmRow(point: nat, kind: AlarmType, level: string, value: Num, threshold: real,
                               status: Status)

  /** The `alarm` event emitted with a new row. */
  datatype Fired = Fired(point: nat, pointName: string, kind: AlarmType, value: Num, threshold: real)

  /** Where a reading stands against a point's thresholds. */
  datatype Crossing = Normal | Crossed(kind: AlarmType, threshold: real)

  /** HIGH when there is a high threshold and the value is strictly above it; otherwise LOW when
      there is a low threshold and the value is strictly below it; otherwise normal. */
  function Classify(dp: DataPoint, v: Num): (c: Crossing)
    ensures c.Crossed? && c.kind == High <==> dp.alarmHigh.Some? && Above(v, dp.alarmHigh.value)
    ensures c.Crossed? && c.kind == Low <==>
      !(dp.alarmHigh.Some? && Above(v, dp.alarmHigh.value)) && dp.alarmLow.Some? && Below(v, dp.alarmLow.value)
    ensures c.Crossed? && c.kind == High ==> c.threshold == dp.alarmHigh.value
    ensures c.Crossed? && c.kind == Low ==> c.threshold == dp.alarmLow.value
  {
    if dp.alarmHigh.Some? && Above(v, dp.alarmHigh.value) then Crossed(High, dp.alarmHigh.value)
    else if dp.alarmLow.Some? && Below(v, dp.alarmLow.value) then Crossed(Low, dp.alarmLow.value)
    else Normal
  }

  /** A NaN reading crosses nothing, and a reading equal to the high threshold is not HIGH. */
  lemma ClassifyEdges(dp: DataPoint, t: real)
    ensures Classify(dp, NaN) == Normal
    ensures dp.alarmHigh == Some(t) ==> Classify(dp, Finite(t)) != Crossed(High, t)
    ensures dp.alarmLow == Some(t) && (dp.alarmHigh.None? || dp.alarmHigh.value >= t) ==>
      Classify(dp, Finite(t)) == Normal
  {
  }

  /** A reading above both thresholds (with an inverted band) is HIGH. */
  lemma HighWins(dp: DataPoint, v: Num)
    requires dp.alarmHigh.Some? && dp.alarmLow.Some?
    requires Above(v, dp.alarmHigh.value) && Below(v, dp.alarmLow.value)
    ensures Classify(dp, v) == Crossed(High, dp.alarmHigh.value)
  {
  }

  predicate IsActive(row: AlarmRow, point: nat, kind: AlarmType)
  {
    row.point == point && row.kind == kind && row.status == Active
  }

  /** The `SELECT` that looks for an active row of the point and type. */
  predicate HasActive(rows: seq<AlarmRow>, point: nat, kind: AlarmType)
  {
    exists i | 0 <= i < |rows| :: IsActive(rows[i], point, kind)
  }

  /** The table invariant: no two active rows share a point and a type. */
  predicate AtMostOneActive(rows: seq<AlarmRow>)
  {
    forall i, j | 0 <= i < j < |rows| :: !(rows[i].status == Active && IsActive(rows[j], rows[i].point, rows[i].kind))
  }

  /** The `UPDATE` that clears every active row of a point, HIGH and LOW alike. */
  function ClearActive(rows: seq<AlarmRow>, point: nat): seq<AlarmRow>
  {
    seq(|rows|, i requires 0 <= i < |rows| =>
      if rows[i].point == point && rows[i].status == Active then rows[i].(status := Cleared) else rows[i])
  }

  /** Clearing leaves no active row for the point and changes nothing else: rows of other points
      and rows in other statuses are untouched, and no row is added or removed. */
  lemma ClearActiveSpec(rows: seq<AlarmRow>, point: nat)
    ensures |ClearActive(rows, point)| == |rows|
    ensures forall kind :: !HasActive(ClearActive(rows, point), point, kind)
    ensures forall i | 0 <= i < |rows| :: rows[i].point != point || rows[i].status != Active ==>
      ClearActive(rows, point)[i] == rows[i]
    ensures forall i | 0 <= i < |rows| :: rows[i].point == point && rows[i].status == Active ==>
      ClearActive(rows, point)[i] == rows[i].(status := Cleared)
  {
  }

  /** The change `checkAlarm` makes: the new table and the event it emits, if any. */
  datatype Outcome = Outcome(rows: seq<AlarmRow>, fired: Option<Fired>)

  /** `checkAlarm` for a reading `value` (None is null). `storeOk` says whether the table
      accepts the statements of this check; when it does not, the check fails with nothing
      changed. */
  function CheckAlarm(rows: seq<AlarmRow>, dp: DataPoint, value: Option<Num>, storeOk: bool): (r: Result<Outcome>)
    ensures !dp.alarmEnabled || value.None? ==> r == Ok(Outcome(rows, None))
    ensures r.Err? <==> dp.alarmEnabled && value.Some? && !storeOk
    ensures r.Err? ==> r.error == StoreError
    ensures r.Ok? && r.value.fired.Some? ==>
      var c := Classify(dp, value.value);
      && c.Crossed? && !HasActive(rows, dp.id, c.kind)
      && r.value.rows == rows + [AlarmRow(dp.id, c.kind, "WARNING", value.value, c.threshold, Active)]
      && r.value.fired.value == Fired(dp.id, dp.name, c.kind, value.value, c.threshold)
    ensures r.Ok? && r.value.fired.None? && dp.alarmEnabled && value.Some? ==>
      var c := Classify(dp, value.value);
      && (c.Crossed? ==> HasActive(rows, dp.id, c.kind) && r.value.rows == rows)
      && (c.Normal? ==> r.value.rows == ClearActive(rows, dp.id))
  {
    if !dp.alarmEnabled || value.None? then Ok(Outcome(rows, None))
    else if !storeOk then Err(StoreError)
    else
      match Classify(dp, value.value)
      case Crossed(kind, threshold) =>
        if HasActive(rows, dp.id, kind) then Ok(Outcome(rows, None))
        else
          Ok(Outcome(rows + [AlarmRow(dp.id, kind, "WARNING", value.value, threshold, Active)],
                     Some(Fired(dp.id, dp.name, kind, value.value, threshold))))
      case Normal => Ok(Outcome(ClearActive(rows, dp.id), None))
  }

  /** Every check keeps at most one active row per point and type. */
  lemma CheckAlarmKeepsInvariant(rows: seq<AlarmRow>, dp: DataPoint, value: Option<Num>, storeOk: bool)
    requires AtMostOneActive(rows)
    requires CheckAlarm(rows, dp, value, storeOk).Ok?
    ensures AtMostOneActive(CheckAlarm(rows, dp, value, storeOk).value.rows)
  {
    var r := CheckAlarm(rows, dp, value, storeOk).value.rows;
    if dp.alarmEnabled && value.Some? {
      match Classify(dp, value.value)
      case Crossed(kind, threshold) =>
        if !HasActive(rows, dp.id, kind) {
          forall i, j | 0 <= i < j < |r|
            ensures !(r[i].status == Active && IsActive(r[j], r[i].point, r[i].kind))
          {
            if j == |rows| && r[i].status == Active && IsActive(r[j], r[i].point, r[i].kind) {
              assert IsActive(rows[i], dp.id, kind);
            }
          }
        }
      case Normal =>
        ClearActiveSpec(rows, dp.id);
    }
  }

  /** The readings of one point fed to `checkAlarm` in order, every check accepted. */
  function Feed(rows: seq<AlarmRow>, dp: DataPoint, values: seq<Num>): (r: seq<AlarmRow>)
    requires AtMostOneActive(rows)
    ensures AtMostOneActive(r)
    decreases |values|
  {
    if values == [] then rows
    else
      CheckAlarmKeepsInvariant(rows, dp, Some(values[0]), true);
      Feed(CheckAlarm(rows, dp, Some(values[0]), true).value.rows, dp, values[1..])
  }

  /** Readings 50, 150 and 160 against a high threshold of 100 raise one alarm, at 150; 90 then
      clears it. */
  lemma RepeatedCrossingRaisesOnce(dp: DataPoint)
    requires dp.alarmEnabled && dp.alarmHigh == Some(100.0) && dp.alarmLow.None?
    ensures Feed([], dp, [Finite(50.0), Finite(150.0), Finite(160.0)]) ==
      [AlarmRow(dp.id, High, "WARNING", Finite(150.0), 100.0, Active)]
    ensures Feed([], dp, [Finite(50.0), Finite(150.0), Finite(160.0), Finite(90.0)]) ==
      [AlarmRow(dp.id, High, "WARNING", Finite(150.0), 100.0, Cleared)]
  {
    var row := AlarmRow(dp.id, High, "WARNING", Finite(150.0), 100.0, Active);
    var zero := CheckAlarm([], dp, Some(Finite(50.0)), true).value.rows;
    assert zero == [];
    var one := CheckAlarm(zero, dp, Some(Finite(150.0)), true).value.rows;
    assert one == [row];
    assert HasActive(one, dp.id, High) by { assert IsActive(one[0], dp.id, High); }
    var two := CheckAlarm(one, dp, Some(Finite(160.0)), true).value.rows;
    assert two == [row];
    assert Feed([], dp, [Finite(50.0), Finite(150.0), Finite(160.0)]) == Feed(two, dp, []) by {
      assert [Finite(50.0), Finite(150.0), Finite(160.0)][1..] == [Finite(150.0), Finite(160.0)];
      assert [Finite(150.0), Finite(160.0)][1..] == [Finite(160.0)];
      assert [Finite(160.0)][1..] == [];
    }
    assert CheckAlarm(two, dp, Some(Finite(90.0)), true).value.rows == [row.(status := Cleared)];
    assert Feed([], dp, [Finite(50.0), Finite(150.0), Finite(160.0), Finite(90.0)])
        == Feed([row.(status := Cleared)], dp, []) by {
      assert [Finite(50.0), Finite(150.0), Finite(160.0), Finite(90.0)][1..]
          == [Finite(150.0), Finite(160.0), Finite(90.0)];
      assert [Finite(150.0), Finite(160.0), Finite(90.0)][1..] == [Finite(160.0), Finite(90.0)];
      assert [Finite(160.0), Finite(90.0)][1..] == [Finite(90.0)];
      assert [Finite(90.0)][1..] == [];
    }
  }

  /** A HIGH alarm stays active when the value falls straight below the low threshold: the
      reading is LOW, not normal, so nothing is cleared and a LOW alarm is raised beside it. */
  lemma HighSurvivesDropBelowLow(rows: seq<AlarmRow>, dp: DataPoint, v: real)
    requires dp.alarmEnabled && dp.alarmLow.Some? && v < dp.alarmLow.value
    requires dp.alarmHigh.Some? && dp.alarmHigh.value > dp.alarmLow.value
    requires HasActive(rows, dp.id, High)
    ensures var r := CheckAlarm(rows, dp, Some(Finite(v)), true).value.rows;
      HasActive(r, dp.id, High) && HasActive(r, dp.id, Low)
  {
    var r := CheckAlarm(rows, dp, Some(Finite(v)), true).value.rows;
    var i :| 0 <= i < |rows| && IsActive(rows[i], dp.id, High);
    assert r[i] == rows[i];
    if !HasActive(rows, dp.id, Low) {
      assert IsActive(r[|rows|], dp.id, Low);
    }
  }
}
