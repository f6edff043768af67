/** The data collector (backend/src/services/dataCollector.js): a running flag with its timer,
    and the collection pass that polls every enabled point of every enabled device, stores the
    sample in the history table, checks it against the point's alarm thresholds and announces it.
    The SQLite tables are sequences of rows held by the collector; what the database, the clock and
    the field devices answer during a pass is a parameter (`Field`). */
module Collector {
  import opened Wrappers
  import opened Numbers
  import opened Records
  import opened Codec
  import opened Alarms
  import opened Devices

  /** The history retention, at its default. */
  const RetentionDays := 90
  const DayMs := 86_400_000

  /** A row of the `history_data` table. */
  datatype HistoryRow = HistoryRow(point: nat, value: Num, quality: nat, timestamp: int)

  /** An event the collector emits. */
  datatype Event =
    | Data(deviceId: nat, deviceName: string, pointId: nat, pointName: string, sample: Sample)
    | Alarm(fired: Fired)

  /** What the outside world answers during one pass: the enabled devices (or the failure of
      that query), whether a device's link comes up, the enabled points of a device, what the
      far end holds for a point, whether the store accepts a point's history insert, its
      retention sweep and its alarm statements, and the clock. */
  datatype Field = Field(
    enabledDevices: Result<seq<Device>>,
    linkOk: nat -> bool,
    points: nat -> Result<seq<DataPoint>>,
    link: nat -> Link,
    insertOk: nat -> bool,
    sweepOk: nat -> bool,
    alarmStoreOk: nat -> bool,
    now: int)

  /** The timestamp before which `cleanOldData` deletes history: `retentionDays` days ago. */
  function Cutoff(now: int): (c: int)
    ensures c < now
  {
    now - RetentionDays * DayMs
  }

  /** The rows the retention sweep keeps: exactly those not strictly older than the cutoff, in
      their order. */
  function KeepRecent(h: seq<HistoryRow>, cutoff: int): (r: seq<HistoryRow>)
    ensures |r| <= |h|
    ensures forall row :: row in r <==> row in h && row.timestamp >= cutoff
    ensures forall row :: multiset(r)[row] == if row.timestamp >= cutoff then multiset(h)[row] else 0
  {
    if h == [] then []
    else
      assert h == [h[0]] + h[1..];
      if h[0].timestamp < cutoff then KeepRecent(h[1..], cutoff)
      else [h[0]] + KeepRecent(h[1..], cutoff)
  }

  /** The sweep works row by row: on a concatenation it sweeps each part, and the kept rows stay
      in their order. */
  lemma {:induction false} KeepRecentAppend(a: seq<HistoryRow>, b: seq<HistoryRow>, cutoff: int)
    ensures KeepRecent(a + b, cutoff) == KeepRecent(a, cutoff) + KeepRecent(b, cutoff)
    decreases |a|
  {
    if a != [] {
      assert (a + b)[1..] == a[1..] + b;
      KeepRecentAppend(a[1..], b, cutoff);
    } else {
      assert a + b == b;
    }
  }

  /** The retention window is exactly 90 days: a row stamped 90 days before `now` survives the
      sweep with all its copies, and a row stamped one millisecond earlier is removed. */
  lemma RetentionBoundary(h: seq<HistoryRow>, now: int, row: HistoryRow)
    ensures row.timestamp == now - 7_776_000_000 ==> multiset(KeepRecent(h, Cutoff(now)))[row] == multiset(h)[row]
    ensures row.timestamp == now - 7_776_000_001 ==> multiset(KeepRecent(h, Cutoff(now)))[row] == 0
  {
  }

  /** Sweeping keeps everything when nothing is old, and sweeping twice is sweeping once. */
  lemma {:induction false} KeepRecentIdempotent(h: seq<HistoryRow>, cutoff: int)
    ensures (forall i | 0 <= i < |h| :: h[i].timestamp >= cutoff) ==> KeepRecent(h, cutoff) == h
    ensures KeepRecent(KeepRecent(h, cutoff), cutoff) == KeepRecent(h, cutoff)
  {
    if h != [] {
      KeepRecentIdempotent(h[1..], cutoff);
      if h[0].timestamp >= cutoff {
        assert ([h[0]] + KeepRecent(h[1..], cutoff))[1..] == KeepRecent(h[1..], cutoff);
      }
    }
  }

  /** Whether a sample can be stored: the `value` column is `REAL NOT NULL`, so null, and NaN,
      which SQLite binds as null, are refused. */
  predicate Storable(s: Sample)
  {
    s.value.Some? && !s.value.value.NaN?
  }

  /** `saveHistoryData` and the `cleanOldData` it triggers: a refused insert changes nothing and
      skips the sweep; otherwise the row is appended and, if the sweep runs, old rows go. */
  function SaveHistory(h: seq<HistoryRow>, point: nat, s: Sample, insertOk: bool, sweepOk: bool, now: int)
    : (r: seq<HistoryRow>)
    ensures !Storable(s) || !insertOk ==> r == h
    ensures Storable(s) && insertOk && !sweepOk ==>
      r == h + [HistoryRow(point, s.value.value, s.quality, s.timestamp)]
    ensures Storable(s) && insertOk && sweepOk ==>
      forall row :: row in r <==>
        (row in h || row == HistoryRow(point, s.value.value, s.quality, s.timestamp)) && row.timestamp >= Cutoff(now)
    ensures Storable(s) && insertOk && sweepOk ==>
      var added := HistoryRow(point, s.value.value, s.quality, s.timestamp);
      r == KeepRecent(h, Cutoff(now)) + (if s.timestamp >= Cutoff(now) then [added] else [])
  {
    if !Storable(s) || !insertOk then h
    else
      var added := HistoryRow(point, s.value.value, s.quality, s.timestamp);
      var h1 := h + [added];
      if sweepOk then
        KeepRecentAppend(h, [added], Cutoff(now));
        assert [added][1..] == [];
        KeepRecent(h1, Cutoff(now))
      else h1
  }

  /** Every stored row came from a good reading. */
  predicate OnlyGood(h: seq<HistoryRow>)
  {
    forall i | 0 <= i < |h| :: h[i].quality == 1 && !h[i].value.NaN?
  }

  /** Quality-0 samples never reach the history table. */
  lemma SaveHistoryOnlyGood(h: seq<HistoryRow>, point: nat, s: Sample, insertOk: bool, sweepOk: bool, now: int)
    requires OnlyGood(h) && WellFormed(s)
    ensures OnlyGood(SaveHistory(h, point, s, insertOk, sweepOk, now))
  {
    var r := SaveHistory(h, point, s, insertOk, sweepOk, now);
    forall i | 0 <= i < |r|
      ensures r[i].quality == 1 && !r[i].value.NaN?
    {
      assert r[i] in r;
    }
  }

  /** The state a pass works on: the device manager's registry and the three tables the
      collector writes (the event list stands for what was emitted, in order). */
  datatype Tables = Tables(registry: map<nat, Device>, history: seq<HistoryRow>, alarms: seq<AlarmRow>,
                           events: seq<Event>)

  /** The events `checkAlarm` and the data emission add for a point. */
  function Emitted(fired: Option<Fired>, d: Device, dp: DataPoint, s: Sample): seq<Event>
  {
    (if fired.Some? then [Alarm(fired.value)] else []) + [Data(d.id, d.name, dp.id, dp.name, s)]
  }

  /** One point of a pass: read, then record. A failed read is a quality-0 sample and is
      recorded like any other. */
  function PointStep(t: Tables, d: Device, dp: DataPoint, f: Field): Tables
  {
    match ReadSpec(t.registry, d.id, dp, f.link(dp.id), f.now)
    case Err(_) => t
    case Ok(s) => Recorded(t, d, dp, s, f)
  }

  /** Recording a sample: store it, check it against the alarm thresholds, announce it. A failed
      alarm statement ends the point before its data event. */
  function Recorded(t: Tables, d: Device, dp: DataPoint, s: Sample, f: Field): Tables
  {
    var h := SaveHistory(t.history, dp.id, s, f.insertOk(dp.id), f.sweepOk(dp.id), f.now);
    match CheckAlarm(t.alarms, dp, s.value, f.alarmStoreOk(dp.id))
    case Err(_) => t.(history := h)
    case Ok(o) => t.(history := h, alarms := o.rows, events := t.events + Emitted(o.fired, d, dp, s))
  }

  /** The points of a device, in order. */
  function PointsPass(t: Tables, d: Device, dps: seq<DataPoint>, f: Field): Tables
    decreases |dps|
  {
    if dps == [] then t else PointsPass(PointStep(t, d, dps[0], f), d, dps[1..], f)
  }

  /** One device of a pass and whether the pass goes on: a device that is not connected and
      fails to connect is skipped; a failed points query ends the pass. */
  function DeviceStep(t: Tables, d: Device, f: Field, snap7Installed: bool): (Tables, bool)
  {
    if d.id !in t.registry && ConnectOutcome(d, snap7Installed, f.linkOk(d.id)).Err? then (t, true)
    else
      var t1 := if d.id in t.registry then t else t.(registry := t.registry[d.id := d]);
      match f.points(d.id)
      case Err(_) => (t1, false)
      case Ok(dps) => (PointsPass(t1, d, dps, f), true)
  }

  /** The devices of a pass, in order, until one ends it. */
  function DevicesPass(t: Tables, ds: seq<Device>, f: Field, snap7Installed: bool): Tables
    decreases |ds|
  {
    if ds == [] then t
    else
      var (t1, go) := DeviceStep(t, ds[0], f, snap7Installed);
      if go then DevicesPass(t1, ds[1..], f, snap7Installed) else t1
  }

  /** `collectData`: a failed device query ends the pass before anything happens. */
  function Pass(t: Tables, f: Field, snap7Installed: bool): Tables
  {
    if f.enabledDevices.Err? then t else DevicesPass(t, f.enabledDevices.value, f, snap7Installed)
  }

  /** What a pass keeps true of the tables it works on: at most one active alarm per point and
      type, and good readings only in the history. (That a pass never unregisters a device is
      stated separately, by `DevicesPassSound`.) */
  predicate Sound(t: Tables)
  {
    AtMostOneActive(t.alarms) && OnlyGood(t.history)
  }

  lemma PointStepSound(t: Tables, d: Device, dp: DataPoint, f: Field)
    requires Sound(t)
    ensures Sound(PointStep(t, d, dp, f)) && PointStep(t, d, dp, f).registry == t.registry
  {
    match ReadSpec(t.registry, d.id, dp, f.link(dp.id), f.now)
    case Err(_) =>
    case Ok(s) =>
      SaveHistoryOnlyGood(t.history, dp.id, s, f.insertOk(dp.id), f.sweepOk(dp.id), f.now);
      if CheckAlarm(t.alarms, dp, s.value, f.alarmStoreOk(dp.id)).Ok? {
        CheckAlarmKeepsInvariant(t.alarms, dp, s.value, f.alarmStoreOk(dp.id));
      }
  }

  lemma {:induction false} PointsPassSound(t: Tables, d: Device, dps: seq<DataPoint>, f: Field)
    requires Sound(t)
    ensures Sound(PointsPass(t, d, dps, f)) && PointsPass(t, d, dps, f).registry == t.registry
    decreases |dps|
  {
    if dps != [] {
      PointStepSound(t, d, dps[0], f);
      PointsPassSound(PointStep(t, d, dps[0], f), d, dps[1..], f);
    }
  }

  /** A whole pass keeps the tables sound and only adds to the registry. */
  lemma {:induction false} DevicesPassSound(t: Tables, ds: seq<Device>, f: Field, snap7Installed: bool)
    requires Sound(t)
    ensures Sound(DevicesPass(t, ds, f, snap7Installed))
    ensures t.registry.Keys <= DevicesPass(t, ds, f, snap7Installed).registry.Keys
    decreases |ds|
  {
    if ds != [] {
      var d := ds[0];
      var (t1, go) := DeviceStep(t, d, f, snap7Installed);
      if !(d.id !in t.registry && ConnectOutcome(d, snap7Installed, f.linkOk(d.id)).Err?) {
        var t0 := if d.id in t.registry then t else t.(registry := t.registry[d.id := d]);
        if f.points(d.id).Ok? {
          PointsPassSound(t0, d, f.points(d.id).value, f);
        }
      }
      if go {
        DevicesPassSound(t1, ds[1..], f, snap7Installed);
      }
    }
  }

  /** A device that is not connected and cannot be connected contributes nothing to the pass:
      the pass goes on with the next device from the same state. */
  lemma SkippedDevice(t: Tables, ds: seq<Device>, f: Field, snap7Installed: bool)
    requires ds != [] && ds[0].id !in t.registry
    requires ConnectOutcome(ds[0], snap7Installed, f.linkOk(ds[0].id)).Err?
    ensures DevicesPass(t, ds, f, snap7Installed) == DevicesPass(t, ds[1..], f, snap7Installed)
  {
  }

  /** A point whose alarm statements are accepted always announces its sample, even a
      quality-0 one, after any alarm event; its history row is written first. */
  lemma PointAnnounced(t: Tables, d: Device, dp: DataPoint, f: Field)
    requires d.id in t.registry && f.alarmStoreOk(dp.id)
    ensures var s := ReadSpec(t.registry, d.id, dp, f.link(dp.id), f.now).value;
      var r := PointStep(t, d, dp, f);
      && |r.events| > |t.events| && r.events[..|t.events|] == t.events
      && r.events[|r.events| - 1] == Data(d.id, d.name, dp.id, dp.name, s)
      && r.history == SaveHistory(t.history, dp.id, s, f.insertOk(dp.id), f.sweepOk(dp.id), f.now)
  {
    var s := ReadSpec(t.registry, d.id, dp, f.link(dp.id), f.now).value;
    var o := CheckAlarm(t.alarms, dp, s.value, true).value;
    assert PointStep(t, d, dp, f).events == t.events + Emitted(o.fired, d, dp, s);
  }

  class DataCollector {
    const dm: DeviceManager
    var isRunning: bool
    /** Whether the `setInterval` timer is armed (`collectionInterval` is not null). */
    var timerArmed: bool
    var history: seq<HistoryRow>
    var alarms: seq<AlarmRow>
    var events: seq<Event>

    ghost predicate Valid()
      reads this, dm, dm.Repr
    {
      dm.Valid() && this !in dm.Repr && Sound(State())
    }

    /** The tables a pass works on, as they stand. */
    function State(): Tables
      reads this, dm
    {
      Tables(dm.devices, history, alarms, events)
    }

    constructor(dm: DeviceManager)
      requires dm.Valid()
      ensures this.dm == dm && Valid()
      ensures !isRunning && !timerArmed && history == [] && alarms == [] && events == []
    {
      this.dm := dm;
      isRunning := false;
      timerArmed := false;
      history := [];
      alarms := [];
      events := [];
    }

    /** `start`: a no-op while running; otherwise sets the flag, arms the timer and runs one pass
        at once. */
    method Start(f: Field)
      requires Valid()
      modifies this, dm, dm.Repr
      ensures Valid() && fresh(dm.Repr - old(dm.Repr))
      ensures old(isRunning) ==> isRunning && timerArmed == old(timerArmed) && State() == old(State())
      ensures !old(isRunning) ==> isRunning && timerArmed && State() == Pass(old(State()), f, dm.snap7Installed)
    {
      if isRunning {
        return;
      }
      isRunning := true;
      timerArmed := true;
      CollectData(f);
    }

    /** `stop`: disarms the timer and clears the flag; the tables are untouched, so stopping
        twice is stopping once. */
    method Stop()
      modifies this
      ensures !isRunning && !timerArmed
      ensures history == old(history) && alarms == old(alarms) && events == old(events)
    {
      if timerArmed {
        timerArmed := false;
      }
      isRunning := false;
    }

    /** `saveHistoryData`. */
    method SaveHistoryData(point: nat, s: Sample, insertOk: bool, sweepOk: bool, now: int)
      modifies this
      ensures history == SaveHistory(old(history), point, s, insertOk, sweepOk, now)
      ensures isRunning == old(isRunning) && timerArmed == old(timerArmed)
      ensures alarms == old(alarms) && events == old(events)
    {
      if !Storable(s) || !insertOk {
        return;
      }
      history := history + [HistoryRow(point, s.value.value, s.quality, s.timestamp)];
      CleanOldData(sweepOk, now);
    }

    /** `cleanOldData`: a failing sweep is swallowed. */
    method CleanOldData(sweepOk: bool, now: int)
      modifies this
      ensures history == if sweepOk then KeepRecent(old(history), Cutoff(now)) else old(history)
      ensures isRunning == old(isRunning) && timerArmed == old(timerArmed)
      ensures alarms == old(alarms) && events == old(events)
    {
      if sweepOk {
        history := KeepRecent(history, Cutoff(now));
      }
    }

    /** `checkAlarm`: applies the change `CheckAlarm` describes and emits its alarm event. */
    method CheckAlarmFor(dp: DataPoint, value: Option<Num>, storeOk: bool) returns (r: Result<bool>)
      modifies this
      ensures r.Ok? <==> CheckAlarm(old(alarms), dp, value, storeOk).Ok?
      ensures r.Err? ==> alarms == old(alarms) && events == old(events)
      ensures r.Ok? ==>
        var o := CheckAlarm(old(alarms), dp, value, storeOk).value;
        alarms == o.rows && events == old(events) + (if o.fired.Some? then [Alarm(o.fired.value)] else [])
      ensures isRunning == old(isRunning) && timerArmed == old(timerArmed) && history == old(history)
    {
      var outcome := CheckAlarm(alarms, dp, value, storeOk);
      if outcome.Err? {
        return Err(outcome.error);
      }
      alarms := outcome.value.rows;
      if outcome.value.fired.Some? {
        events := events + [Alarm(outcome.value.fired.value)];
      }
      return Ok(true);
    }

    /** `collectData`: one pass, as `Pass` describes it. */
    method CollectData(f: Field)
      requires Valid()
      modifies this, dm, dm.Repr
      ensures Valid() && fresh(dm.Repr - old(dm.Repr))
      ensures State() == Pass(old(State()), f, dm.snap7Installed)
      ensures isRunning == old(isRunning) && timerArmed == old(timerArmed)
    {
      if f.enabledDevices.Err? {
        return;
      }
      var ds := f.enabledDevices.value;
      ghost var t0 := State();
      var i := 0;
      while i < |ds|
        invariant 0 <= i <= |ds|
        invariant Valid() && fresh(dm.Repr - old(dm.Repr))
        invariant isRunning == old(isRunning) && timerArmed == old(timerArmed)
        invariant DevicesPass(t0, ds, f, dm.snap7Installed) == DevicesPass(State(), ds[i..], f, dm.snap7Installed)
      {
        var d := ds[i];
        ghost var before := State();
        var go := CollectDevice(d, f);
        assert (State(), go) == DeviceStep(before, d, f, dm.snap7Installed);
        if !go {
          return;
        }
        i := i + 1;
      }
    }

    /** One device of `collectData`; false when the pass must end. */
    method CollectDevice(d: Device, f: Field) returns (go: bool)
      requires Valid()
      modifies this, dm, dm.Repr
      ensures Valid() && fresh(dm.Repr - old(dm.Repr))
      ensures isRunning == old(isRunning) && timerArmed == old(timerArmed)
      ensures (State(), go) == DeviceStep(old(State()), d, f, dm.snap7Installed)
    {
      if !dm.IsDeviceConnected(d.id) {
        var connected := dm.ConnectDevice(d, f.linkOk(d.id));
        if connected.Err? {
          return true;
        }
      }
      var dps := f.points(d.id);
      if dps.Err? {
        return false;
      }
      CollectPoints(d, dps.value, f);
      return true;
    }

    /** The point loop of `collectData` for one device. */
    method CollectPoints(d: Device, dps: seq<DataPoint>, f: Field)
      requires Valid()
      modifies this, dm.Repr
      ensures Valid() && dm.Repr == old(dm.Repr)
      ensures isRunning == old(isRunning) && timerArmed == old(timerArmed)
      ensures State() == PointsPass(old(State()), d, dps, f)
    {
      ghost var t1 := State();
      var j := 0;
      while j < |dps|
        invariant 0 <= j <= |dps|
        invariant Valid() && dm.Repr == old(dm.Repr)
        invariant isRunning == old(isRunning) && timerArmed == old(timerArmed)
        invariant PointsPass(t1, d, dps, f) == PointsPass(State(), d, dps[j..], f)
      {
        CollectPoint(d, dps[j], f);
        j := j + 1;
      }
    }

    /** One point of `collectData`. */
    method CollectPoint(d: Device, dp: DataPoint, f: Field)
      requires Valid()
      modifies this, dm.Repr
      ensures Valid() && dm.Repr == old(dm.Repr)
      ensures isRunning == old(isRunning) && timerArmed == old(timerArmed)
      ensures State() == PointStep(old(State()), d, dp, f)
    {
      var result := dm.ReadDataPoint(d.id, dp, f.link(dp.id), f.now);
      assert State() == old(State());
      if result.Err? {
        return;
      }
      PointStepSound(State(), d, dp, f);
      Record(d, dp, result.value, f);
    }

    /** The part of `collectData`'s loop body after the read. */
    method Record(d: Device, dp: DataPoint, s: Sample, f: Field)
      modifies this
      ensures isRunning == old(isRunning) && timerArmed == old(timerArmed)
      ensures State() == Recorded(old(State()), d, dp, s, f)
    {
      SaveHistoryData(dp.id, s, f.insertOk(dp.id), f.sweepOk(dp.id), f.now);
      var checked := CheckAlarmFor(dp, s.value, f.alarmStoreOk(dp.id));
      if checked.Err? {
        return;
      }
      events := events + [Data(d.id, d.name, dp.id, dp.name, s)];
    }
  }
}
