/** The front end's application store (frontend/src/store/index.js): the newest-first list of
    alarms pushed by the server, capped at 100, and the latest sample of every data point, keyed
    by device and point in a JavaScript `Map` (which keeps keys in insertion order). */
module Store {
  import opened Wrappers
  import opened Numbers
  import opened Text

  /** The cap on the alarm list. */
  const MaxAlarms := 100

  /** An alarm as pushed to the browser; only `status` is looked at. */
  datatype AlarmEntry = AlarmEntry(dataPointId: nat, alarmType: string, message: string, status: string)

  /** A real-time message: the sample of one point of one device. */
  datatype RealtimeEntry = RealtimeEntry(deviceId: nat, dataPointId: nat, value: Option<Num>, quality: nat,
                                         timestamp: int)

  /** The key `updateRealtimeData` files an entry under: `${deviceId}_${dataPointId}`. */
  function RealtimeKey(deviceId: nat, dataPointId: nat): string
  {
    NatToString(deviceId) + "_" + NatToString(dataPointId)
  }

  /** Different (device, point) pairs get different keys, so no entry overwrites another
      point's. */
  lemma RealtimeKeyInjective(a: nat, b: nat, c: nat, d: nat)
    requires RealtimeKey(a, b) == RealtimeKey(c, d)
    ensures a == c && b == d
  {
    var s1, s2 := NatToString(a), NatToString(c);
    var k := RealtimeKey(a, b);
    assert k == s1 + ("_" + NatToString(b)) == s2 + ("_" + NatToString(d));
    SpanStops(s1, "_" + NatToString(b), IsDigit);
    SpanStops(s2, "_" + NatToString(d), IsDigit);
    NatToStringInjective(a, c);
    assert NatToString(b) == k[|s1| + 1..] == NatToString(d);
    NatToStringInjective(b, d);
  }

  /** The list after `addAlarm`: the new alarm first, then as many of the older ones, in their
      order, as fit under the cap. */
  function WithAlarm(list: seq<AlarmEntry>, a: AlarmEntry): (r: seq<AlarmEntry>)
    ensures |r| == if |list| + 1 > MaxAlarms then MaxAlarms else |list| + 1
    ensures r[0] == a
    ensures forall i | 1 <= i < |r| :: r[i] == list[i - 1]
  {
    var grown := [a] + list;
    if |grown| > MaxAlarms then grown[..MaxAlarms] else grown
  }

  function Reverse<T>(s: seq<T>): (r: seq<T>)
    ensures |r| == |s| && forall i | 0 <= i < |s| :: r[i] == s[|s| - 1 - i]
  {
    if s == [] then [] else Reverse(s[1..]) + [s[0]]
  }

  /** The alarms `news` added one after the other. */
  function AddAll(list: seq<AlarmEntry>, news: seq<AlarmEntry>): seq<AlarmEntry>
    decreases |news|
  {
    if news == [] then list else AddAll(WithAlarm(list, news[0]), news[1..])
  }

  function Min(a: nat, b: nat): nat { if a < b then a else b }

  /** However many alarms arrive, the list holds the newest of everything seen, newest first,
      up to the cap. */
  lemma {:induction false} AddAllKeepsNewest(list: seq<AlarmEntry>, news: seq<AlarmEntry>)
    requires |list| <= MaxAlarms
    ensures AddAll(list, news) == (Reverse(news) + list)[..Min(|news| + |list|, MaxAlarms)]
    decreases |news|
  {
    if news != [] {
      AddAllKeepsNewest(WithAlarm(list, news[0]), news[1..]);
      NewestStep(list, news);
    }
  }

  /** Adding the first alarm and then the rest, newest first, is the same prefix as adding
      them all. */
  lemma NewestStep(list: seq<AlarmEntry>, news: seq<AlarmEntry>)
    requires |list| <= MaxAlarms && news != []
    ensures var next := WithAlarm(list, news[0]);
      (Reverse(news[1..]) + next)[..Min(|news| - 1 + |next|, MaxAlarms)]
      == (Reverse(news) + list)[..Min(|news| + |list|, MaxAlarms)]
  {
    assert Reverse(news) == Reverse(news[1..]) + [news[0]];
    assert WithAlarm(list, news[0]) == ([news[0]] + list)[..Min(|list| + 1, MaxAlarms)];
    PrefixStep(Reverse(news[1..]), news[0], list, MaxAlarms);
  }

  /** Putting `a` in front of `l`, capping at `cap`, then putting `o` in front and capping
      again, is putting `o + [a]` in front of `l` and capping once. */
  lemma PrefixStep<T>(o: seq<T>, a: T, l: seq<T>, cap: nat)
    requires 1 <= cap && |l| <= cap
    ensures var k := Min(|l| + 1, cap);
      (o + ([a] + l)[..k])[..Min(|o| + k, cap)] == ((o + [a]) + l)[..Min(|o| + 1 + |l|, cap)]
  {
    var k := Min(|l| + 1, cap);
    var m := Min(|o| + 1 + |l|, cap);
    assert (o + [a]) + l == o + ([a] + l);
    assert Min(|o| + k, cap) == m;
    PrefixOfPrefix(o, [a] + l, k, m);
  }

  /** Cutting `b` at `k` does not change a prefix of `a + b` that ends before the cut. */
  lemma PrefixOfPrefix<T>(a: seq<T>, b: seq<T>, k: nat, m: nat)
    requires k <= |b| && m <= |a| + k
    ensures (a + b[..k])[..m] == (a + b)[..m]
  {
    assert forall i | 0 <= i < m :: (a + b[..k])[i] == (a + b)[i];
  }

  /** The number of alarms whose status is `active`. */
  function CountActive(list: seq<AlarmEntry>): (n: nat)
    ensures n <= |list|
  {
    if list == [] then 0 else (if list[0].status == "active" then 1 else 0) + CountActive(list[1..])
  }

  /** The positions of the list holding an alarm whose status is `active`. */
  function ActiveIndices(list: seq<AlarmEntry>): set<int>
  {
    set i | 0 <= i < |list| && list[i].status == "active"
  }

  /** The count is the number of active alarms in the list. */
  lemma {:induction false} CountActiveIsSize(list: seq<AlarmEntry>)
    ensures CountActive(list) == |ActiveIndices(list)|
    decreases |list|
  {
    if list != [] {
      var init := list[..|list| - 1];
      var last := list[|list| - 1];
      CountActiveIsSize(init);
      assert list == init + [last];
      CountActiveAppend(init, [last]);
      assert [last][1..] == [];
      if last.status == "active" {
        assert ActiveIndices(list) == ActiveIndices(init) + {|init|};
      } else {
        assert ActiveIndices(list) == ActiveIndices(init);
      }
    }
  }

  /** Counting active alarms adds up over a split of the list. */
  lemma {:induction false} CountActiveAppend(a: seq<AlarmEntry>, b: seq<AlarmEntry>)
    ensures CountActive(a + b) == CountActive(a) + CountActive(b)
  {
    if a == [] {
      assert a + b == b;
    } else {
      CountActiveAppend(a[1..], b);
      assert (a + b)[1..] == a[1..] + b;
    }
  }

  /** After `addAlarm` the count goes up by one for an active new alarm and down by one when the
      alarm pushed off the end was active. */
  lemma AddAlarmCount(list: seq<AlarmEntry>, a: AlarmEntry)
    requires |list| <= MaxAlarms
    ensures |list| < MaxAlarms ==>
      CountActive(WithAlarm(list, a)) == CountActive(list) + (if a.status == "active" then 1 else 0)
    ensures |list| == MaxAlarms ==>
      CountActive(WithAlarm(list, a)) + (if list[|list| - 1].status == "active" then 1 else 0)
      == CountActive(list) + (if a.status == "active" then 1 else 0)
  {
    CountActiveAppend([a], list);
    assert CountActive([a]) == if a.status == "active" then 1 else 0;
    if |list| == MaxAlarms {
      FullListDropsLast(list, a);
    }
  }

  /** On a full list, the list before the cut is the list after it plus the alarm pushed off. */
  lemma FullListDropsLast(list: seq<AlarmEntry>, a: AlarmEntry)
    requires |list| == MaxAlarms
    ensures CountActive([a] + list) == CountActive(WithAlarm(list, a)) + CountActive([list[|list| - 1]])
  {
    var r := WithAlarm(list, a);
    var last := list[|list| - 1];
    assert [a] + list == r + [last];
    CountActiveAppend(r, [last]);
  }

  /** The entries of one device, in key order. */
  function DeviceEntries(keys: seq<string>, data: map<string, RealtimeEntry>, deviceId: nat): (r: seq<RealtimeEntry>)
    requires forall k | k in keys :: k in data
    ensures forall e :: e in r <==> exists i | 0 <= i < |keys| :: data[keys[i]] == e && e.deviceId == deviceId
  {
    if keys == [] then []
    else
      var rest := DeviceEntries(keys[1..], data, deviceId);
      assert forall i | 1 <= i < |keys| :: keys[i] == keys[1..][i - 1];
      if data[keys[0]].deviceId == deviceId then [data[keys[0]]] + rest else rest
  }

  /** Extending the key order by one key extends the device's entries by that key's entry, if
      it belongs to the device. */
  lemma {:induction false} DeviceEntriesSnoc(keys: seq<string>, data: map<string, RealtimeEntry>, deviceId: nat, k: string)
    requires forall x | x in keys + [k] :: x in data
    ensures DeviceEntries(keys + [k], data, deviceId)
      == DeviceEntries(keys, data, deviceId) + (if data[k].deviceId == deviceId then [data[k]] else [])
    decreases |keys|
  {
    if keys != [] {
      assert (keys + [k])[1..] == keys[1..] + [k];
      DeviceEntriesSnoc(keys[1..], data, deviceId, k);
    }
  }

  class AppStore {
    var alarms: seq<AlarmEntry>
    /** The keys of `realtimeData` in insertion order. */
    var keys: seq<string>
    var realtimeData: map<string, RealtimeEntry>

    /** The `Map` invariant: each key once, and exactly the keys that have an entry. */
    ghost predicate Valid()
      reads this
    {
      (forall i, j | 0 <= i < j < |keys| :: keys[i] != keys[j])
      && (forall k :: k in keys <==> k in realtimeData)
      && |alarms| <= MaxAlarms
    }

    constructor()
      ensures Valid() && alarms == [] && keys == [] && realtimeData == map[]
    {
      alarms := [];
      keys := [];
      realtimeData := map[];
    }

    /** `updateRealtimeData`: the entry replaces whatever was filed under its key; a new key
        goes to the end of the key order, an existing one keeps its place. */
    method UpdateRealtimeData(e: RealtimeEntry)
      requires Valid()
      modifies this
      ensures Valid() && alarms == old(alarms)
      ensures realtimeData == old(realtimeData)[RealtimeKey(e.deviceId, e.dataPointId) := e]
      ensures keys == if RealtimeKey(e.deviceId, e.dataPointId) in old(keys) then old(keys)
                      else old(keys) + [RealtimeKey(e.deviceId, e.dataPointId)]
    {
      var key := RealtimeKey(e.deviceId, e.dataPointId);
      if key !in realtimeData {
        keys := keys + [key];
      }
      realtimeData := realtimeData[key := e];
    }

    /** `addAlarm`. */
    method AddAlarm(a: AlarmEntry)
      requires Valid()
      modifies this
      ensures Valid() && keys == old(keys) && realtimeData == old(realtimeData)
      ensures alarms == WithAlarm(old(alarms), a)
    {
      alarms := [a] + alarms;
      if |alarms| > MaxAlarms {
        alarms := alarms[..MaxAlarms];
      }
    }

    /** `getDeviceRealtimeData`: the stored entries of one device, in key order. */
    method GetDeviceRealtimeData(deviceId: nat) returns (data: seq<RealtimeEntry>)
      requires Valid()
      ensures data == DeviceEntries(keys, realtimeData, deviceId)
      ensures forall e :: e in data <==> exists k | k in realtimeData :: realtimeData[k] == e && e.deviceId == deviceId
    {
      data := [];
      var i := 0;
      while i < |keys|
        invariant 0 <= i <= |keys|
        invariant data == DeviceEntries(keys[..i], realtimeData, deviceId)
      {
        var value := realtimeData[keys[i]];
        DeviceEntriesSnoc(keys[..i], realtimeData, deviceId, keys[i]);
        assert keys[..i + 1] == keys[..i] + [keys[i]];
        if value.deviceId == deviceId {
          data := data + [value];
        }
        i := i + 1;
      }
      assert keys[..i] == keys;
    }

    /** `activeAlarmCount`. */
    function ActiveAlarmCount(): (n: nat)
      reads this
      ensures n <= |alarms|
      ensures n == |ActiveIndices(alarms)|
      ensures n == 0 <==> forall i | 0 <= i < |alarms| :: alarms[i].status != "active"
    {
      ActiveCountSpec(alarms);
      CountActiveIsSize(alarms);
      CountActive(alarms)
    }
  }

  lemma {:induction false} ActiveCountSpec(list: seq<AlarmEntry>)
    ensures CountActive(list) == 0 <==> forall i | 0 <= i < |list| :: list[i].status != "active"
  {
    if list != [] {
      ActiveCountSpec(list[1..]);
      assert forall i | 1 <= i < |list| :: list[i] == list[1..][i - 1];
    }
  }
}
