/** The monitoring sweep: maintenance windows, offline alarms with hysteresis, execution-failure alarms. */
module Monitoring {
  import opened Schema
  import opened Checkout
  import opened Sums

  const ALARM_AFTER: Time := 300 * SECOND
  const FAILURES_WITHIN: Time := 600 * SECOND
  const FAILURES_TO_ALARM: nat := 3

  /** The text 'device:<id>:offline' or 'device:<id>:execution-failures'. */
  datatype AlarmKey = Offline(of: int) | ExecutionFailures(of: int)

  datatype Alarm = Alarm(device: int, key: AlarmKey, open: bool, openedAt: Time, closedAt: Option<Time>)

  /** One row of the device query: an ACTIVE device and its last heartbeat. */
  datatype Seen = Seen(device: int, lastSeen: Option<Time>)

  /** What a sweep writes. */
  datatype Board = Board(windows: seq<Window>, alarms: seq<Alarm>)

  /** What a sweep reads besides: the ACTIVE devices, and the devices the failure query returns. */
  datatype Readings = Readings(now: Time, devices: seq<Seen>, failing: seq<int>)

  datatype Counts = Counts(raised: nat, resolved: nat, activated: nat, completed: nat, evaluated: nat)

  // ---- windows

  predicate ToActivate(w: Window, now: Time) {
    w.status.Scheduled? && w.startsAt <= now < w.endsAt
  }

  predicate ToComplete(w: Window, now: Time) {
    (w.status.Scheduled? || w.status.WindowActive?) && w.endsAt <= now
  }

  function Advance(w: Window, now: Time): Window {
    if ToActivate(w, now) then w.(status := WindowActive)
    else if ToComplete(w, now) then w.(status := WindowCompleted)
    else w
  }

  function AdvanceAll(windows: seq<Window>, now: Time): (r: seq<Window>)
    ensures |r| == |windows|
  {
    seq(|windows|, k requires 0 <= k < |windows| => Advance(windows[k], now))
  }

  function Muted(windows: seq<Window>, now: Time): set<int> {
    set w | w in windows && w.status.WindowActive? && w.startsAt <= now < w.endsAt && w.device.Some? :: w.device.value
  }

  // ---- alarms

  predicate Has(a: Alarm, device: int, key: AlarmKey) {
    a.open && a.device == device && a.key == key
  }

  predicate IsOpen(alarms: seq<Alarm>, device: int, key: AlarmKey) {
    exists k | 0 <= k < |alarms| :: Has(alarms[k], device, key)
  }

  /** The partial unique index on (device_id, alarm_key) of OPEN rows. */
  ghost predicate OneOpen(alarms: seq<Alarm>) {
    forall j, k | 0 <= j < k < |alarms| && alarms[j].open && alarms[k].open ::
      alarms[j].device != alarms[k].device || alarms[j].key != alarms[k].key
  }

  ghost predicate Distinct(devices: seq<Seen>) {
    forall j, k | 0 <= j < k < |devices| :: devices[j].device != devices[k].device
  }

  ghost predicate DistinctIds(ids: seq<int>) {
    forall j, k | 0 <= j < k < |ids| :: ids[j] != ids[k]
  }

  predicate IsOffline(d: Seen, now: Time) {
    d.lastSeen.Some? && d.lastSeen.value < now - OFFLINE_AFTER
  }

  predicate IsDue(d: Seen, now: Time) {
    d.lastSeen.Some? && d.lastSeen.value < now - ALARM_AFTER
  }

  /** The alarm of `d` is wanted. */
  predicate Fires(d: Seen, muted: set<int>, now: Time) {
    IsDue(d, now) && d.device !in muted
  }

  /** Some device of the list is back, and `a` is its offline alarm. */
  predicate Recovers(a: Alarm, devices: seq<Seen>, now: Time) {
    exists k | 0 <= k < |devices| :: Has(a, devices[k].device, Offline(devices[k].device)) && !IsOffline(devices[k], now)
  }

  function Settled(alarms: seq<Alarm>, devices: seq<Seen>, now: Time): (r: seq<Alarm>)
    ensures |r| == |alarms|
  {
    seq(|alarms|, k requires 0 <= k < |alarms| =>
      if Recovers(alarms[k], devices, now) then alarms[k].(open := false, closedAt := Some(now)) else alarms[k])
  }

  /** The offline alarms to add: one for each device that fires and has none open. */
  function OfflineAlarms(alarms: seq<Alarm>, devices: seq<Seen>, muted: set<int>, now: Time): seq<Alarm> {
    if devices == [] then []
    else
      var d := devices[|devices| - 1];
      OfflineAlarms(alarms, devices[..|devices| - 1], muted, now)
      + if Fires(d, muted, now) && !IsOpen(alarms, d.device, Offline(d.device))
        then [Alarm(d.device, Offline(d.device), true, now, None)] else []
  }

  /** The failure alarms to add. */
  function FailureAlarms(alarms: seq<Alarm>, failing: seq<int>, now: Time): seq<Alarm> {
    if failing == [] then []
    else
      var d := failing[|failing| - 1];
      FailureAlarms(alarms, failing[..|failing| - 1], now)
      + if !IsOpen(alarms, d, ExecutionFailures(d)) then [Alarm(d, ExecutionFailures(d), true, now, None)] else []
  }

  /** Executions of `device` that failed or timed out in the last ten minutes. */
  function Failures(executions: map<int, Execution>, device: int, now: Time): set<int> {
    set e | e in executions && executions[e].device == device && executions[e].createdAt >= now - FAILURES_WITHIN
            && (executions[e].status.ExecFailed? || executions[e].status.ExecTimeout?)
  }

  /** `failing` is an answer of the GROUP BY ... HAVING query, in some order. */
  ghost predicate FailureQuery(executions: map<int, Execution>, failing: seq<int>, now: Time) {
    && DistinctIds(failing)
    && forall d :: d in failing <==> |Failures(executions, d, now)| >= FAILURES_TO_ALARM
  }

  /** What one turn of the device loop does to the alarms, and what it adds to the two counters. */
  predicate Evaluated(alarms: seq<Alarm>, alarms': seq<Alarm>, d: Seen, muted: set<int>, now: Time, raised: nat, resolved: nat) {
    var key := Offline(d.device);
    if Fires(d, muted, now) && !IsOpen(alarms, d.device, key) then
      alarms' == alarms + [Alarm(d.device, key, true, now, None)] && raised == 1 && resolved == 0
    else if !IsOffline(d, now) && IsOpen(alarms, d.device, key) then
      && raised == 0 && resolved == 1
      && exists k | 0 <= k < |alarms| ::
        Has(alarms[k], d.device, key) && alarms' == alarms[k := alarms[k].(open := false, closedAt := Some(now))]
    else alarms' == alarms && raised == 0 && resolved == 0
  }

  // ---- the whole sweep, as one formula

  function Swept(b: Board, r: Readings): Board {
    var windows := AdvanceAll(b.windows, r.now);
    Board(
      windows,
      Settled(b.alarms, r.devices, r.now)
      + OfflineAlarms(b.alarms, r.devices, Muted(windows, r.now), r.now)
      + FailureAlarms(b.alarms, r.failing, r.now))
  }

  function One(p: bool): nat {
    if p then 1 else 0
  }

  function CountRecovering(alarms: seq<Alarm>, devices: seq<Seen>, now: Time): nat {
    Sum(alarms, a => One(Recovers(a, devices, now)))
  }

  function CountToActivate(windows: seq<Window>, now: Time): nat {
    Sum(windows, w => One(ToActivate(w, now)))
  }

  function CountToComplete(windows: seq<Window>, now: Time): nat {
    Sum(windows, w => One(ToComplete(w, now)))
  }

  /** The counters, told by the rows before and after alone. */
  ghost predicate CountsShow(before: Board, after: Board, devices: seq<Seen>, counts: Counts) {
    && |before.windows| == |after.windows| && |before.alarms| <= |after.alarms|
    && counts.raised == |after.alarms| - |before.alarms|
    && counts.resolved == |set k | 0 <= k < |before.alarms| && before.alarms[k].open && !after.alarms[k].open|
    && counts.activated ==
       |set k | 0 <= k < |before.windows| && before.windows[k].status == Scheduled && after.windows[k].status == WindowActive|
    && counts.completed ==
       |set k | 0 <= k < |before.windows| && before.windows[k].status != WindowCompleted && after.windows[k].status == WindowCompleted|
    && counts.evaluated == |devices|
  }

  function Tally(b: Board, r: Readings): Counts {
    var muted := Muted(AdvanceAll(b.windows, r.now), r.now);
    Counts(
      |OfflineAlarms(b.alarms, r.devices, muted, r.now)| + |FailureAlarms(b.alarms, r.failing, r.now)|,
      CountRecovering(b.alarms, r.devices, r.now),
      CountToActivate(b.windows, r.now),
      CountToComplete(b.windows, r.now),
      |r.devices|)
  }
}

/** The tables a sweep writes, and its statements. */
module AlarmStore {
  import opened Schema
  import opened Sums
  import opened Monitoring

  class AlarmTables {
    var windows: seq<Window>
    var alarms: seq<Alarm>

    constructor (b: Board)
      ensures Contents() == b
    {
      windows, alarms := b.windows, b.alarms;
    }

    function Contents(): Board
      reads this
    {
      Board(windows, alarms)
    }

    /** UPDATE maintenance_windows SET status='ACTIVE' WHERE status='SCHEDULED' AND starts_at<=now AND ends_at>now. */
    method Activate(now: Time) returns (count: nat)
      modifies this`windows
      ensures |windows| == |old(windows)|
      ensures forall k | 0 <= k < |windows| ::
                windows[k] == if ToActivate(old(windows)[k], now) then old(windows)[k].(status := WindowActive) else old(windows)[k]
      ensures count == CountToActivate(old(windows), now)
    {
      count := 0;
      var moved: seq<Window> := [];
      for k := 0 to |windows|
        invariant |moved| == k
        invariant forall j :: 0 <= j < k ==>
                    moved[j] == if ToActivate(windows[j], now) then windows[j].(status := WindowActive) else windows[j]
        invariant count == CountToActivate(windows[..k], now)
      {
        var w := windows[k];
        assert windows[..k + 1][..k] == windows[..k];
        if w.status.Scheduled? && w.startsAt <= now && w.endsAt > now {
          moved, count := moved + [w.(status := WindowActive)], count + 1;
        } else {
          moved := moved + [w];
        }
      }
      assert windows[..|windows|] == windows;
      windows := moved;
    }

    /** UPDATE maintenance_windows SET status='COMPLETED' WHERE status IN ('SCHEDULED','ACTIVE') AND ends_at<=now. */
    method Complete(now: Time) returns (count: nat)
      modifies this`windows
      ensures |windows| == |old(windows)|
      ensures forall k | 0 <= k < |windows| ::
                windows[k] == if ToComplete(old(windows)[k], now) then old(windows)[k].(status := WindowCompleted) else old(windows)[k]
      ensures count == CountToComplete(old(windows), now)
    {
      count := 0;
      var moved: seq<Window> := [];
      for k := 0 to |windows|
        invariant |moved| == k
        invariant forall j :: 0 <= j < k ==>
                    moved[j] == if ToComplete(windows[j], now) then windows[j].(status := WindowCompleted) else windows[j]
        invariant count == CountToComplete(windows[..k], now)
      {
        var w := windows[k];
        assert windows[..k + 1][..k] == windows[..k];
        if (w.status.Scheduled? || w.status.WindowActive?) && w.endsAt <= now {
          moved, count := moved + [w.(status := WindowCompleted)], count + 1;
        } else {
          moved := moved + [w];
        }
      }
      assert windows[..|windows|] == windows;
      windows := moved;
    }

    /** The two statements together. */
    method MoveWindows(now: Time) returns (activated: nat, completed: nat)
      modifies this`windows
      ensures windows == AdvanceAll(old(windows), now)
      ensures activated == CountToActivate(old(windows), now)
      ensures completed == CountToComplete(old(windows), now)
    {
      ghost var before := windows;
      activated := Activate(now);
      SumOfPointwise(before, windows, w => One(ToComplete(w, now)));
      completed := Complete(now);
    }

    /** SELECT id FROM alarms WHERE device_id AND alarm_key AND status='OPEN' LIMIT 1. */
    method FindOpen(device: int, key: AlarmKey) returns (id: Option<nat>)
      ensures id.None? <==> !IsOpen(alarms, device, key)
      ensures id.Some? ==> id.value < |alarms| && Has(alarms[id.value], device, key)
    {
      for k := 0 to |alarms|
        invariant forall j | 0 <= j < k :: !Has(alarms[j], device, key)
      {
        if Has(alarms[k], device, key) {
          return Some(k);
        }
      }
      return None;
    }

    method InsertOpen(device: int, key: AlarmKey, now: Time)
      modifies this`alarms
      ensures alarms == old(alarms) + [Alarm(device, key, true, now, None)]
    {
      alarms := alarms + [Alarm(device, key, true, now, None)];
    }

    /** UPDATE alarms SET status='RESOLVED', closed_at=now WHERE id=id AND status='OPEN'. */
    method Resolve(id: nat, now: Time)
      requires id < |alarms|
      modifies this`alarms
      ensures alarms == if old(alarms)[id].open
                        then old(alarms)[id := old(alarms)[id].(open := false, closedAt := Some(now))] else old(alarms)
    {
      if alarms[id].open {
        alarms := alarms[id := alarms[id].(open := false, closedAt := Some(now))];
      }
    }

    /** One turn of the device loop: the lookup, then an INSERT, an UPDATE or nothing. */
    method EvaluateDevice(d: Seen, muted: set<int>, now: Time) returns (raised: nat, resolved: nat)
      modifies this`alarms
      ensures Evaluated(old(alarms), alarms, d, muted, now, raised, resolved)
    {
      raised, resolved := 0, 0;
      var existing := FindOpen(d.device, Offline(d.device));
      var isOffline := d.lastSeen.Some? && d.lastSeen.value < now - OFFLINE_AFTER;
      var isAlarmDue := d.lastSeen.Some? && d.lastSeen.value < now - ALARM_AFTER;
      if isAlarmDue && d.device !in muted {
        if existing.None? {
          InsertOpen(d.device, Offline(d.device), now);
          raised := 1;
        }
      } else if !isOffline && existing.Some? {
        Resolve(existing.value, now);
        resolved := 1;
      }
    }

    method OpenAlarm(device: int, key: AlarmKey, now: Time) returns (created: bool)
      modifies this`alarms
      ensures created == !IsOpen(old(alarms), device, key)
      ensures alarms == old(alarms) + if created then [Alarm(device, key, true, now, None)] else []
    {
      var existing := FindOpen(device, key);
      if existing.Some? {
        return false;
      }
      InsertOpen(device, key, now);
      return true;
    }
  }
}
