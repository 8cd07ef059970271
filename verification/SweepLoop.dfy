/** The N+1 loop is the set-based formula. */
module SweepLoop {
  import opened Schema
  import opened Sums
  import opened Monitoring
  import opened MonitoringLaws

  /** The alarms once the loop has passed `devices`. */
  function AfterDevices(alarms: seq<Alarm>, devices: seq<Seen>, muted: set<int>, now: Time): seq<Alarm> {
    Settled(alarms, devices, now) + OfflineAlarms(alarms, devices, muted, now)
  }

  lemma AfterNoDevices(alarms: seq<Alarm>, devices: seq<Seen>, muted: set<int>, now: Time)
    ensures AfterDevices(alarms, devices[..0], muted, now) == alarms
    ensures CountRecovering(alarms, devices[..0], now) == 0
  {
    assert Settled(alarms, devices[..0], now) == alarms;
    SumOfEqual(alarms, a => One(Recovers(a, devices[..0], now)), 0);
  }

  /** The alarm of the next device is still as it was before the loop. */
  lemma NextIsUntouched(alarms: seq<Alarm>, devices: seq<Seen>, k: nat, muted: set<int>, now: Time, j: nat)
    requires Distinct(devices) && k < |devices|
    ensures var cur, d := AfterDevices(alarms, devices[..k], muted, now), devices[k].device;
            j < |cur| && Has(cur[j], d, Offline(d)) <==> j < |alarms| && Has(alarms[j], d, Offline(d))
    ensures j < |alarms| && Has(alarms[j], devices[k].device, Offline(devices[k].device)) ==>
              AfterDevices(alarms, devices[..k], muted, now)[j] == alarms[j]
  {
    var cur, d := AfterDevices(alarms, devices[..k], muted, now), devices[k].device;
    if |alarms| <= j < |cur| {
      var i := OfflineAlarmsAre(alarms, devices[..k], muted, now, j - |alarms|);
    }
  }

  lemma NextLookup(alarms: seq<Alarm>, devices: seq<Seen>, k: nat, muted: set<int>, now: Time)
    requires Distinct(devices) && k < |devices|
    ensures var d := devices[k].device;
            IsOpen(AfterDevices(alarms, devices[..k], muted, now), d, Offline(d)) <==> IsOpen(alarms, d, Offline(d))
  {
    var cur, d := AfterDevices(alarms, devices[..k], muted, now), devices[k].device;
    if IsOpen(cur, d, Offline(d)) {
      var j :| 0 <= j < |cur| && Has(cur[j], d, Offline(d));
      NextIsUntouched(alarms, devices, k, muted, now, j);
    }
    if IsOpen(alarms, d, Offline(d)) {
      var j :| 0 <= j < |alarms| && Has(alarms[j], d, Offline(d));
      NextIsUntouched(alarms, devices, k, muted, now, j);
    }
  }

  lemma RecoversOneMore(a: Alarm, devices: seq<Seen>, k: nat, now: Time)
    requires k < |devices|
    ensures Recovers(a, devices[..k + 1], now) <==>
            Recovers(a, devices[..k], now)
            || (Has(a, devices[k].device, Offline(devices[k].device)) && !IsOffline(devices[k], now))
  {
    var more := devices[..k + 1];
    assert forall i | 0 <= i < k :: more[i] == devices[..k][i];
    assert more[k] == devices[k];
  }

  lemma NotYetRecovering(a: Alarm, devices: seq<Seen>, k: nat, now: Time)
    requires Distinct(devices) && k < |devices| && Has(a, devices[k].device, Offline(devices[k].device))
    ensures !Recovers(a, devices[..k], now)
  {
  }

  /** A turn that closes nothing. */
  lemma SettledSame(alarms: seq<Alarm>, devices: seq<Seen>, k: nat, now: Time)
    requires k < |devices|
    requires IsOffline(devices[k], now) || !IsOpen(alarms, devices[k].device, Offline(devices[k].device))
    ensures Settled(alarms, devices[..k + 1], now) == Settled(alarms, devices[..k], now)
    ensures CountRecovering(alarms, devices[..k + 1], now) == CountRecovering(alarms, devices[..k], now)
  {
    forall i | 0 <= i < |alarms|
      ensures Recovers(alarms[i], devices[..k + 1], now) <==> Recovers(alarms[i], devices[..k], now)
    {
      RecoversOneMore(alarms[i], devices, k, now);
    }
    SumOfSameWeights(alarms, a => One(Recovers(a, devices[..k], now)), a => One(Recovers(a, devices[..k + 1], now)));
  }

  /** A turn that closes row `j`. */
  lemma SettledOneMore(alarms: seq<Alarm>, devices: seq<Seen>, k: nat, now: Time, j: nat)
    requires OneOpen(alarms) && Distinct(devices) && k < |devices| && !IsOffline(devices[k], now)
    requires j < |alarms| && Has(alarms[j], devices[k].device, Offline(devices[k].device))
    ensures var before := Settled(alarms, devices[..k], now);
            before[j] == alarms[j]
            && Settled(alarms, devices[..k + 1], now) == before[j := alarms[j].(open := false, closedAt := Some(now))]
    ensures CountRecovering(alarms, devices[..k + 1], now) == CountRecovering(alarms, devices[..k], now) + 1
  {
    forall i | 0 <= i < |alarms|
      ensures Recovers(alarms[i], devices[..k + 1], now) <==> Recovers(alarms[i], devices[..k], now) || i == j
    {
      RecoversOneMore(alarms[i], devices, k, now);
    }
    NotYetRecovering(alarms[j], devices, k, now);
    SumOfOneMore(alarms, a => One(Recovers(a, devices[..k], now)), a => One(Recovers(a, devices[..k + 1], now)), j);
  }

  lemma DeviceTurn(alarms: seq<Alarm>, devices: seq<Seen>, k: nat, muted: set<int>, now: Time,
                   alarms': seq<Alarm>, raised: nat, resolved: nat)
    requires OneOpen(alarms) && Distinct(devices) && k < |devices|
    requires Evaluated(AfterDevices(alarms, devices[..k], muted, now), alarms', devices[k], muted, now, raised, resolved)
    ensures alarms' == AfterDevices(alarms, devices[..k + 1], muted, now)
    ensures |OfflineAlarms(alarms, devices[..k + 1], muted, now)| == |OfflineAlarms(alarms, devices[..k], muted, now)| + raised
    ensures CountRecovering(alarms, devices[..k + 1], now) == CountRecovering(alarms, devices[..k], now) + resolved
  {
    var cur := AfterDevices(alarms, devices[..k], muted, now);
    var d := devices[k];
    assert devices[..k + 1][..k] == devices[..k];
    NextLookup(alarms, devices, k, muted, now);
    if !IsOffline(d, now) && IsOpen(alarms, d.device, Offline(d.device)) {
      var j :| 0 <= j < |cur| && Has(cur[j], d.device, Offline(d.device))
               && alarms' == cur[j := cur[j].(open := false, closedAt := Some(now))];
      NextIsUntouched(alarms, devices, k, muted, now, j);
      SettledOneMore(alarms, devices, k, now, j);
    } else {
      SettledSame(alarms, devices, k, now);
    }
  }

  /** The lookups of the failure loop see what they would have seen before the sweep. */
  lemma FailureLookup(alarms: seq<Alarm>, devices: seq<Seen>, muted: set<int>, now: Time, failing: seq<int>, k: nat)
    requires DistinctIds(failing) && k < |failing|
    ensures var d := failing[k];
            IsOpen(AfterDevices(alarms, devices, muted, now) + FailureAlarms(alarms, failing[..k], now), d, ExecutionFailures(d))
            <==> IsOpen(alarms, d, ExecutionFailures(d))
  {
    var d := failing[k];
    var key := ExecutionFailures(d);
    var kept, added := Settled(alarms, devices, now), OfflineAlarms(alarms, devices, muted, now);
    var failures := FailureAlarms(alarms, failing[..k], now);
    IsOpenConcat(kept + added, failures, d, key);
    IsOpenConcat(kept, added, d, key);
    SettledIsOpen(alarms, devices, now, d, key);
    if IsOpen(added, d, key) {
      var i :| 0 <= i < |added| && Has(added[i], d, key);
      var j := OfflineAlarmsAre(alarms, devices, muted, now, i);
      assert false;
    }
    if IsOpen(failures, d, key) {
      var i :| 0 <= i < |failures| && Has(failures[i], d, key);
      var j := FailureAlarmsAre(alarms, failing[..k], now, i);
      assert false;
    }
  }

  lemma FailureTurn(alarms: seq<Alarm>, devices: seq<Seen>, muted: set<int>, now: Time, failing: seq<int>, k: nat,
                    cur: seq<Alarm>, cur': seq<Alarm>, created: bool)
    requires DistinctIds(failing) && k < |failing|
    requires cur == AfterDevices(alarms, devices, muted, now) + FailureAlarms(alarms, failing[..k], now)
    requires created == !IsOpen(cur, failing[k], ExecutionFailures(failing[k]))
    requires cur' == cur + if created then [Alarm(failing[k], ExecutionFailures(failing[k]), true, now, None)] else []
    ensures cur' == AfterDevices(alarms, devices, muted, now) + FailureAlarms(alarms, failing[..k + 1], now)
    ensures |FailureAlarms(alarms, failing[..k + 1], now)| == |FailureAlarms(alarms, failing[..k], now)| + One(created)
  {
    FailureLookup(alarms, devices, muted, now, failing, k);
    assert failing[..k + 1][..k] == failing[..k];
  }

  /** The tally of the formula is what the rows show. */
  lemma TallyShows(b: Board, r: Readings)
    ensures CountsShow(b, Swept(b, r), r.devices, Tally(b, r))
  {
    var after := Swept(b, r);
    SumIsCount(b.alarms, a => One(Recovers(a, r.devices, r.now)),
               set k | 0 <= k < |b.alarms| && b.alarms[k].open && !after.alarms[k].open);
    SumIsCount(b.windows, w => One(ToActivate(w, r.now)),
               set k | 0 <= k < |b.windows| && b.windows[k].status == Scheduled && after.windows[k].status == WindowActive);
    SumIsCount(b.windows, w => One(ToComplete(w, r.now)),
               set k | 0 <= k < |b.windows| && b.windows[k].status != WindowCompleted && after.windows[k].status == WindowCompleted);
  }

  /** Everything a sweep of `r.devices` and `r.failing` leaves, in the form the loops build it. */
  lemma Assembled(b: Board, r: Readings)
    ensures var muted := Muted(AdvanceAll(b.windows, r.now), r.now);
            Swept(b, r).alarms ==
            AfterDevices(b.alarms, r.devices[..|r.devices|], muted, r.now) + FailureAlarms(b.alarms, r.failing[..|r.failing|], r.now)
  {
    assert r.devices[..|r.devices|] == r.devices && r.failing[..|r.failing|] == r.failing;
  }
}

/** python/app/worker.py */
module PythonWorker {
  import opened Schema
  import opened Monitoring
  import opened AlarmStore
  import opened SweepLoop

  method SweepTargetRuntime(db: AlarmTables, r: Readings) returns (counts: Counts)
    requires OneOpen(db.alarms) && Distinct(r.devices) && DistinctIds(r.failing)
    modifies db
    ensures db.Contents() == Swept(old(db.Contents()), r)
    ensures counts == Tally(old(db.Contents()), r)
    ensures CountsShow(old(db.Contents()), db.Contents(), r.devices, counts)
  {
    ghost var b := db.Contents();
    var now := r.now;
    var activated, completed := db.MoveWindows(now);
    var activeMaintenance := Muted(db.windows, now);
    var raised, resolved := 0, 0;
    AfterNoDevices(b.alarms, r.devices, activeMaintenance, now);
    for k := 0 to |r.devices|
      invariant db.windows == AdvanceAll(b.windows, now)
      invariant db.alarms == AfterDevices(b.alarms, r.devices[..k], activeMaintenance, now)
      invariant raised == |OfflineAlarms(b.alarms, r.devices[..k], activeMaintenance, now)|
      invariant resolved == CountRecovering(b.alarms, r.devices[..k], now)
    {
      var up, down := db.EvaluateDevice(r.devices[k], activeMaintenance, now);
      DeviceTurn(b.alarms, r.devices, k, activeMaintenance, now, db.alarms, up, down);
      raised, resolved := raised + up, resolved + down;
    }
    assert r.devices[..|r.devices|] == r.devices;
    for k := 0 to |r.failing|
      invariant db.windows == AdvanceAll(b.windows, now)
      invariant db.alarms == AfterDevices(b.alarms, r.devices, activeMaintenance, now) + FailureAlarms(b.alarms, r.failing[..k], now)
      invariant raised == |OfflineAlarms(b.alarms, r.devices, activeMaintenance, now)| + |FailureAlarms(b.alarms, r.failing[..k], now)|
    {
      ghost var cur := db.alarms;
      var created := db.OpenAlarm(r.failing[k], ExecutionFailures(r.failing[k]), now);
      FailureTurn(b.alarms, r.devices, activeMaintenance, now, r.failing, k, cur, db.alarms, created);
      raised := raised + if created then 1 else 0;
    }
    Assembled(b, r);
    TallyShows(b, r);
    return Counts(raised, resolved, activated, completed, |r.devices|);
  }
}

/** go/internal/worker/service.go */
module GoWorker {
  import opened Schema
  import opened Monitoring
  import opened AlarmStore
  import opened SweepLoop

  /** SELECT device_id FROM maintenance_windows WHERE status='ACTIVE' AND starts_at<=now AND ends_at>now AND device_id IS NOT NULL. */
  function MaintenanceRows(windows: seq<Window>, now: Time): seq<int> {
    if windows == [] then []
    else
      var w := windows[|windows| - 1];
      MaintenanceRows(windows[..|windows| - 1], now)
      + if w.status.WindowActive? && w.startsAt <= now < w.endsAt && w.device.Some? then [w.device.value] else []
  }

  lemma {:induction false} RowsAreMuted(windows: seq<Window>, now: Time)
    ensures (set id | id in MaintenanceRows(windows, now)) == Muted(windows, now)
  {
    if windows != [] {
      var init, w := windows[..|windows| - 1], windows[|windows| - 1];
      RowsAreMuted(init, now);
      var tail := if w.status.WindowActive? && w.startsAt <= now < w.endsAt && w.device.Some? then [w.device.value] else [];
      assert (set id | id in MaintenanceRows(windows, now)) == (set id | id in MaintenanceRows(init, now)) + (set id | id in tail);
      assert Muted(windows, now) == Muted(init, now) + (set id | id in tail) by {
        assert windows == init + [w];
      }
    }
  }

  /** The rows put into a map one by one. */
  method ActiveMaintenance(windows: seq<Window>, now: Time) returns (active: set<int>)
    ensures active == Muted(windows, now)
  {
    var rows := MaintenanceRows(windows, now);
    active := {};
    for k := 0 to |rows|
      invariant active == set id | id in rows[..k]
    {
      active := active + {rows[k]};
    }
    assert rows[..|rows|] == rows;
    RowsAreMuted(windows, now);
  }

  method Sweep(db: AlarmTables, r: Readings) returns (counts: Counts)
    requires OneOpen(db.alarms) && Distinct(r.devices) && DistinctIds(r.failing)
    modifies db
    ensures db.Contents() == Swept(old(db.Contents()), r)
    ensures counts == Tally(old(db.Contents()), r)
    ensures CountsShow(old(db.Contents()), db.Contents(), r.devices, counts)
  {
    ghost var b := db.Contents();
    var now := r.now;
    var activatedTag, completedTag := db.MoveWindows(now);
    var activeMaintenance := ActiveMaintenance(db.windows, now);
    var devices: seq<Seen> := [];
    for k := 0 to |r.devices|
      invariant devices == r.devices[..k]
    {
      devices := devices + [r.devices[k]];
    }
    assert devices == r.devices;
    var raised, resolved := 0, 0;
    AfterNoDevices(b.alarms, devices, activeMaintenance, now);
    for k := 0 to |devices|
      invariant db.windows == AdvanceAll(b.windows, now)
      invariant db.alarms == AfterDevices(b.alarms, devices[..k], activeMaintenance, now)
      invariant raised == |OfflineAlarms(b.alarms, devices[..k], activeMaintenance, now)|
      invariant resolved == CountRecovering(b.alarms, devices[..k], now)
    {
      var up, down := db.EvaluateDevice(devices[k], activeMaintenance, now);
      DeviceTurn(b.alarms, devices, k, activeMaintenance, now, db.alarms, up, down);
      raised, resolved := raised + up, resolved + down;
    }
    var failures := CopyRows(r.failing);
    assert devices[..|devices|] == devices;
    for k := 0 to |failures|
      invariant db.windows == AdvanceAll(b.windows, now)
      invariant db.alarms == AfterDevices(b.alarms, devices, activeMaintenance, now) + FailureAlarms(b.alarms, failures[..k], now)
      invariant raised == |OfflineAlarms(b.alarms, devices, activeMaintenance, now)| + |FailureAlarms(b.alarms, failures[..k], now)|
    {
      ghost var cur := db.alarms;
      var created := db.OpenAlarm(failures[k], ExecutionFailures(failures[k]), now);
      FailureTurn(b.alarms, devices, activeMaintenance, now, failures, k, cur, db.alarms, created);
      raised := raised + if created then 1 else 0;
    }
    Assembled(b, r);
    TallyShows(b, r);
    return Counts(raised, resolved, activatedTag, completedTag, |devices|);
  }

  method CopyRows(rows: seq<int>) returns (failures: seq<int>)
    ensures failures == rows
  {
    failures := [];
    for k := 0 to |rows|
      invariant failures == rows[..k]
    {
      failures := failures + [rows[k]];
    }
  }
}
