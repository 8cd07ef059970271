/** What one sweep leaves behind, as lookups see it. */
module MonitoringLaws {
  import opened Schema
  import opened Checkout
  import opened Sums
  import opened Monitoring

  lemma IsOpenConcat(a: seq<Alarm>, b: seq<Alarm>, device: int, key: AlarmKey)
    ensures IsOpen(a + b, device, key) <==> IsOpen(a, device, key) || IsOpen(b, device, key)
  {
    if IsOpen(a, device, key) {
      var k :| 0 <= k < |a| && Has(a[k], device, key);
      assert Has((a + b)[k], device, key);
    }
    if IsOpen(b, device, key) {
      var k :| 0 <= k < |b| && Has(b[k], device, key);
      assert Has((a + b)[|a| + k], device, key);
    }
  }

  /** Some ACTIVE device row of the list is `device` and satisfies the test. */
  predicate Listed(devices: seq<Seen>, device: int) {
    exists k | 0 <= k < |devices| :: devices[k].device == device
  }

  /** Every alarm added is an OPEN row of a listed device that fires and had none open. */
  lemma {:induction false} OfflineAlarmsAre(alarms: seq<Alarm>, devices: seq<Seen>, muted: set<int>, now: Time, i: nat) returns (k: nat)
    requires i < |OfflineAlarms(alarms, devices, muted, now)|
    ensures k < |devices| && Fires(devices[k], muted, now) && !IsOpen(alarms, devices[k].device, Offline(devices[k].device))
    ensures OfflineAlarms(alarms, devices, muted, now)[i] == Alarm(devices[k].device, Offline(devices[k].device), true, now, None)
  {
    var last := |devices| - 1;
    if i < |OfflineAlarms(alarms, devices[..last], muted, now)| {
      k := OfflineAlarmsAre(alarms, devices[..last], muted, now, i);
    } else {
      k := last;
    }
  }

  lemma {:induction false} FiringIsAdded(alarms: seq<Alarm>, devices: seq<Seen>, muted: set<int>, now: Time, k: nat)
    requires k < |devices| && Fires(devices[k], muted, now) && !IsOpen(alarms, devices[k].device, Offline(devices[k].device))
    ensures IsOpen(OfflineAlarms(alarms, devices, muted, now), devices[k].device, Offline(devices[k].device))
  {
    var last := |devices| - 1;
    var d := devices[k].device;
    var before := OfflineAlarms(alarms, devices[..last], muted, now);
    if k == last {
      var all := OfflineAlarms(alarms, devices, muted, now);
      assert Has(all[|all| - 1], d, Offline(d));
    } else {
      FiringIsAdded(alarms, devices[..last], muted, now, k);
      IsOpenConcat(before, OfflineAlarms(alarms, devices, muted, now)[|before|..], d, Offline(d));
      assert before + OfflineAlarms(alarms, devices, muted, now)[|before|..] == OfflineAlarms(alarms, devices, muted, now);
    }
  }

  lemma {:induction false} FailureAlarmsAre(alarms: seq<Alarm>, failing: seq<int>, now: Time, i: nat) returns (k: nat)
    requires i < |FailureAlarms(alarms, failing, now)|
    ensures k < |failing| && !IsOpen(alarms, failing[k], ExecutionFailures(failing[k]))
    ensures FailureAlarms(alarms, failing, now)[i] == Alarm(failing[k], ExecutionFailures(failing[k]), true, now, None)
  {
    var last := |failing| - 1;
    if i < |FailureAlarms(alarms, failing[..last], now)| {
      k := FailureAlarmsAre(alarms, failing[..last], now, i);
    } else {
      k := last;
    }
  }

  lemma {:induction false} FailingIsAdded(alarms: seq<Alarm>, failing: seq<int>, now: Time, k: nat)
    requires k < |failing| && !IsOpen(alarms, failing[k], ExecutionFailures(failing[k]))
    ensures IsOpen(FailureAlarms(alarms, failing, now), failing[k], ExecutionFailures(failing[k]))
  {
    var last := |failing| - 1;
    var d := failing[k];
    var before := FailureAlarms(alarms, failing[..last], now);
    if k == last {
      var all := FailureAlarms(alarms, failing, now);
      assert Has(all[|all| - 1], d, ExecutionFailures(d));
    } else {
      FailingIsAdded(alarms, failing[..last], now, k);
      IsOpenConcat(before, FailureAlarms(alarms, failing, now)[|before|..], d, ExecutionFailures(d));
      assert before + FailureAlarms(alarms, failing, now)[|before|..] == FailureAlarms(alarms, failing, now);
    }
  }

  lemma SettledIsOpen(alarms: seq<Alarm>, devices: seq<Seen>, now: Time, device: int, key: AlarmKey)
    ensures IsOpen(Settled(alarms, devices, now), device, key) <==>
            IsOpen(alarms, device, key)
            && !(key == Offline(device) && exists k | 0 <= k < |devices| :: devices[k].device == device && !IsOffline(devices[k], now))
  {
    var settled := Settled(alarms, devices, now);
    if IsOpen(alarms, device, key) {
      var j :| 0 <= j < |alarms| && Has(alarms[j], device, key);
      if !Recovers(alarms[j], devices, now) {
        assert Has(settled[j], device, key);
      }
    }
    if IsOpen(settled, device, key) {
      var j :| 0 <= j < |settled| && Has(settled[j], device, key);
      assert Has(alarms[j], device, key) && !Recovers(alarms[j], devices, now);
    }
  }

  /** The set-based formula: after the loop over any list of distinct devices, the offline alarm of a listed device is
      open exactly when it is overdue and not in maintenance, or was open and is still offline.  */
  lemma OfflineAlarmExactly(b: Board, r: Readings, k: nat)
    requires Distinct(r.devices) && k < |r.devices|
    ensures var d := r.devices[k];
            IsOpen(Swept(b, r).alarms, d.device, Offline(d.device)) <==>
            Fires(d, Muted(Swept(b, r).windows, r.now), r.now)
            || (IsOpen(b.alarms, d.device, Offline(d.device)) && IsOffline(d, r.now))
  {
    var d := r.devices[k];
    var key := Offline(d.device);
    var muted := Muted(Swept(b, r).windows, r.now);
    var kept, added := Settled(b.alarms, r.devices, r.now), OfflineAlarms(b.alarms, r.devices, muted, r.now);
    var failures := FailureAlarms(b.alarms, r.failing, r.now);
    IsOpenConcat(kept + added, failures, d.device, key);
    IsOpenConcat(kept, added, d.device, key);
    SettledIsOpen(b.alarms, r.devices, r.now, d.device, key);
    if IsOpen(added, d.device, key) {
      var i :| 0 <= i < |added| && Has(added[i], d.device, key);
      var j := OfflineAlarmsAre(b.alarms, r.devices, muted, r.now, i);
      assert j == k;
    }
    if IsOpen(failures, d.device, key) {
      var i :| 0 <= i < |failures| && Has(failures[i], d.device, key);
      var j := FailureAlarmsAre(b.alarms, r.failing, r.now, i);
      assert false;
    }
    if Fires(d, muted, r.now) && !IsOpen(b.alarms, d.device, key) {
      FiringIsAdded(b.alarms, r.devices, muted, r.now, k);
    }
  }

  /** The same over the rows and readings as they were before the sweep: overdue means a last heartbeat more than five
      minutes old, in maintenance a window of the device around now that is neither completed nor cancelled, and offline a
      last heartbeat more than two minutes old.  */
  lemma OfflineAlarmWhen(b: Board, r: Readings, k: nat)
    requires Distinct(r.devices) && k < |r.devices|
    ensures var Seen(device, lastSeen) := r.devices[k];
            var covered := exists j | 0 <= j < |b.windows| ::
              && b.windows[j].device == Some(device) && b.windows[j].status in {Scheduled, WindowActive}
              && b.windows[j].startsAt <= r.now && r.now < b.windows[j].endsAt;
            IsOpen(Swept(b, r).alarms, device, Offline(device)) <==>
            || (lastSeen.Some? && r.now - lastSeen.value > 300_000_000 && !covered)
            || (IsOpen(b.alarms, device, Offline(device)) && lastSeen.Some? && r.now - lastSeen.value > 120_000_000)
  {
    OfflineAlarmExactly(b, r, k);
    var device := r.devices[k].device;
    var after := Swept(b, r).windows;
    if device in Muted(after, r.now) {
      var w :| w in after && w.status.WindowActive? && w.startsAt <= r.now < w.endsAt && w.device == Some(device);
      var j :| 0 <= j < |after| && after[j] == w;
      assert b.windows[j].device == Some(device);
    }
    if j :| 0 <= j < |b.windows| && b.windows[j].device == Some(device) && b.windows[j].status in {Scheduled, WindowActive}
                             && b.windows[j].startsAt <= r.now && r.now < b.windows[j].endsAt {
      assert after[j] in after && after[j].status.WindowActive?;
    }
  }

  /** Where a window stands after a sweep. */
  lemma WindowAfter(b: Board, r: Readings, k: nat)
    requires k < |b.windows|
    ensures var w, after := b.windows[k], Swept(b, r).windows;
            && |after| == |b.windows|
            && after[k] == w.(status := after[k].status)
            && (after[k].status == WindowActive <==>
                (w.status == Scheduled && w.startsAt <= r.now && r.now < w.endsAt) || (w.status == WindowActive && r.now < w.endsAt))
            && (after[k].status == WindowCompleted <==>
                w.status == WindowCompleted || (w.status in {Scheduled, WindowActive} && w.endsAt <= r.now))
            && (after[k].status == Scheduled <==> w.status == Scheduled && r.now < w.endsAt && r.now < w.startsAt)
  {
  }

  /** What a sweep does to alarm rows: it closes some open ones now, and adds open ones of now. */
  lemma AlarmRowsAfter(b: Board, r: Readings, k: nat)
    requires k < |Swept(b, r).alarms|
    ensures var row := Swept(b, r).alarms[k];
            if k < |b.alarms| then
              row == b.alarms[k] || (b.alarms[k].open && row == b.alarms[k].(open := false, closedAt := Some(r.now)))
            else row.open && row.openedAt == r.now && row.closedAt == None
                 && (row.key == Offline(row.device) || row.key == ExecutionFailures(row.device))
  {
    var muted := Muted(Swept(b, r).windows, r.now);
    var kept, added := Settled(b.alarms, r.devices, r.now), OfflineAlarms(b.alarms, r.devices, muted, r.now);
    if |kept| <= k < |kept| + |added| {
      var j := OfflineAlarmsAre(b.alarms, r.devices, muted, r.now, k - |kept|);
    } else if |kept| + |added| <= k {
      var j := FailureAlarmsAre(b.alarms, r.failing, r.now, k - |kept| - |added|);
    }
  }

  /** The offline alarms of devices outside the list, and every existing failure alarm, stay as they are. */
  lemma OthersUntouched(b: Board, r: Readings, k: nat)
    requires k < |b.alarms|
    requires !(b.alarms[k].key == Offline(b.alarms[k].device) && Listed(r.devices, b.alarms[k].device))
    ensures Swept(b, r).alarms[k] == b.alarms[k]
  {
  }

  lemma NothingRaisedElsewhere(b: Board, r: Readings, device: int)
    requires !Listed(r.devices, device)
    ensures IsOpen(Swept(b, r).alarms, device, Offline(device)) <==> IsOpen(b.alarms, device, Offline(device))
  {
    var key := Offline(device);
    var muted := Muted(Swept(b, r).windows, r.now);
    var kept, added := Settled(b.alarms, r.devices, r.now), OfflineAlarms(b.alarms, r.devices, muted, r.now);
    var failures := FailureAlarms(b.alarms, r.failing, r.now);
    IsOpenConcat(kept + added, failures, device, key);
    IsOpenConcat(kept, added, device, key);
    SettledIsOpen(b.alarms, r.devices, r.now, device, key);
    if IsOpen(added, device, key) {
      var i :| 0 <= i < |added| && Has(added[i], device, key);
      var j := OfflineAlarmsAre(b.alarms, r.devices, muted, r.now, i);
      assert false;
    }
    if IsOpen(failures, device, key) {
      var i :| 0 <= i < |failures| && Has(failures[i], device, key);
      var j := FailureAlarmsAre(b.alarms, r.failing, r.now, i);
      assert false;
    }
  }

  lemma FailureListed(b: Board, r: Readings, device: int)
    ensures IsOpen(Swept(b, r).alarms, device, ExecutionFailures(device)) <==>
            IsOpen(b.alarms, device, ExecutionFailures(device)) || device in r.failing
  {
    var key := ExecutionFailures(device);
    var muted := Muted(Swept(b, r).windows, r.now);
    var kept, added := Settled(b.alarms, r.devices, r.now), OfflineAlarms(b.alarms, r.devices, muted, r.now);
    var failures := FailureAlarms(b.alarms, r.failing, r.now);
    IsOpenConcat(kept + added, failures, device, key);
    IsOpenConcat(kept, added, device, key);
    SettledIsOpen(b.alarms, r.devices, r.now, device, key);
    if IsOpen(added, device, key) {
      var i :| 0 <= i < |added| && Has(added[i], device, key);
      var j := OfflineAlarmsAre(b.alarms, r.devices, muted, r.now, i);
      assert false;
    }
    if IsOpen(failures, device, key) {
      var i :| 0 <= i < |failures| && Has(failures[i], device, key);
      var j := FailureAlarmsAre(b.alarms, r.failing, r.now, i);
    }
    if device in r.failing && !IsOpen(b.alarms, device, key) {
      var j :| 0 <= j < |r.failing| && r.failing[j] == device;
      FailingIsAdded(b.alarms, r.failing, r.now, j);
    }
  }

  /** A failure alarm is open afterwards exactly when it was open or the device, active or not, had three failed or
      timed-out executions in the last ten minutes.  */
  lemma FailureAlarmExactly(b: Board, r: Readings, executions: map<int, Execution>, device: int)
    requires FailureQuery(executions, r.failing, r.now)
    ensures IsOpen(Swept(b, r).alarms, device, ExecutionFailures(device)) <==>
            || IsOpen(b.alarms, device, ExecutionFailures(device))
            || |set e | e in executions && executions[e].device == device && r.now - executions[e].createdAt <= 600_000_000
                        && executions[e].status in {ExecFailed, ExecTimeout}| >= 3
  {
    FailureListed(b, r, device);
    assert Failures(executions, device, r.now) ==
           set e | e in executions && executions[e].device == device && r.now - executions[e].createdAt <= 600_000_000
                   && executions[e].status in {ExecFailed, ExecTimeout};
  }
}
