/** Sweeps one after the other. */
module SweepHistory {
  import opened Schema
  import opened Checkout
  import opened Sums
  import opened Monitoring
  import opened MonitoringLaws

  // ---- never a second OPEN row per (device, key)

  lemma OneOpenConcat(a: seq<Alarm>, b: seq<Alarm>)
    requires OneOpen(a) && OneOpen(b)
    requires forall k | 0 <= k < |b| && b[k].open :: !IsOpen(a, b[k].device, b[k].key)
    ensures OneOpen(a + b)
  {
    forall j, k | 0 <= j < k < |a + b| && (a + b)[j].open && (a + b)[k].open
      ensures (a + b)[j].device != (a + b)[k].device || (a + b)[j].key != (a + b)[k].key
    {
      if j < |a| <= k {
        assert !IsOpen(a, b[k - |a|].device, b[k - |a|].key);
        assert !Has(a[j], b[k - |a|].device, b[k - |a|].key);
      }
    }
  }

  lemma {:induction false} OfflineAlarmsOneOpen(alarms: seq<Alarm>, devices: seq<Seen>, muted: set<int>, now: Time)
    requires Distinct(devices)
    ensures OneOpen(OfflineAlarms(alarms, devices, muted, now))
  {
    if devices != [] {
      var last := |devices| - 1;
      OfflineAlarmsOneOpen(alarms, devices[..last], muted, now);
      var before := OfflineAlarms(alarms, devices[..last], muted, now);
      forall i | 0 <= i < |before|
        ensures before[i].device != devices[last].device
      {
        var k := OfflineAlarmsAre(alarms, devices[..last], muted, now, i);
      }
    }
  }

  lemma {:induction false} FailureAlarmsOneOpen(alarms: seq<Alarm>, failing: seq<int>, now: Time)
    requires DistinctIds(failing)
    ensures OneOpen(FailureAlarms(alarms, failing, now))
  {
    if failing != [] {
      var last := |failing| - 1;
      FailureAlarmsOneOpen(alarms, failing[..last], now);
      var before := FailureAlarms(alarms, failing[..last], now);
      forall i | 0 <= i < |before|
        ensures before[i].device != failing[last]
      {
        var k := FailureAlarmsAre(alarms, failing[..last], now, i);
      }
    }
  }

  lemma SweptKeepsOneOpen(b: Board, r: Readings)
    requires OneOpen(b.alarms) && Distinct(r.devices) && DistinctIds(r.failing)
    ensures OneOpen(Swept(b, r).alarms)
  {
    var muted := Muted(Swept(b, r).windows, r.now);
    var kept, added := Settled(b.alarms, r.devices, r.now), OfflineAlarms(b.alarms, r.devices, muted, r.now);
    var failures := FailureAlarms(b.alarms, r.failing, r.now);
    OfflineAlarmsOneOpen(b.alarms, r.devices, muted, r.now);
    FailureAlarmsOneOpen(b.alarms, r.failing, r.now);
    forall i | 0 <= i < |added|
      ensures !IsOpen(kept, added[i].device, added[i].key)
    {
      var k := OfflineAlarmsAre(b.alarms, r.devices, muted, r.now, i);
      SettledIsOpen(b.alarms, r.devices, r.now, added[i].device, added[i].key);
    }
    OneOpenConcat(kept, added);
    forall i | 0 <= i < |failures|
      ensures !IsOpen(kept + added, failures[i].device, failures[i].key)
    {
      var k := FailureAlarmsAre(b.alarms, r.failing, r.now, i);
      var d, key := failures[i].device, failures[i].key;
      SettledIsOpen(b.alarms, r.devices, r.now, d, key);
      IsOpenConcat(kept, added, d, key);
      if IsOpen(added, d, key) {
        var j :| 0 <= j < |added| && Has(added[j], d, key);
        var k := OfflineAlarmsAre(b.alarms, r.devices, muted, r.now, j);
        assert false;
      }
    }
    OneOpenConcat(kept + added, failures);
  }

  // ---- the counters are the change in OPEN rows

  function CountOpen(alarms: seq<Alarm>): nat {
    Sum(alarms, (a: Alarm) => One(a.open))
  }

  lemma {:induction false} SettledCount(alarms: seq<Alarm>, devices: seq<Seen>, now: Time)
    ensures CountOpen(Settled(alarms, devices, now)) + CountRecovering(alarms, devices, now) == CountOpen(alarms)
  {
    if alarms != [] {
      var last := |alarms| - 1;
      assert Settled(alarms, devices, now)[..last] == Settled(alarms[..last], devices, now);
      SettledCount(alarms[..last], devices, now);
    }
  }

  lemma AllOpenCount(alarms: seq<Alarm>)
    requires forall k | 0 <= k < |alarms| :: alarms[k].open
    ensures CountOpen(alarms) == |alarms|
  {
    SumOfEqual(alarms, (a: Alarm) => One(a.open), 1);
  }

  /** Opened minus resolved is the change in OPEN rows. */
  lemma CountersBalance(b: Board, r: Readings)
    ensures CountOpen(Swept(b, r).alarms) - CountOpen(b.alarms) == Tally(b, r).raised - Tally(b, r).resolved
  {
    var muted := Muted(Swept(b, r).windows, r.now);
    var kept, added := Settled(b.alarms, r.devices, r.now), OfflineAlarms(b.alarms, r.devices, muted, r.now);
    var failures := FailureAlarms(b.alarms, r.failing, r.now);
    SumOfConcat(kept + added, failures, (a: Alarm) => One(a.open));
    SumOfConcat(kept, added, (a: Alarm) => One(a.open));
    SettledCount(b.alarms, r.devices, r.now);
    forall i | 0 <= i < |added|
      ensures added[i].open
    {
      var k := OfflineAlarmsAre(b.alarms, r.devices, muted, r.now, i);
    }
    forall i | 0 <= i < |failures|
      ensures failures[i].open
    {
      var k := FailureAlarmsAre(b.alarms, r.failing, r.now, i);
    }
    AllOpenCount(added);
    AllOpenCount(failures);
  }

  // ---- a second sweep at the same instant

  lemma AdvanceTwice(w: Window, now: Time, later: Time)
    requires now <= later
    ensures Advance(Advance(w, now), later) == Advance(w, later)
    ensures !ToActivate(Advance(w, now), now) && !ToComplete(Advance(w, now), now)
  {
  }

  lemma WindowsSettled(windows: seq<Window>, now: Time)
    ensures var moved := AdvanceAll(windows, now);
            AdvanceAll(moved, now) == moved && CountToActivate(moved, now) == 0 && CountToComplete(moved, now) == 0
  {
    var moved := AdvanceAll(windows, now);
    forall k | 0 <= k < |windows|
      ensures Advance(moved[k], now) == moved[k] && !ToActivate(moved[k], now) && !ToComplete(moved[k], now)
    {
      AdvanceTwice(windows[k], now, now);
    }
    SumOfEqual(moved, w => One(ToActivate(w, now)), 0);
    SumOfEqual(moved, w => One(ToComplete(w, now)), 0);
  }

  /** Swept again at the same instant over the same rows, in any order: nothing changes and nothing is counted. */
  lemma SecondSweepIsIdle(b: Board, r: Readings, r': Readings)
    requires Distinct(r.devices) && DistinctIds(r.failing) && r'.now == r.now
    requires forall k | 0 <= k < |r'.devices| :: r'.devices[k] in r.devices
    requires forall k | 0 <= k < |r'.failing| :: r'.failing[k] in r.failing
    ensures var b' := Swept(b, r);
            Swept(b', r') == b' && Tally(b', r') == Counts(0, 0, 0, 0, |r'.devices|)
  {
    var b' := Swept(b, r);
    var now := r.now;
    WindowsSettled(b.windows, now);
    NoneRecovers(b, r, r');
    NoneRaised(b, r, r');
    assert Settled(b'.alarms, r'.devices, now) == b'.alarms;
    SumOfEqual(b'.alarms, a => One(Recovers(a, r'.devices, now)), 0);
    assert b'.alarms + [] + [] == b'.alarms;
  }

  lemma NoneRecovers(b: Board, r: Readings, r': Readings)
    requires Distinct(r.devices) && r'.now == r.now
    requires forall k | 0 <= k < |r'.devices| :: r'.devices[k] in r.devices
    ensures var b' := Swept(b, r); forall j | 0 <= j < |b'.alarms| :: !Recovers(b'.alarms[j], r'.devices, r.now)
  {
    var b' := Swept(b, r);
    forall j, k | 0 <= j < |b'.alarms| && 0 <= k < |r'.devices|
                  && Has(b'.alarms[j], r'.devices[k].device, Offline(r'.devices[k].device))
      ensures IsOffline(r'.devices[k], r.now)
    {
      var m :| 0 <= m < |r.devices| && r.devices[m] == r'.devices[k];
      OfflineAlarmExactly(b, r, m);
      assert IsOpen(b'.alarms, r.devices[m].device, Offline(r.devices[m].device));
    }
  }

  lemma NoneRaised(b: Board, r: Readings, r': Readings)
    requires Distinct(r.devices) && DistinctIds(r.failing) && r'.now == r.now
    requires forall k | 0 <= k < |r'.devices| :: r'.devices[k] in r.devices
    requires forall k | 0 <= k < |r'.failing| :: r'.failing[k] in r.failing
    ensures var b' := Swept(b, r);
            && OfflineAlarms(b'.alarms, r'.devices, Muted(b'.windows, r.now), r.now) == []
            && FailureAlarms(b'.alarms, r'.failing, r.now) == []
  {
    var b' := Swept(b, r);
    var muted := Muted(b'.windows, r.now);
    if OfflineAlarms(b'.alarms, r'.devices, muted, r.now) != [] {
      var k := OfflineAlarmsAre(b'.alarms, r'.devices, muted, r.now, 0);
      var m :| 0 <= m < |r.devices| && r.devices[m] == r'.devices[k];
      OfflineAlarmExactly(b, r, m);
      assert false;
    }
    if FailureAlarms(b'.alarms, r'.failing, r.now) != [] {
      var k := FailureAlarmsAre(b'.alarms, r'.failing, r.now, 0);
      FailureListed(b, r, r'.failing[k]);
      assert false;
    }
  }

  // ---- many sweeps

  ghost function SweepAll(b: Board, rs: seq<Readings>): Board {
    if rs == [] then b else Swept(SweepAll(b, rs[..|rs| - 1]), rs[|rs| - 1])
  }

  ghost predicate InTime(rs: seq<Readings>) {
    forall j, k | 0 <= j <= k < |rs| :: rs[j].now <= rs[k].now
  }

  /** Sweeps at non-decreasing times leave the windows the last one alone would have left. */
  lemma {:induction false} OnlyTheLastSweepMatters(b: Board, rs: seq<Readings>)
    requires rs != [] && InTime(rs)
    ensures SweepAll(b, rs).windows == AdvanceAll(b.windows, rs[|rs| - 1].now)
  {
    var last := |rs| - 1;
    if last > 0 {
      OnlyTheLastSweepMatters(b, rs[..last]);
      assert rs[..last][last - 1] == rs[last - 1];
      forall k | 0 <= k < |b.windows|
        ensures Advance(Advance(b.windows[k], rs[last - 1].now), rs[last].now) == Advance(b.windows[k], rs[last].now)
      {
        AdvanceTwice(b.windows[k], rs[last - 1].now, rs[last].now);
      }
    } else {
      assert SweepAll(b, rs[..0]) == b;
    }
  }

  /** The devices with a window, neither completed nor cancelled, that contains `now`. */
  function Covered(windows: seq<Window>, now: Time): set<int> {
    set w | w in windows && (w.status.Scheduled? || w.status.WindowActive?) && w.startsAt <= now < w.endsAt && w.device.Some? :: w.device.value
  }

  lemma MutedIsCovered(windows: seq<Window>, now: Time)
    ensures Muted(AdvanceAll(windows, now), now) == Covered(windows, now)
  {
    var moved := AdvanceAll(windows, now);
    forall d | d in Covered(windows, now)
      ensures d in Muted(moved, now)
    {
      var k :| 0 <= k < |windows| && (windows[k].status.Scheduled? || windows[k].status.WindowActive?)
               && windows[k].startsAt <= now < windows[k].endsAt && windows[k].device == Some(d);
      assert moved[k] in moved && moved[k].device == Some(d);
    }
    forall d | d in Muted(moved, now)
      ensures d in Covered(windows, now)
    {
      var k :| 0 <= k < |moved| && moved[k].status.WindowActive? && moved[k].startsAt <= now < moved[k].endsAt && moved[k].device == Some(d);
      assert windows[k] in windows && windows[k].device == Some(d);
    }
  }

  /** The devices the payment guard refuses at the instant of a sweep are those covered by a window. */
  lemma PaymentsAgree(b: Board, r: Readings, device: int)
    ensures InMaintenance(Swept(b, r).windows, device, r.now) <==> device in Covered(b.windows, r.now)
  {
    MutedIsCovered(b.windows, r.now);
    var moved := Swept(b, r).windows;
    if InMaintenance(moved, device, r.now) {
      var w :| w in moved && w.device == Some(device) && w.status.WindowActive? && w.startsAt <= r.now < w.endsAt;
      assert device in Muted(moved, r.now);
    }
  }

  function RowOf(devices: seq<Seen>, device: int): (d: Seen)
    requires Listed(devices, device)
    ensures d in devices && d.device == device
  {
    var last := |devices| - 1;
    if devices[last].device == device then devices[last] else RowOf(devices[..last], device)
  }

  /** Sweep `r` found the device offline. */
  predicate FoundOffline(r: Readings, device: int)
    requires Listed(r.devices, device)
  {
    IsOffline(RowOf(r.devices, device), r.now)
  }

  /** Sweep `r` fired the alarm, given the windows before all sweeps. */
  predicate Fired(windows: seq<Window>, r: Readings, device: int)
    requires Listed(r.devices, device)
  {
    Fires(RowOf(r.devices, device), Covered(windows, r.now), r.now)
  }

  /** The device is ACTIVE in every sweep. */
  ghost predicate AlwaysListed(rs: seq<Readings>, device: int) {
    forall k | 0 <= k < |rs| :: Distinct(rs[k].devices) && Listed(rs[k].devices, device)
  }

  /** The alarm was raised before sweep `m` (0: before all sweeps) and every sweep from `m` on found it offline. */
  ghost predicate OpenSince(b: Board, rs: seq<Readings>, device: int, m: nat)
    requires m <= |rs| && AlwaysListed(rs, device)
  {
    && (if m == 0 then IsOpen(b.alarms, device, Offline(device)) else Fired(b.windows, rs[m - 1], device))
    && forall j | m <= j < |rs| :: FoundOffline(rs[j], device)
  }

  lemma LastSweep(b: Board, rs: seq<Readings>, device: int)
    requires rs != [] && InTime(rs) && AlwaysListed(rs, device)
    ensures var last := |rs| - 1;
            IsOpen(SweepAll(b, rs).alarms, device, Offline(device)) <==>
            Fired(b.windows, rs[last], device)
            || (IsOpen(SweepAll(b, rs[..last]).alarms, device, Offline(device)) && FoundOffline(rs[last], device))
  {
    var last := |rs| - 1;
    var r := rs[last];
    var row := RowOf(r.devices, device);
    var k :| 0 <= k < |r.devices| && r.devices[k] == row;
    OfflineAlarmExactly(SweepAll(b, rs[..last]), r, k);
    OnlyTheLastSweepMatters(b, rs);
    MutedIsCovered(b.windows, r.now);
  }

  lemma OpenSinceStep(b: Board, rs: seq<Readings>, device: int, m: nat)
    requires rs != [] && m <= |rs| && AlwaysListed(rs, device)
    ensures OpenSince(b, rs, device, m) <==>
            if m == |rs| then Fired(b.windows, rs[|rs| - 1], device)
            else OpenSince(b, rs[..|rs| - 1], device, m) && FoundOffline(rs[|rs| - 1], device)
  {
    var before := rs[..|rs| - 1];
    assert forall j | 0 <= j < |before| :: before[j] == rs[j];
  }

  /** Some sweep fired the alarm, or it began open, and every later sweep found the device offline. */
  ghost predicate RaisedAndOffline(b: Board, rs: seq<Readings>, device: int)
    requires AlwaysListed(rs, device)
  {
    exists m | 0 <= m <= |rs| :: OpenSince(b, rs, device, m)
  }

  lemma RaisedStep(b: Board, rs: seq<Readings>, device: int)
    requires rs != [] && AlwaysListed(rs, device)
    ensures RaisedAndOffline(b, rs, device) <==>
            Fired(b.windows, rs[|rs| - 1], device)
            || (RaisedAndOffline(b, rs[..|rs| - 1], device) && FoundOffline(rs[|rs| - 1], device))
  {
    var before := rs[..|rs| - 1];
    if m :| 0 <= m <= |rs| && OpenSince(b, rs, device, m) {
      OpenSinceStep(b, rs, device, m);
    }
    if m :| 0 <= m <= |before| && OpenSince(b, before, device, m) {
      OpenSinceStep(b, rs, device, m);
    }
    OpenSinceStep(b, rs, device, |rs|);
  }

  /** Hysteresis over any run: the alarm of a continuously ACTIVE device is open exactly when some sweep fired it, or it
      began open, and every later sweep found the device offline.  */
  lemma {:induction false} OpenExactlyWhen(b: Board, rs: seq<Readings>, device: int)
    requires InTime(rs) && AlwaysListed(rs, device)
    ensures IsOpen(SweepAll(b, rs).alarms, device, Offline(device)) <==> RaisedAndOffline(b, rs, device)
  {
    if rs == [] {
      assert OpenSince(b, rs, device, 0) <==> IsOpen(b.alarms, device, Offline(device));
    } else {
      OpenExactlyWhen(b, rs[..|rs| - 1], device);
      LastSweep(b, rs, device);
      RaisedStep(b, rs, device);
    }
  }
}
