/** No reachable state is deadlocked, and every run ends. */
module PaymentProgress {
  import opened Schema
  import opened Checkout
  import opened PaymentMachine
  import opened PaymentInvariant
  import opened Sums

  // ---- waiting

  /** Waiting for a lock: the advisory lock, or the one row a payment locks. */
  predicate Waiting(s: State, i: nat)
    requires i < |s.txns|
  {
    var x := s.txns[i];
    if x.pc.AwaitKey? then KeyOf(x) in s.locks
    else x.pc.Charging? && RowToLock(s.tables, x.call, x.terms).Some? && RowToLock(s.tables, x.call, x.terms).value in s.locks
  }

  ghost predicate AllEnded(s: State) {
    forall i | 0 <= i < |s.txns| :: Ended(s.txns[i])
  }

  // ---- the measure

  /** A bound on the statements a transaction still has to run. */
  function Remaining(x: Txn): nat {
    match x.pc
    case AwaitKey => 30
    case Lookup => 29
    case Checking(g) => 28 - Rank(g)
    case Charging => 15
    case Updating => 14
    case InsertingPayment => 13
    case InsertingRow(next) => if next > 6 then 2 else 12 - next
    case Committing => 1
    case _ => 0
  }

  function Total(txns: seq<Txn>): nat {
    Sum(txns, Remaining)
  }

  /** A statement that does not wait brings its transaction closer to its end. */
  ghost predicate MovesOn(s: State, s': State, i: nat)
    requires i < |s.txns|
  {
    && |s'.txns| == |s.txns| && s'.txns == s.txns[i := s'.txns[i]]
    && if Waiting(s, i) then s' == s else Remaining(s'.txns[i]) < Remaining(s.txns[i])
  }

  lemma CheckMovesOn(s: State, i: nat, env: Env, clock: Time)
    requires i < |s.txns| && (s.txns[i].pc.Checking? || s.txns[i].pc.Lookup?)
    ensures MovesOn(s, Step(s, i, env, clock), i)
  {
    var x := s.txns[i];
    if x.pc.Checking? {
      var g := x.pc.guard;
      assert g != Instrument ==> Rank(Next(g)) == Rank(g) + 1;
      var r := Check(g, env, s.tables.qrs, x.call, x.now, x.terms);
      assert r.Failure? ==> Ended(Step(s, i, env, clock).txns[i]);
    }
  }

  lemma ChargeMovesOn(s: State, i: nat)
    requires i < |s.txns| && s.txns[i].pc.Charging?
    ensures MovesOn(s, ChargeStep(s, i), i)
  {
  }

  lemma WriteMovesOn(s: State, i: nat)
    requires i < |s.txns|
    ensures s.txns[i].pc.Updating? ==> MovesOn(s, UpdateStep(s, i), i)
    ensures s.txns[i].pc.InsertingPayment? ==> MovesOn(s, InsertPaymentStep(s, i), i)
  {
  }

  lemma CommitMovesOn(origin: Tables, s: State, i: nat)
    requires Inv(origin, s) && i < |s.txns| && s.txns[i].pc.Committing?
    ensures MovesOn(s, CommitStep(s, i), i)
  {
    assert TxnOk(s.tables, s.sequence, s.txns[i]);
  }

  lemma StepMovesOn(origin: Tables, s: State, i: nat, env: Env, clock: Time)
    requires Inv(origin, s) && i < |s.txns| && !Ended(s.txns[i])
    ensures MovesOn(s, Step(s, i, env, clock), i)
  {
    match s.txns[i].pc
    case AwaitKey =>
    case Lookup => CheckMovesOn(s, i, env, clock);
    case Checking(g) => CheckMovesOn(s, i, env, clock);
    case Charging => ChargeMovesOn(s, i);
    case Updating => WriteMovesOn(s, i);
    case InsertingPayment => WriteMovesOn(s, i);
    case InsertingRow(_) => InsertRowMovesOn(origin, s, i);
    case Committing => CommitMovesOn(origin, s, i);
  }

  lemma InsertNextMovesOn(s: State, i: nat, statements: seq<Row>)
    requires i < |s.txns| && s.txns[i].pc.InsertingRow? && s.txns[i].pc.next <= |statements| <= 6
    ensures MovesOn(s, InsertNext(s, i, s.txns[i].pc.next, statements), i)
  {
  }

  lemma InsertRowMovesOn(origin: Tables, s: State, i: nat)
    requires Inv(origin, s) && i < |s.txns| && s.txns[i].pc.InsertingRow?
    ensures MovesOn(s, InsertRowStep(s, i, s.txns[i].pc.next), i)
  {
    var x := s.txns[i];
    assert TxnOk(s.tables, s.sequence, x);
    InsertNextMovesOn(s, i, Artefacts(x.id, x.call, x.now, x.terms, x.outcome));
  }

  lemma ApplyMovesOn(origin: Tables, s: State, e: Event)
    requires Inv(origin, s)
    ensures var s' := Apply(s, e);
            |s'.txns| == |s.txns| && (s' == s || Total(s'.txns) < Total(s.txns))
  {
    if e.txn < |s.txns| && !Ended(s.txns[e.txn]) {
      var s' := Apply(s, e);
      if e.Exec? {
        StepMovesOn(origin, s, e.txn, e.env, e.now);
      }
      TotalDrops(s, s', e.txn);
    }
  }

  lemma TotalDrops(s: State, s': State, i: nat)
    requires i < |s.txns| && |s'.txns| == |s.txns| && s'.txns == s.txns[i := s'.txns[i]]
    ensures Total(s'.txns) == Total(s.txns) - Remaining(s.txns[i]) + Remaining(s'.txns[i])
  {
    SumOfUpdate(s.txns, Remaining, i, s'.txns[i]);
  }

  /** The number of events that changed something. */
  ghost function Effective(s: State, events: seq<Event>): nat {
    if events == [] then 0
    else
      var before := events[..|events| - 1];
      Effective(s, before) + if Run(s, events) == Run(s, before) then 0 else 1
  }

  /** Every run ends: N requests take at most 30 N effective events, whatever the schedule and the failures. */
  lemma {:induction false} EveryRunEnds(t: Tables, sequence: int, calls: seq<Call>, events: seq<Event>)
    requires Ready(t, sequence)
    ensures var s0 := Start(t, sequence, calls);
            Effective(s0, events) + Total(Run(s0, events).txns) <= 30 * |calls|
  {
    var s0 := Start(t, sequence, calls);
    if events == [] {
      SumOfEqual(s0.txns, Remaining, 30);
    } else {
      var before := events[..|events| - 1];
      EveryRunEnds(t, sequence, calls, before);
      RunKeepsInv(t, sequence, calls, before);
      ApplyMovesOn(t, Run(s0, before), events[|events| - 1]);
    }
  }

  // ---- no deadlock

  lemma RowHolderIsJudged(origin: Tables, s: State, j: nat, r: Resource)
    requires Inv(origin, s) && j < |s.txns| && r in s.locks && s.locks[r] == j && !r.KeyLock?
    ensures Judged(s.txns[j])
  {
    assert r in Owned(s.txns[j]);
    assert TxnOk(s.tables, s.sequence, s.txns[j]);
  }

  /** A payment takes its advisory lock before its one row lock, so someone can always move: the holder of a row,
      else a holder of an advisory lock, else anyone.  */
  lemma SomeoneMoves(origin: Tables, s: State) returns (i: nat)
    requires Inv(origin, s) && !AllEnded(s)
    ensures i < |s.txns| && !Ended(s.txns[i]) && !Waiting(s, i)
  {
    if k :| 0 <= k < |s.txns| && Judged(s.txns[k]) {
      return k;
    }
    if k :| 0 <= k < |s.txns| && s.txns[k].pc.Charging? {
      var row := RowToLock(s.tables, s.txns[k].call, s.txns[k].terms);
      if row.Some? && row.value in s.locks {
        var j := s.locks[row.value];
        RowHolderIsJudged(origin, s, j, row.value);
      }
      return k;
    }
    if k :| 0 <= k < |s.txns| && (s.txns[k].pc.Checking? || s.txns[k].pc.Lookup?) {
      return k;
    }
    assert forall j | 0 <= j < |s.txns| :: Owned(s.txns[j]) == {};
    var k :| 0 <= k < |s.txns| && !Ended(s.txns[k]);
    return k;
  }

  ghost predicate Faultless(events: seq<Event>, env: Env, clock: Time) {
    forall k | 0 <= k < |events| :: events[k].Exec? && events[k].env == env && events[k].now == clock
  }

  lemma FaultlessCons(e: Event, rest: seq<Event>, env: Env, clock: Time)
    requires e == Exec(e.txn, env, clock) && Faultless(rest, env, clock)
    ensures Faultless([e] + rest, env, clock)
  {
  }

  lemma RegroupEvents(past: seq<Event>, e: Event, rest: seq<Event>)
    ensures past + [e] + rest == past + ([e] + rest)
  {
  }

  /** Whatever has happened so far, the open requests can all be brought to an end without another failure. */
  lemma {:induction false} NeverStuck(t: Tables, sequence: int, calls: seq<Call>, past: seq<Event>, env: Env, clock: Time)
    returns (future: seq<Event>)
    requires Ready(t, sequence)
    ensures AllEnded(Run(Start(t, sequence, calls), past + future))
    ensures Faultless(future, env, clock)
    decreases Total(Run(Start(t, sequence, calls), past).txns)
  {
    if AllEnded(Run(Start(t, sequence, calls), past)) {
      assert past + [] == past;
      return [];
    }
    var e := NextMove(t, sequence, calls, past, env, clock);
    var rest := NeverStuck(t, sequence, calls, past + [e], env, clock);
    FaultlessCons(e, rest, env, clock);
    RegroupEvents(past, e, rest);
    return [e] + rest;
  }

  lemma NextMove(t: Tables, sequence: int, calls: seq<Call>, past: seq<Event>, env: Env, clock: Time) returns (e: Event)
    requires Ready(t, sequence) && !AllEnded(Run(Start(t, sequence, calls), past))
    ensures e == Exec(e.txn, env, clock)
    ensures Total(Run(Start(t, sequence, calls), past + [e]).txns) < Total(Run(Start(t, sequence, calls), past).txns)
  {
    RunKeepsInv(t, sequence, calls, past);
    var i := SomeoneMoves(t, Run(Start(t, sequence, calls), past));
    e := Exec(i, env, clock);
    MoveDecreases(t, Run(Start(t, sequence, calls), past), i, env, clock);
    RunSnoc(Start(t, sequence, calls), past, e);
  }

  lemma MoveDecreases(origin: Tables, s: State, i: nat, env: Env, clock: Time)
    requires Inv(origin, s) && i < |s.txns| && !Ended(s.txns[i]) && !Waiting(s, i)
    ensures Total(Apply(s, Exec(i, env, clock)).txns) < Total(s.txns)
  {
    StepMovesOn(origin, s, i, env, clock);
    TotalDrops(s, Apply(s, Exec(i, env, clock)), i);
  }
}
