/** How one event can change a state, and the record of finished requests. */
module PaymentChange {
  import opened Schema
  import opened Checkout
  import opened PaymentMachine
  import opened PaymentInvariant

  /** Each finished request has exactly one entry, with its reply. */
  ghost predicate HistoryOk(s: State) {
    && (forall k | 0 <= k < |s.history| ::
          && s.history[k].txn < |s.txns|
          && s.txns[s.history[k].txn].call == s.history[k].call
          && s.txns[s.history[k].txn].pc == Finished(s.history[k].reply))
    && (forall j, k | 0 <= j < k < |s.history| :: s.history[j].txn != s.history[k].txn)
    && (forall i | 0 <= i < |s.txns| && s.txns[i].pc.Finished? :: exists k :: 0 <= k < |s.history| && s.history[k].txn == i)
  }

  lemma FinishKeepsHistory(s: State, i: nat, now: Time, committed: bool, reply: Reply)
    requires HistoryOk(s) && i < |s.txns| && !s.txns[i].pc.Finished?
    ensures HistoryOk(Finish(s, i, now, committed, reply))
  {
    var s' := Finish(s, i, now, committed, reply);
    forall j | 0 <= j < |s'.txns| && s'.txns[j].pc.Finished?
      ensures exists k :: 0 <= k < |s'.history| && s'.history[k].txn == j
    {
      if j == i {
        assert s'.history[|s.history|].txn == i;
      } else {
        var k :| 0 <= k < |s.history| && s.history[k].txn == j;
        assert s'.history[k].txn == j;
      }
    }
  }

  lemma OtherStepsKeepHistory(s: State, s': State, i: nat)
    requires HistoryOk(s) && i < |s.txns| && !s.txns[i].pc.Finished?
    requires |s'.txns| == |s.txns| && s'.txns == s.txns[i := s'.txns[i]] && !s'.txns[i].pc.Finished?
    requires s'.history == s.history
    ensures HistoryOk(s')
  {
    forall j | 0 <= j < |s'.txns| && s'.txns[j].pc.Finished?
      ensures exists k :: 0 <= k < |s'.history| && s'.history[k].txn == j
    {
      assert s.txns[j].pc.Finished?;
    }
  }

  /** How one event can change a state. */
  datatype Change =
    | Nothing
    | Local                                          // one transaction moves on; nothing is committed or answered
    | Answer(now: Time, reply: Reply)                // a request ends without a commit: replayed, refused or aborted
    | Commit

  predicate Inserting(x: Txn) {
    x.pc.InsertingPayment? || x.pc.InsertingRow?
  }

  ghost predicate Follows(s: State, e: Event, s': State, c: Change)
  {
    if c.Nothing? then s' == s
    else
      && e.txn < |s.txns|
      && var i, x := e.txn, s.txns[e.txn];
      && !Ended(x)
      && match c
         case Nothing => true
         case Local =>
           && |s'.txns| == |s.txns| && s'.txns == s.txns[i := s'.txns[i]] && s'.txns[i].call == x.call
           && !s'.txns[i].pc.Finished?
           && s'.history == s.history && s'.tables == s.tables
         case Answer(now, reply) =>
           && e.Exec?
           && (if x.pc.Lookup?
               then KeyTaken(s.tables.payments, x.call) && reply == Checkout.Replay(s.tables, x.call) && now == e.now
               else if x.pc.Checking?
               then reply.Refused? && now == x.now
                    && Check(x.pc.guard, e.env, s.tables.qrs, x.call, x.now, x.terms) == Failure(reply.code)
               else Inserting(x) && reply.Aborted? && now == x.now
                    && !ChecksHold(x.id, x.call, x.now, x.terms, x.outcome))
           && s' == Finish(s.(sequence := s'.sequence), i, now, false, reply)
         case Commit =>
           && e.Exec? && x.pc.Committing?
           && x.id !in s.tables.payments && !KeyTaken(s.tables.payments, x.call)
           && s'.tables == Settle(s.tables, x.call, x.now, x.id, x.terms)
           && s' == Finish(s.(tables := s'.tables), i, x.now, true, Accepted(Payload(s'.tables, x.id)))
  }

  lemma StatementIsLocal(s: State, i: nat, env: Env, clock: Time)
    requires i < |s.txns|
    requires var pc := s.txns[i].pc;
             pc.AwaitKey? || pc.Charging? || pc.Updating? || pc.InsertingPayment? || pc.InsertingRow?
    ensures var s' := Step(s, i, env, clock);
            s' == s || s'.txns[i].pc.Finished? || Follows(s, Exec(i, env, clock), s', Local)
    ensures |Step(s, i, env, clock).txns| == |s.txns| && Steady(s.txns[i], Step(s, i, env, clock).txns[i])
  {
    match s.txns[i].pc
    case AwaitKey =>
    case Charging =>
    case Updating =>
    case InsertingPayment =>
    case InsertingRow(_) =>
  }

  /** The clock reading and the terms of a charged transaction are those it was checked with. */
  predicate Steady(x: Txn, x': Txn) {
    && x'.terms == x.terms
    && (Judged(x') ==> (Judged(x) || x.pc.Charging?) && x'.now == x.now && x'.call == x.call)
    && (x'.pc.RolledBack? ==> x'.pc == x.pc)
    && !x'.pc.Checking? && (x'.pc.Charging? ==> x' == x)
  }

  /** Every event is one of the four. */
  lemma Classify(origin: Tables, s: State, e: Event) returns (c: Change)
    requires Inv(origin, s)
    ensures Follows(s, e, Apply(s, e), c)
  {
    if Apply(s, e) == s {
      return Nothing;
    }
    if e.Fault? {
      return Local;
    }
    var x := s.txns[e.txn];
    assert TxnOk(s.tables, s.sequence, x);
    match x.pc
    case Lookup =>
      return if KeyTaken(s.tables.payments, x.call) then Answer(e.now, Checkout.Replay(s.tables, x.call)) else Local;
    case Checking(g) =>
      var r := Check(g, e.env, s.tables.qrs, x.call, x.now, x.terms);
      return if r.Failure? then Answer(x.now, Refused(r.error)) else Local;
    case Committing =>
      CommitIsSettle(s.tables, s.sequence, x);
      return Commit;
    case AwaitKey =>
      StatementIsLocal(s, e.txn, e.env, e.now);
      return Local;
    case Charging =>
      StatementIsLocal(s, e.txn, e.env, e.now);
      return Local;
    case Updating =>
      StatementIsLocal(s, e.txn, e.env, e.now);
      UpdateIsCharge(s, e.txn);
      return Local;
    case InsertingPayment =>
      c := ClassifyInsert(origin, s, e);
    case InsertingRow(_) =>
      c := ClassifyInsert(origin, s, e);
    case _ =>
      assert false;
  }

  lemma ClassifyInsert(origin: Tables, s: State, e: Event) returns (c: Change)
    requires Inv(origin, s) && e.Exec? && e.txn < |s.txns| && Inserting(s.txns[e.txn]) && Apply(s, e) != s
    ensures Follows(s, e, Apply(s, e), c)
  {
    var x := s.txns[e.txn];
    StatementIsLocal(s, e.txn, e.env, e.now);
    if x.pc.InsertingPayment? {
      InsertPaymentAborts(origin, s, e.txn);
      return if InsertPaymentStep(s, e.txn).txns[e.txn].pc.Finished? then Answer(x.now, Aborted) else Local;
    } else {
      InsertRowAborts(origin, s, e.txn);
      return if InsertRowStep(s, e.txn, x.pc.next).txns[e.txn].pc.Finished? then Answer(x.now, Aborted) else Local;
    }
  }

  /** An INSERT is refused only by a CHECK on the rows of its own payment. */
  lemma InsertPaymentAborts(origin: Tables, s: State, i: nat)
    requires Inv(origin, s) && i < |s.txns| && s.txns[i].pc.InsertingPayment?
    ensures var x, s' := s.txns[i], InsertPaymentStep(s, i);
            s'.txns[i].pc.Finished? ==>
              s' == Abort(s.(sequence := s'.sequence), i) && !ChecksHold(x.id, x.call, x.now, x.terms, x.outcome)
  {
    InsertPaymentKeepsInv(origin, s, i);
    var s' := InsertPaymentStep(s, i);
    assert TxnOk(s'.tables, s'.sequence, s'.txns[i]);
  }

  lemma InsertRowAborts(origin: Tables, s: State, i: nat)
    requires Inv(origin, s) && i < |s.txns| && s.txns[i].pc.InsertingRow?
    ensures var x, s' := s.txns[i], InsertRowStep(s, i, s.txns[i].pc.next);
            s'.txns[i].pc.Finished? ==> s' == Abort(s, i) && !ChecksHold(x.id, x.call, x.now, x.terms, x.outcome)
  {
    InsertRowKeepsInv(origin, s, i);
    var s' := InsertRowStep(s, i, s.txns[i].pc.next);
    assert TxnOk(s'.tables, s'.sequence, s'.txns[i]);
  }

  lemma ApplyKeepsHistory(origin: Tables, s: State, e: Event)
    requires Inv(origin, s) && HistoryOk(s)
    ensures HistoryOk(Apply(s, e))
  {
    var s' := Apply(s, e);
    var c := Classify(origin, s, e);
    match c
    case Nothing =>
    case Local => OtherStepsKeepHistory(s, s', e.txn);
    case Answer(now, reply) => FinishKeepsHistory(s.(sequence := s'.sequence), e.txn, now, false, reply);
    case Commit =>
      var x := s.txns[e.txn];
      FinishKeepsHistory(s.(tables := s'.tables), e.txn, x.now, true, Accepted(Payload(s'.tables, x.id)));
  }

  lemma {:induction false} RunKeepsHistory(t: Tables, sequence: int, calls: seq<Call>, events: seq<Event>)
    requires Ready(t, sequence)
    ensures HistoryOk(Run(Start(t, sequence, calls), events))
  {
    if events != [] {
      var before := events[..|events| - 1];
      RunKeepsHistory(t, sequence, calls, before);
      RunKeepsInv(t, sequence, calls, before);
      ApplyKeepsHistory(t, Run(Start(t, sequence, calls), before), events[|events| - 1]);
    }
  }
}
