/** The dependent rows of committed payments, and the constraints that could abort one. */
module PaymentRows {
  import opened Schema
  import opened Checkout
  import opened PaymentMachine
  import opened PaymentInvariant
  import opened PaymentChange

  /** The rows of one table that belong to payment `id`. */
  function RowsOf(rows: seq<Row>, table: Table, id: int): seq<Row> {
    if rows == [] then []
    else
      var r := rows[|rows| - 1];
      RowsOf(rows[..|rows| - 1], table, id) + if TableOf(r) == table && r.payment == id then [r] else []
  }

  /** Exactly the rows payment `p` must have, column by column; of a start right only the bay is not a column of `p`. */
  ghost predicate ArtefactsMatch(rows: seq<Row>, id: int, p: Payment) {
    && RowsOf(rows, Attempts, id) == [Attempt(id, 1, p.status, p.createdAt)]
    && RowsOf(rows, Events, id) == [PaymentEvent(id, p.device, p.status, p.paymentMethod, p.error, p.createdAt)]
    && RowsOf(rows, AuditEntries, id) == [Audit(id, p.status, p.createdAt)]
    && RowsOf(rows, Providers, id) == (if p.paymentMethod.Card? then [Provider(id, p.status, p.createdAt)] else [])
    && IsStartRightOf(RowsOf(rows, StartRights, id), id, p)
    && RowsOf(rows, Ledger, id) ==
       (if p.paymentMethod.RfCard? && p.status.Succeeded? && p.wallet.Some?
        then [Debit(id, p.wallet.value, p.amount, p.createdAt)] else [])
    && (p.wallet.Some? <==> p.paymentMethod.RfCard? && p.status.Succeeded?)
  }

  predicate IsStartRightOf(rows: seq<Row>, id: int, p: Payment) {
    if p.status.Succeeded? then
      |rows| == 1 && rows[0].StartRight? && rows[0] == StartRight(id, p.device, rows[0].bay, p.program, p.createdAt)
    else rows == []
  }

  lemma {:induction false} RowsOfAppend(rows: seq<Row>, more: seq<Row>, table: Table, id: int)
    ensures RowsOf(rows + more, table, id) == RowsOf(rows, table, id) + RowsOf(more, table, id)
  {
    if more == [] {
      assert rows + more == rows;
    } else {
      var all := rows + more;
      assert all[..|all| - 1] == rows + more[..|more| - 1];
      RowsOfAppend(rows, more[..|more| - 1], table, id);
    }
  }

  lemma {:induction false} NoRowsOf(rows: seq<Row>, table: Table, id: int)
    requires forall k | 0 <= k < |rows| :: rows[k].payment != id
    ensures RowsOf(rows, table, id) == []
  {
    if rows != [] {
      NoRowsOf(rows[..|rows| - 1], table, id);
    }
  }

  ghost predicate Tagged(rows: seq<Row>, table: Table, id: int) {
    |rows| <= 1 && forall k | 0 <= k < |rows| :: rows[k].payment == id && TableOf(rows[k]) == table
  }

  lemma RowsOfTagged(rows: seq<Row>, more: seq<Row>, tag: Table, table: Table, id: int)
    requires Tagged(more, tag, id)
    ensures tag != table ==> RowsOf(rows + more, table, id) == RowsOf(rows, table, id)
    ensures tag == table && RowsOf(rows, table, id) == [] ==> RowsOf(rows + more, table, id) == more
  {
    RowsOfAppend(rows, more, table, id);
    if |more| == 1 {
      assert more[..0] == [] && more == [more[0]];
    }
  }

  lemma RowsOfParts(a: seq<Row>, b: seq<Row>, c: seq<Row>, d: seq<Row>, e: seq<Row>, f: seq<Row>, table: Table, id: int)
    requires Tagged(a, Attempts, id) && Tagged(b, Providers, id) && Tagged(c, Ledger, id)
    requires Tagged(d, StartRights, id) && Tagged(e, Events, id) && Tagged(f, AuditEntries, id)
    ensures RowsOf(a + b + c + d + e + f, table, id) ==
            match table
            case Attempts => a
            case Providers => b
            case Ledger => c
            case StartRights => d
            case Events => e
            case AuditEntries => f
  {
    assert [] + a == a;
    RowsOfTagged([], a, Attempts, table, id);
    RowsOfTagged(a, b, Providers, table, id);
    RowsOfTagged(a + b, c, Ledger, table, id);
    RowsOfTagged(a + b + c, d, StartRights, table, id);
    RowsOfTagged(a + b + c + d, e, Events, table, id);
    RowsOfTagged(a + b + c + d + e, f, AuditEntries, table, id);
  }

  lemma ArtefactRows(id: int, call: Call, now: Time, terms: Terms, o: Outcome, table: Table)
    ensures RowsOf(Artefacts(id, call, now, terms, o), table, id) == ArtefactOf(table, id, call, now, terms, o)
  {
    RowsOfParts(
      ArtefactOf(Attempts, id, call, now, terms, o),
      ArtefactOf(Providers, id, call, now, terms, o),
      ArtefactOf(Ledger, id, call, now, terms, o),
      ArtefactOf(StartRights, id, call, now, terms, o),
      ArtefactOf(Events, id, call, now, terms, o),
      ArtefactOf(AuditEntries, id, call, now, terms, o), table, id);
  }

  lemma SettledRows(t: Tables, id: int, call: Call, now: Time, terms: Terms, o: Outcome, table: Table)
    requires TablesOk(t) && id !in t.payments
    ensures RowsOf(t.rows + Artefacts(id, call, now, terms, o), table, id) == ArtefactOf(table, id, call, now, terms, o)
  {
    NoRowsOf(t.rows, table, id);
    RowsOfAppend(t.rows, Artefacts(id, call, now, terms, o), table, id);
    ArtefactRows(id, call, now, terms, o, table);
  }

  lemma NewPaymentHasItsArtefacts(t: Tables, call: Call, now: Time, id: int, terms: Terms)
    requires TablesOk(t) && id !in t.payments
    ensures var t' := Settle(t, call, now, id, terms);
            ArtefactsMatch(t'.rows, id, t'.payments[id])
  {
    var o := Judge(t.qrs, t.wallets, call, now, terms);
    var rows := t.rows + Artefacts(id, call, now, terms, o);
    forall table: Table
      ensures RowsOf(rows, table, id) == ArtefactOf(table, id, call, now, terms, o)
    {
      SettledRows(t, id, call, now, terms, o, table);
    }
    RowsMatch(rows, call, now, id, terms, o);
  }

  /** What the rows of a payment must be, from what was inserted for it. */
  lemma RowsMatch(rows: seq<Row>, call: Call, now: Time, id: int, terms: Terms, o: Outcome)
    requires forall table: Table :: RowsOf(rows, table, id) == ArtefactOf(table, id, call, now, terms, o)
    requires o.wallet.Some? <==> call.body.paymentMethod.RfCard? && o.status.Succeeded?
    requires call.body.paymentMethod.RfCard? ==> o.amount == terms.price
    ensures ArtefactsMatch(rows, id, PaymentRow(call, now, terms, o))
  {
    assert RowsOf(rows, Attempts, id) == ArtefactOf(Attempts, id, call, now, terms, o);
    assert RowsOf(rows, Ledger, id) == ArtefactOf(Ledger, id, call, now, terms, o);
    assert RowsOf(rows, Events, id) == ArtefactOf(Events, id, call, now, terms, o);
    assert RowsOf(rows, AuditEntries, id) == ArtefactOf(AuditEntries, id, call, now, terms, o);
    assert RowsOf(rows, Providers, id) == ArtefactOf(Providers, id, call, now, terms, o);
    assert RowsOf(rows, StartRights, id) == ArtefactOf(StartRights, id, call, now, terms, o);
  }

  ghost predicate NewPaymentsComplete(t0: Tables, t: Tables) {
    && (forall p | p in t0.payments :: p in t.payments && t.payments[p] == t0.payments[p])
    && (forall p | p in t.payments && p !in t0.payments :: ArtefactsMatch(t.rows, p, t.payments[p]))
  }

  lemma SettleKeepsComplete(t0: Tables, t: Tables, call: Call, now: Time, id: int, terms: Terms)
    requires TablesOk(t) && id !in t.payments && NewPaymentsComplete(t0, t)
    ensures NewPaymentsComplete(t0, Settle(t, call, now, id, terms))
  {
    var t' := Settle(t, call, now, id, terms);
    var a := Artefacts(id, call, now, terms, Judge(t.qrs, t.wallets, call, now, terms));
    ArtefactsShape(id, call, now, terms, Judge(t.qrs, t.wallets, call, now, terms));
    forall p | p in t'.payments && p !in t0.payments
      ensures ArtefactsMatch(t'.rows, p, t'.payments[p])
    {
      if p == id {
        NewPaymentHasItsArtefacts(t, call, now, id, terms);
      } else {
        forall table: Table
          ensures RowsOf(t'.rows, table, p) == RowsOf(t.rows, table, p)
        {
          NoRowsOf(a, table, p);
          RowsOfAppend(t.rows, a, table, p);
        }
      }
    }
  }

  /** Every payment a run commits has exactly its artefacts; earlier payments are untouched. */
  lemma {:induction false} CommittedPaymentsAreComplete(t: Tables, sequence: int, calls: seq<Call>, events: seq<Event>)
    requires Ready(t, sequence)
    ensures NewPaymentsComplete(t, Run(Start(t, sequence, calls), events).tables)
  {
    if events != [] {
      var before := events[..|events| - 1];
      var s, e := Run(Start(t, sequence, calls), before), events[|events| - 1];
      CommittedPaymentsAreComplete(t, sequence, calls, before);
      RunKeepsInv(t, sequence, calls, before);
      var c := Classify(t, s, e);
      if c.Commit? {
        var x := s.txns[e.txn];
        SettleKeepsComplete(t, s.tables, x.call, x.now, x.id, x.terms);
      }
    }
  }

  ghost predicate Answered(s: State, i: nat, p: int)
    requires p in s.tables.payments
  {
    && i < |s.txns|
    && s.txns[i].pc.Finished? && s.txns[i].pc.reply.Accepted? && s.txns[i].pc.reply.view.id == p
    && SameKey(s.tables.payments[p], s.txns[i].call.device.id, s.txns[i].call.key)
  }

  ghost predicate PaymentsAreAnswered(t0: Tables, s: State) {
    forall p | p in s.tables.payments && p !in t0.payments :: exists i :: Answered(s, i, p)
  }

  lemma AnsweredStays(t0: Tables, s: State, e: Event, s': State, c: Change, i: nat, p: int)
    requires Inv(t0, s) && Follows(s, e, s', c)
    requires p in s.tables.payments && Answered(s, i, p)
    ensures p in s'.tables.payments && Answered(s', i, p)
  {
  }

  lemma CommitAnswers(t0: Tables, s: State, e: Event, s': State)
    requires Inv(t0, s) && Follows(s, e, s', Commit)
    ensures var p := s.txns[e.txn].id;
            && p in s'.tables.payments && Answered(s', e.txn, p)
            && s'.tables.payments.Keys == s.tables.payments.Keys + {p}
  {
  }

  lemma FollowKeepsAnswered(t0: Tables, s: State, e: Event, s': State, c: Change)
    requires Inv(t0, s) && PaymentsAreAnswered(t0, s) && Follows(s, e, s', c)
    ensures PaymentsAreAnswered(t0, s')
  {
    if c.Commit? {
      CommitAnswers(t0, s, e, s');
    }
    forall p | p in s'.tables.payments && p !in t0.payments
      ensures exists i :: Answered(s', i, p)
    {
      if c.Commit? && p == s.txns[e.txn].id {
        assert Answered(s', e.txn, p);
      } else {
        assert p in s.tables.payments;
        var i :| Answered(s, i, p);
        AnsweredStays(t0, s, e, s', c, i, p);
      }
    }
  }

  lemma {:induction false} RunKeepsAnswered(t: Tables, sequence: int, calls: seq<Call>, events: seq<Event>)
    requires Ready(t, sequence)
    ensures PaymentsAreAnswered(t, Run(Start(t, sequence, calls), events))
  {
    if events != [] {
      var before := events[..|events| - 1];
      var s, e := Run(Start(t, sequence, calls), before), events[|events| - 1];
      RunKeepsAnswered(t, sequence, calls, before);
      RunKeepsInv(t, sequence, calls, before);
      var c := Classify(t, s, e);
      FollowKeepsAnswered(t, s, e, Apply(s, e), c);
    }
  }

  // ---- what a rolled-back request leaves behind

  predicate AcceptedUnder(x: Txn, call: Call) {
    x.pc.Finished? && x.pc.reply.Accepted? && x.call.device.id == call.device.id && x.call.key == call.key
  }

  /** A key is taken exactly when it was before the run, or when some request has been accepted under it. */
  lemma KeyTakenExactly(t: Tables, sequence: int, calls: seq<Call>, events: seq<Event>, call: Call)
    requires Ready(t, sequence)
    ensures var s := Run(Start(t, sequence, calls), events);
            KeyTaken(s.tables.payments, call) <==>
            KeyTaken(t.payments, call) || exists j :: 0 <= j < |s.txns| && AcceptedUnder(s.txns[j], call)
  {
    RunKeepsInv(t, sequence, calls, events);
    RunKeepsAnswered(t, sequence, calls, events);
    CommittedPaymentsAreComplete(t, sequence, calls, events);
    var s := Run(Start(t, sequence, calls), events);
    if KeyTaken(s.tables.payments, call) && !KeyTaken(t.payments, call) {
      var j := TakenWasAccepted(t, s, call);
    }
    if j :| 0 <= j < |s.txns| && AcceptedUnder(s.txns[j], call) {
      AcceptedIsTaken(s.tables, s.sequence, s.txns[j], call);
    }
  }

  lemma TakenWasAccepted(t0: Tables, s: State, call: Call) returns (j: nat)
    requires PaymentsAreAnswered(t0, s)
    requires KeyTaken(s.tables.payments, call) && !KeyTaken(t0.payments, call) && NewPaymentsComplete(t0, s.tables)
    ensures j < |s.txns| && AcceptedUnder(s.txns[j], call)
  {
    var p := Existing(s.tables.payments, call);
    j :| Answered(s, j, p);
  }

  lemma AcceptedIsTaken(t: Tables, sequence: int, x: Txn, call: Call)
    requires TxnOk(t, sequence, x) && AcceptedUnder(x, call)
    ensures KeyTaken(t.payments, call)
  {
    assert SameKey(t.payments[x.pc.reply.view.id], call.device.id, call.key);
  }

  /** Ids are taken once, and only a finished request's id is a payment's. An id of 0 stands for none taken yet. */
  ghost predicate IdsTaken(s: State) {
    && (forall j | 0 <= j < |s.txns| && s.txns[j].id != 0 ::
          s.txns[j].id < s.sequence && (s.txns[j].id in s.tables.payments ==> s.txns[j].pc.Finished?))
    && (forall j, k | 0 <= j < k < |s.txns| && s.txns[j].id != 0 :: s.txns[j].id != s.txns[k].id)
  }

  /** A statement keeps the id of its transaction, or takes the next one. */
  predicate TakesId(s: State, s': State, i: nat)
    requires i < |s.txns| == |s'.txns|
  {
    || (s'.txns[i].id == s.txns[i].id && s'.sequence >= s.sequence)
    || (s'.txns[i].id == s.sequence && s'.sequence == s.sequence + 1)
  }

  lemma StatementTakesId(s: State, i: nat, env: Env, clock: Time)
    requires i < |s.txns|
    ensures |Step(s, i, env, clock).txns| == |s.txns| && TakesId(s, Step(s, i, env, clock), i)
  {
    match s.txns[i].pc
    case AwaitKey =>
    case Lookup =>
    case Checking(_) =>
    case Charging =>
    case Updating =>
    case InsertingPayment =>
    case InsertingRow(_) =>
    case Committing =>
    case _ =>
  }

  lemma FollowKeepsIds(t0: Tables, s: State, e: Event, s': State, c: Change)
    requires Inv(t0, s) && IdsTaken(s) && Follows(s, e, s', c)
    requires !c.Nothing? ==> |s'.txns| == |s.txns| && TakesId(s, s', e.txn)
    ensures IdsTaken(s')
  {
    if !c.Nothing? {
      assert s'.txns == s.txns[e.txn := s'.txns[e.txn]];
      if c.Commit? {
        CommitAnswers(t0, s, e, s');
      }
      assert forall p | p in s.tables.payments :: p < s.sequence;
    }
  }

  lemma {:induction false} RunKeepsIds(t: Tables, sequence: int, calls: seq<Call>, events: seq<Event>)
    requires Ready(t, sequence)
    ensures IdsTaken(Run(Start(t, sequence, calls), events))
  {
    if events != [] {
      var before := events[..|events| - 1];
      var s, e := Run(Start(t, sequence, calls), before), events[|events| - 1];
      RunKeepsIds(t, sequence, calls, before);
      RunKeepsInv(t, sequence, calls, before);
      var c := Classify(t, s, e);
      if e.Exec? && e.txn < |s.txns| {
        StatementTakesId(s, e.txn, e.env, e.now);
      }
      FollowKeepsIds(t, s, e, Apply(s, e), c);
    }
  }

  /** A rolled-back request leaves nothing: its key is taken only if it was before the run or another request was
      accepted under it, no payment and no dependent row carries the id it took, and it holds no lock.  */
  lemma RolledBackLeavesNothing(t: Tables, sequence: int, calls: seq<Call>, events: seq<Event>, i: nat)
    requires Ready(t, sequence)
    requires var s := Run(Start(t, sequence, calls), events); i < |s.txns| && s.txns[i].pc.RolledBack?
    ensures var s := Run(Start(t, sequence, calls), events);
            var x := s.txns[i];
            && (KeyTaken(s.tables.payments, x.call) <==>
                KeyTaken(t.payments, x.call) || exists j :: 0 <= j < |s.txns| && j != i && AcceptedUnder(s.txns[j], x.call))
            && (x.id != 0 ==> x.id !in s.tables.payments
                              && forall k | 0 <= k < |s.tables.rows| :: s.tables.rows[k].payment != x.id)
            && NothingPending(x) && x.held.None?
            && forall r | r in s.locks :: s.locks[r] != i
  {
    var s := Run(Start(t, sequence, calls), events);
    RunKeepsInv(t, sequence, calls, events);
    RunKeepsIds(t, sequence, calls, events);
    KeyTakenExactly(t, sequence, calls, events, s.txns[i].call);
    assert TxnOk(s.tables, s.sequence, s.txns[i]);
  }

  /** So the same request sent again, when no other request took its key, is judged afresh: accepted and stored as a new
      payment exactly when the guards pass and its rows are admitted, never answered with a replay or a conflict.  */
  lemma SentAgain(t: Tables, sequence: int, calls: seq<Call>, events: seq<Event>, i: nat, env: Env, now: Time, id: int)
    requires Ready(t, sequence)
    requires var s := Run(Start(t, sequence, calls), events);
             && i < |s.txns| && s.txns[i].pc.RolledBack?
             && !KeyTaken(t.payments, s.txns[i].call)
             && forall j | 0 <= j < |s.txns| && j != i :: !AcceptedUnder(s.txns[j], s.txns[i].call)
    ensures var s := Run(Start(t, sequence, calls), events);
            var call := s.txns[i].call;
            var (after, reply) := AtomicCreate(env, s.tables, call, now, id);
            var verdict := Verdict(env, s.tables.qrs, call, now);
            if verdict.Failure? then (after, reply) == (s.tables, Refused(verdict.error))
            else if ChecksHold(id, call, now, verdict.value, Judge(s.tables.qrs, s.tables.wallets, call, now, verdict.value))
            then reply.Accepted? && after == Settle(s.tables, call, now, id, verdict.value)
            else (after, reply) == (s.tables, Aborted)
  {
    RolledBackLeavesNothing(t, sequence, calls, events, i);
  }

  // ---- constraints

  ghost predicate PricesAdmitted(env: Env) {
    forall p | p in env.programs :: env.programs[p].price >= 0
  }

  ghost predicate PricesOk(s: State) {
    forall i | 0 <= i < |s.txns| :: TxnPriceOk(s.txns[i])
  }

  lemma {:induction false} PricesStayOk(t: Tables, sequence: int, calls: seq<Call>, events: seq<Event>)
    requires Ready(t, sequence)
    requires forall k | 0 <= k < |events| && events[k].Exec? :: PricesAdmitted(events[k].env)
    ensures PricesOk(Run(Start(t, sequence, calls), events))
  {
    if events != [] {
      var before := events[..|events| - 1];
      var s, e := Run(Start(t, sequence, calls), before), events[|events| - 1];
      PricesStayOk(t, sequence, calls, before);
      RunKeepsInv(t, sequence, calls, before);
      if e.Exec? && e.txn < |s.txns| {
        StepKeepsPrice(s, e.txn, e.env, e.now);
      }
      var c := Classify(t, s, e);
      FollowKeepsPrices(s, e, Apply(s, e), c);
    }
  }

  lemma FollowKeepsPrices(s: State, e: Event, s': State, c: Change)
    requires PricesOk(s) && Follows(s, e, s', c)
    requires e.txn < |s.txns| ==> |s'.txns| == |s.txns| && TxnPriceOk(s'.txns[e.txn])
    ensures PricesOk(s')
  {
  }

  lemma JudgedAmount(qrs: map<Digest, QrCode>, wallets: map<int, Wallet>, call: Call, now: Time, terms: Terms)
    requires forall h | h in qrs :: QrRowOk(qrs[h])
    requires terms.price >= 0
    ensures Judge(qrs, wallets, call, now, terms).amount >= 0
  {
  }

  predicate TxnPriceOk(x: Txn) {
    x.terms.price >= 0 && x.outcome.amount >= 0
  }

  lemma CheckKeepsPrice(s: State, i: nat, env: Env, clock: Time)
    requires i < |s.txns| && s.txns[i].pc.Checking? && TxnPriceOk(s.txns[i]) && PricesAdmitted(env)
    ensures |Step(s, i, env, clock).txns| == |s.txns| && TxnPriceOk(Step(s, i, env, clock).txns[i])
  {
    var x := s.txns[i];
    var r := Check(x.pc.guard, env, s.tables.qrs, x.call, x.now, x.terms);
    assert r.Success? ==> r.value.price >= 0;
  }

  lemma ChargeKeepsPrice(s: State, i: nat)
    requires i < |s.txns| && TablesOk(s.tables) && TxnPriceOk(s.txns[i])
    ensures |ChargeStep(s, i).txns| == |s.txns| && TxnPriceOk(ChargeStep(s, i).txns[i])
  {
    var x := s.txns[i];
    JudgedAmount(s.tables.qrs, s.tables.wallets, x.call, x.now, x.terms);
  }

  lemma StepKeepsPrice(s: State, i: nat, env: Env, clock: Time)
    requires i < |s.txns| && TablesOk(s.tables) && TxnPriceOk(s.txns[i]) && PricesAdmitted(env)
    ensures |Step(s, i, env, clock).txns| == |s.txns| && TxnPriceOk(Step(s, i, env, clock).txns[i])
  {
    match s.txns[i].pc
    case AwaitKey =>
    case Lookup =>
    case Checking(_) => CheckKeepsPrice(s, i, env, clock);
    case Charging => ChargeKeepsPrice(s, i);
    case Updating =>
    case InsertingPayment =>
    case InsertingRow(_) =>
    case Committing =>
    case _ =>
  }

  /** In any run, a request ends aborted exactly when it was to be an RF card debit for a free program: no other CHECK
      or UNIQUE constraint ever aborts one, and the ledger's `amount_minor > 0` lets none of these through.  */
  lemma AbortedExactly(t: Tables, sequence: int, calls: seq<Call>, events: seq<Event>, i: nat)
    requires Ready(t, sequence)
    requires forall k | 0 <= k < |events| && events[k].Exec? :: PricesAdmitted(events[k].env)
    requires i < |Run(Start(t, sequence, calls), events).txns|
    ensures var x := Run(Start(t, sequence, calls), events).txns[i];
            x.pc == Finished(Aborted) <==>
            x.pc.Finished? && x.call.body.paymentMethod.RfCard? && x.terms.price == 0 && x.outcome.wallet.Some?
  {
    RunKeepsInv(t, sequence, calls, events);
    PricesStayOk(t, sequence, calls, events);
    var s := Run(Start(t, sequence, calls), events);
    EndedExactly(s.tables, s.sequence, s.txns[i]);
  }

  lemma EndedExactly(t: Tables, sequence: int, x: Txn)
    requires TxnOk(t, sequence, x) && x.terms.price >= 0 && x.outcome.amount >= 0
    ensures x.pc == Finished(Aborted) <==>
            x.pc.Finished? && x.call.body.paymentMethod.RfCard? && x.terms.price == 0 && x.outcome.wallet.Some?
  {
    ChecksHoldExactly(x.id, x.call, x.now, x.terms, x.outcome);
  }
}
