/** Every statement, and every rollback, keeps the machine's invariant. */
module PaymentInvariant {
  import opened Schema
  import opened Checkout
  import opened PaymentMachine

  // ---- settling a payment

  lemma ArtefactsShape(id: int, call: Call, now: Time, terms: Terms, o: Outcome)
    ensures var a := Artefacts(id, call, now, terms, o);
            && 3 <= |a| <= 5
            && (forall k | 0 <= k < |a| :: a[k].payment == id)
            && (forall j, k | 0 <= j < k < |a| :: !Clash(a[j], a[k]))
  {
  }

  /** A settlement under a fresh key and id keeps every constraint, if the inserted rows pass their checks. */
  lemma SettleKeepsConstraints(t: Tables, call: Call, now: Time, id: int, terms: Terms)
    requires TablesOk(t) && !KeyTaken(t.payments, call) && id !in t.payments
    requires Judge(t.qrs, t.wallets, call, now, terms).amount >= 0
    requires var a := Artefacts(id, call, now, terms, Judge(t.qrs, t.wallets, call, now, terms));
             forall k | 0 <= k < |a| :: RowCheckOk(a[k])
    ensures TablesOk(Settle(t, call, now, id, terms))
  {
    var o := Judge(t.qrs, t.wallets, call, now, terms);
    var t' := Settle(t, call, now, id, terms);
    var a := Artefacts(id, call, now, terms, o);
    ArtefactsShape(id, call, now, terms, o);
    ChargesKeepConstraints(t, call, now, terms);
    RowsKeepConstraints(t.rows, a, t.payments, id);
    assert forall p | p in t.payments :: !SameKey(t.payments[p], call.device.id, call.key);
    assert t'.rows == t.rows + a;
  }

  lemma ChargesKeepConstraints(t: Tables, call: Call, now: Time, terms: Terms)
    requires TablesOk(t)
    ensures var o := Judge(t.qrs, t.wallets, call, now, terms);
            var qrs, wallets := ChargedQrs(t.qrs, call, o), ChargedWallets(t.wallets, terms, now, o);
            && (forall h | h in qrs :: QrRowOk(qrs[h]))
            && (forall c | c in wallets :: WalletRowOk(wallets[c]))
            && IdsUnique(qrs, wallets)
  {
  }

  lemma RowsKeepConstraints(rows: seq<Row>, a: seq<Row>, payments: map<int, Payment>, id: int)
    requires RowsOk(rows) && RowsOk(a) && id !in payments
    requires forall k | 0 <= k < |rows| :: rows[k].payment in payments
    requires forall k | 0 <= k < |a| :: a[k].payment == id
    ensures RowsOk(rows + a)
  {
    var all := rows + a;
    forall j, k | 0 <= j < k < |all|
      ensures !Clash(all[j], all[k])
    {
      if j < |rows| <= k {
        assert all[j].payment != all[k].payment;
      }
    }
  }

  lemma CommitIsSettle(t: Tables, sequence: int, x: Txn)
    requires x.pc.Committing? && ChargeOk(t, x) && InsertsOk(t, sequence, x)
    ensures Applied(t, x) == Settle(t, x.call, x.now, x.id, x.terms)
  {
  }

  lemma SettledPayload(t: Tables, call: Call, now: Time, id: int, terms: Terms, p: int)
    requires p in t.payments && id !in t.payments
    ensures Payload(Settle(t, call, now, id, terms), p) == Payload(t, p)
  {
    var o := Judge(t.qrs, t.wallets, call, now, terms);
    var a := Artefacts(id, call, now, terms, o);
    ArtefactsShape(id, call, now, terms, o);
    var t' := Settle(t, call, now, id, terms);
    assert forall r | r in a :: r.payment == id;
    if HasStartRight(t.rows, p) {
      var r :| r in t.rows && r.StartRight? && r.payment == p;
      assert r in t'.rows;
    }
  }

  // ---- a commit does not disturb the other transactions

  lemma ChargeUndisturbed(t: Tables, x: Txn, y: Txn)
    requires Judged(x) && Judged(y) && ChargeOk(t, x) && ChargeOk(t, y)
    requires Owned(x) !! Owned(y)
    ensures ChargeOk(Settle(t, x.call, x.now, x.id, x.terms), y)
  {
    var t' := Settle(t, x.call, x.now, x.id, x.terms);
    if y.call.body.paymentMethod.Qr? {
      QrUndisturbed(t, x, y);
    } else if y.call.body.paymentMethod.RfCard? && y.terms.card.Some? {
      WalletUndisturbed(t, x, y);
    }
    assert y.outcome == Judge(t'.qrs, t'.wallets, y.call, y.now, y.terms);
  }

  lemma QrUndisturbed(t: Tables, x: Txn, y: Txn)
    requires Judged(x) && Judged(y) && ChargeOk(t, x) && ChargeOk(t, y)
    requires Owned(x) !! Owned(y) && y.call.body.paymentMethod.Qr?
    ensures var q, q', h := t.qrs, Settle(t, x.call, x.now, x.id, x.terms).qrs, TokenHash(y.call);
            (h in q <==> h in q') && (h in q ==> q'[h] == q[h])
  {
    if TokenHash(y.call) in t.qrs && x.outcome.qrCode.Some? {
      assert QrRow(TokenHash(x.call)) in Owned(x) && QrRow(TokenHash(y.call)) in Owned(y);
    }
  }

  lemma WalletUndisturbed(t: Tables, x: Txn, y: Txn)
    requires Judged(x) && Judged(y) && ChargeOk(t, x) && ChargeOk(t, y)
    requires Owned(x) !! Owned(y) && y.call.body.paymentMethod.RfCard? && y.terms.card.Some?
    ensures var w, w', c := t.wallets, Settle(t, x.call, x.now, x.id, x.terms).wallets, y.terms.card.value;
            (c in w <==> c in w') && (c in w ==> w'[c] == w[c])
  {
    if y.terms.card.value in t.wallets && x.outcome.wallet.Some? {
      assert WalletRow(x.terms.card.value) in Owned(x) && WalletRow(y.terms.card.value) in Owned(y);
    }
  }

  lemma Undisturbed(t: Tables, sequence: int, x: Txn, y: Txn)
    requires TxnOk(t, sequence, x) && TxnOk(t, sequence, y)
    requires x.pc.Committing? && Owned(x) !! Owned(y)
    requires Inserted(y) ==> y.id != x.id
    ensures TxnOk(Settle(t, x.call, x.now, x.id, x.terms), sequence, y)
  {
    var t' := Settle(t, x.call, x.now, x.id, x.terms);
    if Engaged(y) {
      assert KeyOf(x) in Owned(x) && KeyOf(y) in Owned(y);
      forall p | p in t'.payments
        ensures !SameKey(t'.payments[p], y.call.device.id, y.call.key)
      {
        if p != x.id {
          assert t'.payments[p] == t.payments[p];
        }
      }
    }
    if Judged(y) {
      ChargeUndisturbed(t, x, y);
    }
    if y.pc.Finished? && y.pc.reply.Accepted? {
      SettledPayload(t, x.call, x.now, x.id, x.terms, y.pc.reply.view.id);
    }
  }

  lemma OwnersAreDisjoint(s: State, i: nat, j: nat)
    requires LocksOk(s) && i < |s.txns| && j < |s.txns| && i != j
    ensures Owned(s.txns[i]) !! Owned(s.txns[j])
  {
    forall r | r in Owned(s.txns[i])
      ensures r !in Owned(s.txns[j])
    {
      assert s.locks[r] == i;
    }
  }

  // ---- statements that leave the committed tables alone

  datatype LockMove = Keep | Acquire(r: Resource) | Drop

  ghost predicate Moves(s: State, s': State, i: nat, move: LockMove)
    requires i < |s.txns| == |s'.txns|
  {
    match move
    case Keep => s'.locks == s.locks && Owned(s'.txns[i]) == Owned(s.txns[i])
    case Acquire(r) => r !in s.locks && s'.locks == s.locks[r := i] && Owned(s'.txns[i]) == Owned(s.txns[i]) + {r}
    case Drop => s'.locks == Release(s.locks, i) && Owned(s'.txns[i]) == {}
  }

  lemma LocksFollow(s: State, s': State, i: nat, move: LockMove)
    requires LocksOk(s) && i < |s.txns| && |s'.txns| == |s.txns|
    requires s'.txns == s.txns[i := s'.txns[i]]
    requires Moves(s, s', i, move)
    ensures LocksOk(s')
  {
    forall j, r | 0 <= j < |s'.txns| && r in Owned(s'.txns[j])
      ensures r in s'.locks && s'.locks[r] == j
    {
      if j != i {
        assert r in Owned(s.txns[j]);
      }
    }
    forall r | r in s'.locks
      ensures s'.locks[r] < |s'.txns| && r in Owned(s'.txns[s'.locks[r]])
    {
      if r in s.locks && s'.locks[r] == s.locks[r] {
        assert r in Owned(s.txns[s.locks[r]]);
      }
    }
  }

  lemma LocalStep(origin: Tables, s: State, s': State, i: nat, move: LockMove)
    requires Inv(origin, s) && i < |s.txns| && |s'.txns| == |s.txns|
    requires s'.txns == s.txns[i := s'.txns[i]]
    requires s'.tables == s.tables && s'.sequence >= s.sequence
    requires Moves(s, s', i, move)
    requires TxnOk(s.tables, s'.sequence, s'.txns[i])
    requires Inserted(s'.txns[i]) ==> (Inserted(s.txns[i]) && s'.txns[i].id == s.txns[i].id) || s'.txns[i].id >= s.sequence
    requires Rebuild(origin, s'.history) == s.tables
    ensures Inv(origin, s')
  {
    LocksFollow(s, s', i, move);
    forall j | 0 <= j < |s'.txns|
      ensures TxnOk(s'.tables, s'.sequence, s'.txns[j])
    {
      if j != i {
        assert TxnOk(s.tables, s.sequence, s.txns[j]);
      }
    }
    forall j, k | 0 <= j < k < |s'.txns| && Inserted(s'.txns[j]) && Inserted(s'.txns[k])
      ensures s'.txns[j].id != s'.txns[k].id
    {
      assert j == i || TxnOk(s.tables, s.sequence, s.txns[j]);
      assert k == i || TxnOk(s.tables, s.sequence, s.txns[k]);
    }
  }

  lemma RollBackKeepsInv(origin: Tables, s: State, i: nat)
    requires Inv(origin, s) && i < |s.txns|
    ensures Inv(origin, End(s, i, RolledBack))
  {
    LocalStep(origin, s, End(s, i, RolledBack), i, Drop);
  }

  lemma TakingAnIdKeepsInv(origin: Tables, s: State)
    requires Inv(origin, s)
    ensures Inv(origin, s.(sequence := s.sequence + 1))
  {
    var s' := s.(sequence := s.sequence + 1);
    AllOkLater(s.tables, s.sequence, s.txns);
    SameLocks(s, s');
  }

  lemma SameLocks(s: State, s': State)
    requires s'.txns == s.txns && s'.locks == s.locks && s'.tables == s.tables && s'.sequence >= s.sequence
    ensures LocksOk(s) ==> LocksOk(s')
    ensures IdsOk(s) ==> IdsOk(s')
  {
  }

  lemma AllOkLater(t: Tables, sequence: int, txns: seq<Txn>)
    requires forall i | 0 <= i < |txns| :: TxnOk(t, sequence, txns[i])
    ensures forall i | 0 <= i < |txns| :: TxnOk(t, sequence + 1, txns[i])
  {
    forall i | 0 <= i < |txns|
      ensures TxnOk(t, sequence + 1, txns[i])
    {
      OkLater(t, sequence, txns[i]);
    }
  }

  lemma OkLater(t: Tables, sequence: int, x: Txn)
    requires TxnOk(t, sequence, x)
    ensures TxnOk(t, sequence + 1, x)
  {
    assert Inserted(x) ==> InsertsOk(t, sequence + 1, x);
  }

  /** A request that ends without a commit: a refusal, the replay of a stored payment, or an abort. */
  lemma FinishKeepsInv(origin: Tables, s: State, i: nat, now: Time, reply: Reply)
    requires Inv(origin, s) && i < |s.txns|
    requires ReplyOk(s.tables, s.txns[i].(pc := Finished(reply))) && EndingOk(s.txns[i].(pc := Finished(reply)))
    ensures Inv(origin, Finish(s, i, now, false, reply))
  {
    var s' := Finish(s, i, now, false, reply);
    assert s'.history[..|s'.history| - 1] == s.history;
    LocalStep(origin, s, s', i, Drop);
  }

  lemma LookupKeepsInv(origin: Tables, s: State, i: nat, env: Env, clock: Time)
    requires Inv(origin, s) && i < |s.txns| && s.txns[i].pc.Lookup?
    ensures Inv(origin, Step(s, i, env, clock))
  {
    var x := s.txns[i];
    assert TxnOk(s.tables, s.sequence, x);
    if KeyTaken(s.tables.payments, x.call) {
      FinishKeepsInv(origin, s, i, clock, Checkout.Replay(s.tables, x.call));
    } else {
      LocalStep(origin, s, Step(s, i, env, clock), i, Keep);
    }
  }

  lemma CheckKeepsInv(origin: Tables, s: State, i: nat, env: Env, clock: Time)
    requires Inv(origin, s) && i < |s.txns| && s.txns[i].pc.Checking?
    ensures Inv(origin, Step(s, i, env, clock))
  {
    var x := s.txns[i];
    assert TxnOk(s.tables, s.sequence, x);
    match Check(x.pc.guard, env, s.tables.qrs, x.call, x.now, x.terms)
    case Failure(e) => FinishKeepsInv(origin, s, i, x.now, Refused(e));
    case Success(t) => LocalStep(origin, s, Step(s, i, env, clock), i, Keep);
  }

  lemma ChargeKeepsInv(origin: Tables, s: State, i: nat)
    requires Inv(origin, s) && i < |s.txns| && s.txns[i].pc.Charging?
    ensures Inv(origin, ChargeStep(s, i))
  {
    var x := s.txns[i];
    assert TxnOk(s.tables, s.sequence, x);
    var row := RowToLock(s.tables, x.call, x.terms);
    if row.None? {
      LocalStep(origin, s, ChargeStep(s, i), i, Keep);
    } else if row.value !in s.locks {
      LocalStep(origin, s, ChargeStep(s, i), i, Acquire(row.value));
    }
  }

  /** The absolute QR write equals an increment of the committed row: the row read is still the committed one. */
  lemma UpdateIsCharge(s: State, i: nat)
    requires i < |s.txns| && s.txns[i].pc.Updating?
    requires TablesOk(s.tables) && ChargeOk(s.tables, s.txns[i])
    ensures var x, x' := s.txns[i], UpdateStep(s, i).txns[i];
            && UpdateStep(s, i) == Put(s, i, x')
            && x' == x.(pc := InsertingPayment, qr := x'.qr, wallet := x'.wallet)
            && ChargeOk(s.tables, x')
  {
    var x := s.txns[i];
    var o := x.outcome;
    if o.qrCode.Some? {
      assert x.call.body.paymentMethod.Qr? && TokenHash(x.call) in s.tables.qrs;
      assert QrRowOk(s.tables.qrs[TokenHash(x.call)]);
    } else if o.wallet.Some? {
      assert x.call.body.paymentMethod.RfCard?;
    }
  }

  lemma UpdateKeepsInv(origin: Tables, s: State, i: nat)
    requires Inv(origin, s) && i < |s.txns| && s.txns[i].pc.Updating?
    ensures Inv(origin, UpdateStep(s, i))
  {
    var x := s.txns[i];
    assert TxnOk(s.tables, s.sequence, x);
    UpdateIsCharge(s, i);
    LocalStep(origin, s, UpdateStep(s, i), i, Keep);
  }

  /** The advisory lock keeps the key free of other uncommitted payments as well. */
  lemma NoRivalPayment(origin: Tables, s: State, i: nat, j: nat)
    requires Inv(origin, s) && i < |s.txns| && s.txns[i].pc.InsertingPayment?
    requires j < |s.txns| && j != i && s.txns[j].payment.Some?
    ensures !SameKey(s.txns[j].payment.value, s.txns[i].call.device.id, s.txns[i].call.key)
  {
    assert TxnOk(s.tables, s.sequence, s.txns[j]);
    OwnersAreDisjoint(s, i, j);
    assert KeyOf(s.txns[i]) in Owned(s.txns[i]) && KeyOf(s.txns[j]) in Owned(s.txns[j]);
  }

  /** So the INSERT of a payment is refused only by the CHECK on its amount. */
  lemma InsertPaymentExactly(origin: Tables, s: State, i: nat)
    requires Inv(origin, s) && i < |s.txns| && s.txns[i].pc.InsertingPayment?
    ensures var x, taken := s.txns[i], s.(sequence := s.sequence + 1);
            InsertPaymentStep(s, i) ==
            if x.outcome.amount < 0 then Abort(taken, i)
            else Put(taken, i, x.(pc := InsertingRow(0), id := s.sequence, payment := Some(PaymentRow(x.call, x.now, x.terms, x.outcome))))
  {
    var x := s.txns[i];
    assert TxnOk(s.tables, s.sequence, x);
    forall j | 0 <= j < |s.txns| && j != i && s.txns[j].payment.Some?
      ensures !SameKey(s.txns[j].payment.value, x.call.device.id, x.call.key)
    {
      NoRivalPayment(origin, s, i, j);
    }
  }

  lemma InsertPaymentKeepsInv(origin: Tables, s: State, i: nat)
    requires Inv(origin, s) && i < |s.txns| && s.txns[i].pc.InsertingPayment?
    ensures Inv(origin, InsertPaymentStep(s, i))
  {
    var x := s.txns[i];
    InsertPaymentExactly(origin, s, i);
    assert TxnOk(s.tables, s.sequence, x);
    if x.outcome.amount < 0 {
      TakingAnIdKeepsInv(origin, s);
      FinishKeepsInv(origin, s.(sequence := s.sequence + 1), i, x.now, Aborted);
    } else {
      PaymentInsertedOk(s.tables, s.sequence, x);
      LocalStep(origin, s, InsertPaymentStep(s, i), i, Keep);
    }
  }

  lemma PaymentInsertedOk(t: Tables, sequence: int, x: Txn)
    requires x.pc.InsertingPayment? && TxnOk(t, sequence, x) && x.outcome.amount >= 0
    requires sequence !in t.payments
    ensures TxnOk(t, sequence + 1, x.(pc := InsertingRow(0), id := sequence, payment := Some(PaymentRow(x.call, x.now, x.terms, x.outcome))))
  {
  }

  /** Only the CHECK on the ledger amount can refuse a dependent row: no UNIQUE constraint ever does. */
  lemma OnlyTheAmountCheckRefuses(origin: Tables, s: State, i: nat, r: Row)
    requires Inv(origin, s) && i < |s.txns| && Inserted(s.txns[i])
    requires r.payment == s.txns[i].id
    requires forall k | 0 <= k < |s.txns[i].rows| :: !Clash(s.txns[i].rows[k], r)
    ensures RowAdmitted(s, i, r) <==> RowCheckOk(r)
  {
    var x := s.txns[i];
    assert TxnOk(s.tables, s.sequence, x);
    forall k | 0 <= k < |s.tables.rows|
      ensures !Clash(s.tables.rows[k], r)
    {
      assert s.tables.rows[k].payment in s.tables.payments;
    }
    forall j, k | 0 <= j < |s.txns| && 0 <= k < |s.txns[j].rows|
      ensures !Clash(s.txns[j].rows[k], r)
    {
      if j != i {
        var y := s.txns[j];
        assert TxnOk(s.tables, s.sequence, y);
        ArtefactsShape(y.id, y.call, y.now, y.terms, y.outcome);
        assert y.rows[k].payment == y.id;
      }
    }
  }

  lemma InsertedRowOk(t: Tables, sequence: int, x: Txn, x': Txn, statements: seq<Row>)
    requires x.pc.InsertingRow? && InsertsOk(t, sequence, x)
    requires statements == Artefacts(x.id, x.call, x.now, x.terms, x.outcome)
    requires x.pc.next < |statements| && RowCheckOk(statements[x.pc.next])
    requires x' == x.(pc := InsertingRow(x.pc.next + 1), rows := x.rows + [statements[x.pc.next]])
    ensures InsertsOk(t, sequence, x')
  {
    assert statements[..x.pc.next] + [statements[x.pc.next]] == statements[..x.pc.next + 1];
  }

  /** So the INSERT of a dependent row is refused only by its own CHECK. */
  lemma InsertRowExactly(origin: Tables, s: State, i: nat)
    requires Inv(origin, s) && i < |s.txns| && s.txns[i].pc.InsertingRow?
    ensures var x := s.txns[i];
            var next, statements := x.pc.next, Artefacts(x.id, x.call, x.now, x.terms, x.outcome);
            InsertRowStep(s, i, next) ==
            if next >= |statements| then Put(s, i, x.(pc := Committing))
            else if !RowCheckOk(statements[next]) then Abort(s, i)
            else Put(s, i, x.(pc := InsertingRow(next + 1), rows := x.rows + [statements[next]]))
  {
    var x := s.txns[i];
    assert TxnOk(s.tables, s.sequence, x);
    var next, statements := x.pc.next, Artefacts(x.id, x.call, x.now, x.terms, x.outcome);
    ArtefactsShape(x.id, x.call, x.now, x.terms, x.outcome);
    if next < |statements| {
      OnlyTheAmountCheckRefuses(origin, s, i, statements[next]);
    }
  }

  lemma InsertRowKeepsInv(origin: Tables, s: State, i: nat)
    requires Inv(origin, s) && i < |s.txns| && s.txns[i].pc.InsertingRow?
    ensures Inv(origin, InsertRowStep(s, i, s.txns[i].pc.next))
  {
    var x := s.txns[i];
    InsertRowExactly(origin, s, i);
    assert TxnOk(s.tables, s.sequence, x);
    var next, statements := x.pc.next, Artefacts(x.id, x.call, x.now, x.terms, x.outcome);
    if next < |statements| && !RowCheckOk(statements[next]) {
      assert statements[next] in statements;
      FinishKeepsInv(origin, s, i, x.now, Aborted);
    } else {
      var s' := InsertRowStep(s, i, next);
      if next < |statements| {
        InsertedRowOk(s.tables, s.sequence, x, s'.txns[i], statements);
      }
      LocalStep(origin, s, s', i, Keep);
    }
  }

  // ---- commit

  lemma CommitKeepsInv(origin: Tables, s: State, i: nat)
    requires Inv(origin, s) && i < |s.txns| && s.txns[i].pc.Committing?
    ensures Inv(origin, CommitStep(s, i))
    ensures var x := s.txns[i];
            CommitStep(s, i).tables == Settle(s.tables, x.call, x.now, x.id, x.terms)
  {
    var x := s.txns[i];
    assert TxnOk(s.tables, s.sequence, x);
    CommitIsSettle(s.tables, s.sequence, x);
    SettleKeepsConstraints(s.tables, x.call, x.now, x.id, x.terms);
    var s' := CommitStep(s, i);
    assert s'.history[..|s'.history| - 1] == s.history;
    LocksFollow(s, s', i, Drop);
    forall j | 0 <= j < |s'.txns|
      ensures TxnOk(s'.tables, s'.sequence, s'.txns[j])
    {
      if j != i {
        var y := s.txns[j];
        assert TxnOk(s.tables, s.sequence, y);
        OwnersAreDisjoint(s, i, j);
        Undisturbed(s.tables, s.sequence, x, y);
      }
    }
  }

  // ---- every step, every run

  lemma ApplyKeepsInv(origin: Tables, s: State, e: Event)
    requires Inv(origin, s)
    ensures Inv(origin, Apply(s, e))
  {
    if e.txn < |s.txns| {
      var i := e.txn;
      match e
      case Fault(_) =>
        if !Ended(s.txns[i]) {
          RollBackKeepsInv(origin, s, i);
        }
      case Exec(_, env, clock) =>
        match s.txns[i].pc
        case AwaitKey =>
          var x := s.txns[i];
          assert TxnOk(s.tables, s.sequence, x);
          if KeyOf(x) !in s.locks {
            LocalStep(origin, s, Step(s, i, env, clock), i, Acquire(KeyOf(x)));
          }
        case Lookup => LookupKeepsInv(origin, s, i, env, clock);
        case Checking(_) => CheckKeepsInv(origin, s, i, env, clock);
        case Charging => ChargeKeepsInv(origin, s, i);
        case Updating => UpdateKeepsInv(origin, s, i);
        case InsertingPayment => InsertPaymentKeepsInv(origin, s, i);
        case InsertingRow(_) => InsertRowKeepsInv(origin, s, i);
        case Committing => CommitKeepsInv(origin, s, i);
        case _ =>
    }
  }

  lemma {:induction false} RunKeepsInv(t: Tables, sequence: int, calls: seq<Call>, events: seq<Event>)
    requires Ready(t, sequence)
    ensures Inv(t, Run(Start(t, sequence, calls), events))
  {
    if events != [] {
      RunKeepsInv(t, sequence, calls, events[..|events| - 1]);
      ApplyKeepsInv(t, Run(Start(t, sequence, calls), events[..|events| - 1]), events[|events| - 1]);
    }
  }
}
