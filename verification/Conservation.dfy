/** No update is lost: balances, versions and usage counts, over every run. */
module Conservation {
  import opened Schema
  import opened Checkout
  import opened PaymentMachine
  import opened PaymentInvariant
  import opened PaymentChange

  function DebitTotal(rows: seq<Row>, wallet: int): int {
    if rows == [] then 0
    else
      var r := rows[|rows| - 1];
      DebitTotal(rows[..|rows| - 1], wallet) + if r.Debit? && r.wallet == wallet then r.amount else 0
  }

  function DebitCount(rows: seq<Row>, wallet: int): int {
    if rows == [] then 0
    else
      var r := rows[|rows| - 1];
      DebitCount(rows[..|rows| - 1], wallet) + if r.Debit? && r.wallet == wallet then 1 else 0
  }

  /** The SUCCESS payments made with a code. */
  function Redemptions(payments: map<int, Payment>, qr: int): set<int> {
    set p | p in payments && payments[p].qrCode == Some(qr) && payments[p].status.Succeeded?
  }

  ghost predicate WalletConserved(w0: Wallet, rows0: seq<Row>, w: Wallet, rows: seq<Row>) {
    && w.id == w0.id
    && w.balance + DebitTotal(rows, w.id) == w0.balance + DebitTotal(rows0, w.id)
    && w.version - DebitCount(rows, w.id) == w0.version - DebitCount(rows0, w.id)
  }

  ghost predicate QrConserved(q0: QrCode, payments0: map<int, Payment>, q: QrCode, payments: map<int, Payment>) {
    && q == q0.(usageCount := q.usageCount, status := q.status)
    && q.usageCount - |Redemptions(payments, q.id)| == q0.usageCount - |Redemptions(payments0, q.id)|
    && (if q0.status.QrActive? && q0.usageCount < q0.usageLimit
        then q.status == if q.usageCount == q.usageLimit then QrUsed else QrActive
        else q == q0)
  }

  ghost predicate Conserved(t0: Tables, t: Tables) {
    && t.wallets.Keys == t0.wallets.Keys
    && (forall c | c in t0.wallets :: WalletConserved(t0.wallets[c], t0.rows, t.wallets[c], t.rows))
    && t.qrs.Keys == t0.qrs.Keys
    && (forall h | h in t0.qrs :: QrConserved(t0.qrs[h], t0.payments, t.qrs[h], t.payments))
  }

  lemma {:induction false} DebitsAppend(rows: seq<Row>, more: seq<Row>, wallet: int)
    ensures DebitTotal(rows + more, wallet) == DebitTotal(rows, wallet) + DebitTotal(more, wallet)
    ensures DebitCount(rows + more, wallet) == DebitCount(rows, wallet) + DebitCount(more, wallet)
  {
    if more == [] {
      assert rows + more == rows;
    } else {
      var all := rows + more;
      assert all[..|all| - 1] == rows + more[..|more| - 1];
      DebitsAppend(rows, more[..|more| - 1], wallet);
    }
  }

  function DebitOf(rows: seq<Row>, wallet: int): int {
    if |rows| == 1 && rows[0].Debit? && rows[0].wallet == wallet then rows[0].amount else 0
  }

  lemma DebitsOfOption(rows: seq<Row>, more: seq<Row>, wallet: int)
    requires |more| <= 1
    ensures DebitTotal(rows + more, wallet) == DebitTotal(rows, wallet) + DebitOf(more, wallet)
    ensures DebitCount(rows + more, wallet) ==
            DebitCount(rows, wallet) + if |more| == 1 && more[0].Debit? && more[0].wallet == wallet then 1 else 0
  {
    DebitsAppend(rows, more, wallet);
    if |more| == 1 {
      assert more[..0] == [];
    }
  }

  lemma ArtefactDebits(id: int, call: Call, now: Time, terms: Terms, o: Outcome, wallet: int)
    ensures var a := Artefacts(id, call, now, terms, o);
            var paid := call.body.paymentMethod.RfCard? && o.status.Succeeded? && o.wallet == Some(wallet);
            && DebitTotal(a, wallet) == (if paid then terms.price else 0)
            && DebitCount(a, wallet) == (if paid then 1 else 0)
  {
    var a := ArtefactOf(Attempts, id, call, now, terms, o);
    var b := ArtefactOf(Providers, id, call, now, terms, o);
    var c := ArtefactOf(Ledger, id, call, now, terms, o);
    var d := ArtefactOf(StartRights, id, call, now, terms, o);
    var e := ArtefactOf(Events, id, call, now, terms, o);
    var f := ArtefactOf(AuditEntries, id, call, now, terms, o);
    DebitsOfOption([], a, wallet);
    assert [] + a == a;
    DebitsOfOption(a, b, wallet);
    DebitsOfOption(a + b, c, wallet);
    DebitsOfOption(a + b + c, d, wallet);
    DebitsOfOption(a + b + c + d, e, wallet);
    DebitsOfOption(a + b + c + d + e, f, wallet);
  }

  lemma SettleConservesWallet(t0: Tables, t: Tables, call: Call, now: Time, id: int, terms: Terms, c: int)
    requires TablesOk(t) && Conserved(t0, t) && c in t.wallets
    ensures WalletConserved(t0.wallets[c], t0.rows, Settle(t, call, now, id, terms).wallets[c], Settle(t, call, now, id, terms).rows)
  {
    var o := Judge(t.qrs, t.wallets, call, now, terms);
    var w := t.wallets[c].id;
    assert WalletConserved(t0.wallets[c], t0.rows, t.wallets[c], t.rows);
    if o.wallet.Some? {
      assert t.wallets[terms.card.value].id == w ==> terms.card.value == c;
    }
    assert o.wallet == Some(w) <==> call.body.paymentMethod.RfCard? && o.status.Succeeded? && terms.card == Some(c);
    ArtefactDebits(id, call, now, terms, o, w);
    DebitsAppend(t.rows, Artefacts(id, call, now, terms, o), w);
  }

  lemma SettleConservesQr(t0: Tables, t: Tables, call: Call, now: Time, id: int, terms: Terms, h: Digest)
    requires TablesOk(t) && Conserved(t0, t) && h in t.qrs && id !in t.payments
    ensures QrConserved(t0.qrs[h], t0.payments, Settle(t, call, now, id, terms).qrs[h], Settle(t, call, now, id, terms).payments)
  {
    var o := Judge(t.qrs, t.wallets, call, now, terms);
    var t' := Settle(t, call, now, id, terms);
    var q := t.qrs[h];
    assert QrConserved(t0.qrs[h], t0.payments, q, t.payments) && QrRowOk(q);
    if o.qrCode == Some(q.id) {
      assert TokenHash(call) == h && t'.qrs[h] == Redeemed(q);
    } else {
      assert t'.qrs[h] == q;
    }
    RedemptionsGrow(t.payments, id, PaymentRow(call, now, terms, o), q.id);
  }

  lemma RedemptionsGrow(payments: map<int, Payment>, id: int, p: Payment, qr: int)
    requires id !in payments
    ensures |Redemptions(payments[id := p], qr)| ==
            |Redemptions(payments, qr)| + if p.qrCode == Some(qr) && p.status.Succeeded? then 1 else 0
  {
    var before, after := Redemptions(payments, qr), Redemptions(payments[id := p], qr);
    assert after == before + if p.qrCode == Some(qr) && p.status.Succeeded? then {id} else {};
  }

  lemma SettleConserves(t0: Tables, t: Tables, call: Call, now: Time, id: int, terms: Terms)
    requires TablesOk(t) && Conserved(t0, t) && id !in t.payments
    ensures Conserved(t0, Settle(t, call, now, id, terms))
  {
    forall c | c in t.wallets
      ensures WalletConserved(t0.wallets[c], t0.rows, Settle(t, call, now, id, terms).wallets[c], Settle(t, call, now, id, terms).rows)
    {
      SettleConservesWallet(t0, t, call, now, id, terms, c);
    }
    forall h | h in t.qrs
      ensures QrConserved(t0.qrs[h], t0.payments, Settle(t, call, now, id, terms).qrs[h], Settle(t, call, now, id, terms).payments)
    {
      SettleConservesQr(t0, t, call, now, id, terms, h);
    }
  }

  /** In every reachable state, whatever the guards read: balance plus debits is constant, the version counts the
      debits, the usage count counts the SUCCESS payments, and a code is USED exactly when it is full.  */
  lemma {:induction false} NothingIsLost(t: Tables, sequence: int, calls: seq<Call>, events: seq<Event>)
    requires Ready(t, sequence)
    ensures Conserved(t, Run(Start(t, sequence, calls), events).tables)
  {
    if events == [] {
      assert forall h | h in t.qrs :: QrRowOk(t.qrs[h]);
    } else {
      var before := events[..|events| - 1];
      var s, e := Run(Start(t, sequence, calls), before), events[|events| - 1];
      NothingIsLost(t, sequence, calls, before);
      RunKeepsInv(t, sequence, calls, before);
      var c := Classify(t, s, e);
      if c.Commit? {
        var x := s.txns[e.txn];
        SettleConserves(t, s.tables, x.call, x.now, x.id, x.terms);
      }
    }
  }
}
