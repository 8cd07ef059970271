/** Many requests competing for one QR code or one wallet. */
module Contention {
  import opened Schema
  import opened Checkout
  import opened PaymentMachine
  import opened PaymentInvariant
  import opened PaymentChange
  import opened Serializability
  import opened PaymentRows
  import opened PaymentProgress

  /** What the requests of a round compete for. */
  datatype Prize = OneQr(token: Digest) | OneWallet(card: int, price: int)

  function Min(a: int, b: int): int {
    if a < b then a else b
  }

  ghost predicate Offered(prize: Prize, t: Tables) {
    match prize
    case OneQr(token) => token in t.qrs
    case OneWallet(card, price) => card in t.wallets && price > 0
  }

  /** How many payments the prize can still pay for. */
  function Capacity(prize: Prize, t: Tables): int
    requires Offered(prize, t)
  {
    match prize
    case OneQr(token) => if t.qrs[token].status.QrActive? then t.qrs[token].usageLimit - t.qrs[token].usageCount else 0
    case OneWallet(card, price) => t.wallets[card].balance / price
  }

  function LoserCode(prize: Prize): ErrorCode {
    match prize
    case OneQr(_) => QrInvalid
    case OneWallet(_, _) => RfInsufficientBalance
  }

  /** A request that passes every guard at `now` and asks for this prize. */
  ghost predicate Contends(prize: Prize, env: Env, qrs: map<Digest, QrCode>, call: Call, now: Time) {
    && Verdict(env, qrs, call, now).Success?
    && match prize
       case OneQr(token) =>
         call.body.paymentMethod.Qr? && TokenHash(call) == token && token in qrs
         && qrs[token].startsAt <= now < qrs[token].expiresAt
       case OneWallet(card, price) =>
         call.body.paymentMethod.RfCard?
         && Verdict(env, qrs, call, now).value.card == Some(card)
         && Verdict(env, qrs, call, now).value.price == price
  }

  ghost predicate Distinct(t: Tables, calls: seq<Call>) {
    && (forall i | 0 <= i < |calls| :: !KeyTaken(t.payments, calls[i]))
    && (forall i, j | 0 <= i < j < |calls| :: KeyLock(calls[i].device.id, calls[i].key) != KeyLock(calls[j].device.id, calls[j].key))
  }

  /** N valid requests with distinct, unused keys, under constant read-only tables. */
  ghost predicate Round(prize: Prize, env: Env, t: Tables, calls: seq<Call>, events: seq<Event>) {
    && Constantly(env, events)
    && Offered(prize, t)
    && Distinct(t, calls)
    && (forall i, k | 0 <= i < |calls| && 0 <= k < |events| && events[k].Exec? :: Contends(prize, env, t.qrs, calls[i], events[k].now))
  }

  // ---- counting replies

  function Tally(txns: seq<Txn>, status: PaymentStatus): nat {
    if txns == [] then 0
    else
      var x := txns[|txns| - 1];
      Tally(txns[..|txns| - 1], status)
      + if x.pc.Finished? && x.pc.reply.Accepted? && x.pc.reply.view.status == status then 1 else 0
  }

  lemma {:induction false} TallyOfUpdate(txns: seq<Txn>, i: nat, x: Txn, status: PaymentStatus)
    requires i < |txns|
    ensures Tally(txns[i := x], status) ==
            Tally(txns, status)
            - (if txns[i].pc.Finished? && txns[i].pc.reply.Accepted? && txns[i].pc.reply.view.status == status then 1 else 0)
            + (if x.pc.Finished? && x.pc.reply.Accepted? && x.pc.reply.view.status == status then 1 else 0)
  {
    var last := |txns| - 1;
    if i == last {
      assert txns[i := x][..last] == txns[..last];
    } else {
      assert txns[i := x][..last] == txns[..last][i := x];
      TallyOfUpdate(txns[..last], i, x, status);
    }
  }

  // ---- the prize after n settled requests

  ghost predicate StockIs(prize: Prize, t0: Tables, t: Tables, n: nat)
    requires Offered(prize, t0)
  {
    var won := Min(n, Capacity(prize, t0));
    && Offered(prize, t)
    && match prize
       case OneQr(token) =>
         t.qrs[token] == (if won == 0 then t0.qrs[token] else t0.qrs[token].(
                                                             usageCount := t0.qrs[token].usageCount + won,
                                                             status := if won == Capacity(prize, t0) then QrUsed else QrActive))
       case OneWallet(card, price) =>
         && t.wallets[card].id == t0.wallets[card].id
         && t.wallets[card].balance == t0.wallets[card].balance - price * won
         && t.wallets[card].version == t0.wallets[card].version + won
  }

  /** Passing the guards fixes the scope a QR code is compared with. */
  lemma GuardsFixScope(env: Env, qrs: map<Digest, QrCode>, call: Call, now: Time)
    requires Verdict(env, qrs, call, now).Success? && call.body.paymentMethod.Qr?
    ensures var terms := Verdict(env, qrs, call, now).value;
            && TokenHash(call) in qrs
            && qrs[TokenHash(call)].company == terms.company
            && qrs[TokenHash(call)].station == call.device.station
            && qrs[TokenHash(call)].program == terms.program
  {
    var t4 := ArriveAt(Price, env, qrs, call, now);
    var t3 := ArriveAt(MethodEnabled, env, qrs, call, now);
    var t2 := ArriveAt(Entitlement, env, qrs, call, now);
    var t1 := ArriveAt(ProgramRow, env, qrs, call, now);
    var t0 := ArriveAt(Resolve, env, qrs, call, now);
    assert t0.Success? && t1.Success? && t2.Success? && t3.Success? && t4.Success?;
  }

  lemma PriceStep(balance: int, price: int, won: int)
    requires price > 0 && 0 <= won && balance >= 0
    ensures balance - price * won >= price <==> won < balance / price
  {
    if won < balance / price {
      assert price * (won + 1) <= price * (balance / price) <= balance;
    } else {
      assert price * (won + 1) >= price * (balance / price + 1) > balance;
    }
  }

  lemma NextRedemption(env: Env, t0: Tables, t: Tables, call: Call, now: Time, id: int, terms: Terms, n: nat, token: Digest)
    requires TablesOk(t0) && token in t0.qrs && StockIs(OneQr(token), t0, t, n)
    requires Contends(OneQr(token), env, t0.qrs, call, now) && Verdict(env, t0.qrs, call, now) == Success(terms)
    ensures n < Capacity(OneQr(token), t0) <==> QrRedeemable(t.qrs[token], call, now, terms)
    ensures StockIs(OneQr(token), t0, Settle(t, call, now, id, terms), n + 1)
  {
    GuardsFixScope(env, t0.qrs, call, now);
    assert QrRowOk(t0.qrs[token]);
    SettledQr(t, call, now, id, terms);
  }

  lemma SettledQr(t: Tables, call: Call, now: Time, id: int, terms: Terms)
    requires call.body.paymentMethod.Qr? && TokenHash(call) in t.qrs
    ensures var qrs, q := Settle(t, call, now, id, terms).qrs, t.qrs[TokenHash(call)];
            TokenHash(call) in qrs && qrs[TokenHash(call)] == if QrRedeemable(q, call, now, terms) then Redeemed(q) else q
  {
  }

  lemma NextDebit(env: Env, t0: Tables, t: Tables, call: Call, now: Time, id: int, terms: Terms, n: nat, card: int, price: int)
    requires TablesOk(t0) && Offered(OneWallet(card, price), t0) && StockIs(OneWallet(card, price), t0, t, n)
    requires Contends(OneWallet(card, price), env, t0.qrs, call, now) && Verdict(env, t0.qrs, call, now) == Success(terms)
    ensures n < Capacity(OneWallet(card, price), t0) <==> t.wallets[card].balance >= price
    ensures StockIs(OneWallet(card, price), t0, Settle(t, call, now, id, terms), n + 1)
  {
    assert WalletRowOk(t0.wallets[card]);
    DebitArithmetic(t0.wallets[card].balance, price, n);
    SettledWallet(t, call, now, id, terms, card, price);
  }

  lemma DebitArithmetic(balance: int, price: int, n: nat)
    requires price > 0 && balance >= 0
    ensures var won := Min(n, balance / price);
            && (n < balance / price <==> balance - price * won >= price)
            && price * Min(n + 1, balance / price) == price * won + if n < balance / price then price else 0
  {
    var won := Min(n, balance / price);
    PriceStep(balance, price, won);
    assert price * (won + 1) == price * won + price;
  }

  lemma SettledWallet(t: Tables, call: Call, now: Time, id: int, terms: Terms, card: int, price: int)
    requires call.body.paymentMethod.RfCard? && terms.card == Some(card) && terms.price == price && card in t.wallets
    ensures var w := Settle(t, call, now, id, terms).wallets;
            card in w && w[card] == if t.wallets[card].balance >= price then Debited(t.wallets[card], price, now) else t.wallets[card]
  {
  }

  /** The next settled request wins exactly while something is left. */
  lemma NextSettlement(prize: Prize, env: Env, t0: Tables, t: Tables, call: Call, now: Time, id: int, terms: Terms, n: nat)
    requires TablesOk(t0) && Offered(prize, t0) && StockIs(prize, t0, t, n)
    requires Contends(prize, env, t0.qrs, call, now) && Verdict(env, t0.qrs, call, now) == Success(terms)
    ensures var o := Judge(t.qrs, t.wallets, call, now, terms);
            if n < Capacity(prize, t0) then o.status.Succeeded? && o.error.None?
            else o.status.Failed? && o.error == Some(LoserCode(prize))
    ensures StockIs(prize, t0, Settle(t, call, now, id, terms), n + 1)
  {
    match prize
    case OneQr(token) => NextRedemption(env, t0, t, call, now, id, terms, n, token);
    case OneWallet(card, price) => NextDebit(env, t0, t, call, now, id, terms, n, card, price);
  }

  // ---- the round

  ghost predicate Fair(prize: Prize, env: Env, qrs: map<Digest, QrCode>, x: Txn) {
    && (Engaged(x) ==> Contends(prize, env, qrs, x.call, x.now))
    && (x.pc.Finished? ==>
          x.pc.reply.Accepted?
          && var v := x.pc.reply.view;
             (v.status.Succeeded? && v.error.None?) || (v.status.Failed? && v.error == Some(LoserCode(prize))))
  }

  ghost predicate Lineup(prize: Prize, env: Env, t: Tables, calls: seq<Call>, s: State) {
    && |s.txns| == |calls|
    && forall i | 0 <= i < |calls| :: s.txns[i].call == calls[i] && Fair(prize, env, t.qrs, s.txns[i])
  }

  /** Of the requests answered so far, exactly as many won as the capacity allows, and the stock shows it. */
  ghost predicate Score(prize: Prize, t: Tables, s: State)
    requires Offered(prize, t)
  {
    var wins, losses := Tally(s.txns, Succeeded), Tally(s.txns, Failed);
    && wins == Min(wins + losses, Capacity(prize, t))
    && StockIs(prize, t, s.tables, wins + losses)
  }

  /** What every run knows (see Serializability and PaymentRows), gathered for the round. */
  ghost predicate Backed(env: Env, t: Tables, s: State) {
    && Inv(t, s) && SerialSoFar(env, t, s)
    && NewPaymentsComplete(t, s.tables) && PaymentsAreAnswered(t, s)
    && SameScope(t.qrs, s.tables.qrs)
    && PricesOk(s)
  }

  lemma RunIsBacked(env: Env, t: Tables, sequence: int, calls: seq<Call>, events: seq<Event>)
    requires Ready(t, sequence) && Constantly(env, events) && PricesAdmitted(env)
    ensures Backed(env, t, Run(Start(t, sequence, calls), events))
  {
    RunKeepsInv(t, sequence, calls, events);
    RunIsSerial(env, t, sequence, calls, events);
    CommittedPaymentsAreComplete(t, sequence, calls, events);
    RunKeepsAnswered(t, sequence, calls, events);
    ScopeNeverChanges(t, sequence, calls, events);
    PricesStayOk(t, sequence, calls, events);
  }

  lemma {:induction false} ScopeNeverChanges(t: Tables, sequence: int, calls: seq<Call>, events: seq<Event>)
    requires Ready(t, sequence)
    ensures SameScope(t.qrs, Run(Start(t, sequence, calls), events).tables.qrs)
  {
    if events != [] {
      var before := events[..|events| - 1];
      var s := Run(Start(t, sequence, calls), before);
      ScopeNeverChanges(t, sequence, calls, before);
      RunKeepsInv(t, sequence, calls, before);
      var c := Classify(t, s, events[|events| - 1]);
      if c.Commit? {
        var x := s.txns[events[|events| - 1].txn];
        CommitKeepsScope(s.tables, x.call, x.now, x.id, x.terms);
      }
    }
  }

  /** In a round the key of a request that has not finished is still free. */
  lemma KeyStillFree(prize: Prize, env: Env, t: Tables, calls: seq<Call>, s: State, i: nat)
    requires Distinct(t, calls) && Lineup(prize, env, t, calls, s)
    requires NewPaymentsComplete(t, s.tables) && PaymentsAreAnswered(t, s)
    requires i < |calls| && !s.txns[i].pc.Finished?
    ensures !KeyTaken(s.tables.payments, calls[i])
  {
    forall p | p in s.tables.payments
      ensures !SameKey(s.tables.payments[p], calls[i].device.id, calls[i].key)
    {
      if p in t.payments {
        assert !KeyTaken(t.payments, calls[i]);
      } else {
        var j: nat :| Answered(s, j, p);
        assert calls[j] == s.txns[j].call;
        assert i < j || j < i;
      }
    }
  }

  /** So nobody is refused: a conflict would need a taken key, a refusal a guard that fails, an abort a free program. */
  lemma NoRefusal(prize: Prize, env: Env, t: Tables, calls: seq<Call>, s: State, e: Event, now: Time, reply: Reply)
    requires Offered(prize, t) && Distinct(t, calls) && Lineup(prize, env, t, calls, s) && Backed(env, t, s)
    requires e.Exec? && e.env == env
    ensures !Follows(s, e, Apply(s, e), Answer(now, reply))
  {
    if Follows(s, e, Apply(s, e), Answer(now, reply)) {
      var x := s.txns[e.txn];
      KeyStillFree(prize, env, t, calls, s, e.txn);
      assert CheckedUnder(env, s.tables.qrs, x) && Fair(prize, env, t.qrs, x);
      VerdictIgnoresUsage(env, t.qrs, s.tables.qrs, x.call, x.now);
      if x.pc.Checking? {
        RefusalIsFinal(x.pc.guard, env, s.tables.qrs, x.call, x.now, x.terms, reply.code);
      } else if Inserting(x) {
        assert TxnOk(s.tables, s.sequence, x);
        ContenderPasses(prize, env, t.qrs, s.tables, s.sequence, x);
        assert false;
      }
    }
  }

  /** The rows of a competing request pass the CHECK constraints: a wallet is contested at a positive price. */
  lemma ContenderPasses(prize: Prize, env: Env, qrs: map<Digest, QrCode>, t: Tables, sequence: int, x: Txn)
    requires Contends(prize, env, qrs, x.call, x.now) && (prize.OneWallet? ==> prize.price > 0)
    requires Verdict(env, qrs, x.call, x.now) == Success(x.terms)
    requires x.outcome.amount >= 0 && TxnOk(t, sequence, x)
    ensures ChecksHold(x.id, x.call, x.now, x.terms, x.outcome)
  {
    ChecksHoldExactly(x.id, x.call, x.now, x.terms, x.outcome);
  }

  /** The n-th request to be settled was told that it won, or that it came too late. */
  ghost predicate AnswerIs(prize: Prize, t: Tables, n: nat, x: Txn)
    requires Offered(prize, t)
  {
    && x.pc.Finished? && x.pc.reply.Accepted?
    && var v := x.pc.reply.view;
    if n < Capacity(prize, t) then v.status.Succeeded? && v.error.None?
    else v.status.Failed? && v.error == Some(LoserCode(prize))
  }

  /** The charge is Judge's on the committed tables, and the reply carries its status. */
  lemma CommitOutcome(prize: Prize, env: Env, t: Tables, s: State, e: Event, s': State, n: nat)
    requires TablesOk(t) && Offered(prize, t) && SerialSoFar(env, t, s) && SameScope(t.qrs, s.tables.qrs)
    requires StockIs(prize, t, s.tables, n)
    requires Follows(s, e, s', Commit) && Contends(prize, env, t.qrs, s.txns[e.txn].call, s.txns[e.txn].now)
    ensures StockIs(prize, t, s'.tables, n + 1) && AnswerIs(prize, t, n, s'.txns[e.txn])
  {
    var x := s.txns[e.txn];
    assert CheckedUnder(env, s.tables.qrs, x);
    VerdictIgnoresUsage(env, t.qrs, s.tables.qrs, x.call, x.now);
    NextSettlement(prize, env, t, s.tables, x.call, x.now, x.id, x.terms, n);
    CommitReply(s, e, s');
  }

  lemma CommitReply(s: State, e: Event, s': State)
    requires Follows(s, e, s', Commit)
    ensures var x := s.txns[e.txn];
            var o := Judge(s.tables.qrs, s.tables.wallets, x.call, x.now, x.terms);
            && s'.txns[e.txn].pc.Finished? && s'.txns[e.txn].pc.reply.Accepted?
            && s'.txns[e.txn].pc.reply.view.status == o.status && s'.txns[e.txn].pc.reply.view.error == o.error
  {
  }

  lemma AnswerIsFair(prize: Prize, env: Env, t: Tables, n: nat, x: Txn)
    requires Offered(prize, t) && AnswerIs(prize, t, n, x)
    ensures Fair(prize, env, t.qrs, x)
  {
  }

  lemma CommitterContends(prize: Prize, env: Env, qrs: map<Digest, QrCode>, s: State, e: Event, s': State)
    requires Follows(s, e, s', Commit) && Fair(prize, env, qrs, s.txns[e.txn])
    ensures Contends(prize, env, qrs, s.txns[e.txn].call, s.txns[e.txn].now)
  {
    assert Engaged(s.txns[e.txn]);
  }

  lemma CommitShape(s: State, e: Event, s': State)
    requires Follows(s, e, s', Commit)
    ensures e.txn < |s.txns| && |s'.txns| == |s.txns| && s'.txns == s.txns[e.txn := s'.txns[e.txn]]
    ensures s.txns[e.txn].pc.Committing? && s'.txns[e.txn].call == s.txns[e.txn].call
  {
  }

  lemma ScoreOneMore(prize: Prize, t: Tables, s: State, s': State, i: nat)
    requires TablesOk(t) && Offered(prize, t) && Score(prize, t, s)
    requires i < |s.txns| && |s'.txns| == |s.txns| && s'.txns == s.txns[i := s'.txns[i]] && !s.txns[i].pc.Finished?
    requires var n := Tally(s.txns, Succeeded) + Tally(s.txns, Failed);
             StockIs(prize, t, s'.tables, n + 1) && AnswerIs(prize, t, n, s'.txns[i])
    ensures Score(prize, t, s')
  {
    StartStock(prize, t);
    CountOneMore(s, s', i);
  }

  lemma CountOneMore(s: State, s': State, i: nat)
    requires i < |s.txns| && |s'.txns| == |s.txns| && s'.txns == s.txns[i := s'.txns[i]]
    requires !s.txns[i].pc.Finished? && s'.txns[i].pc.Finished? && s'.txns[i].pc.reply.Accepted?
    ensures forall status: PaymentStatus ::
              Tally(s'.txns, status) == Tally(s.txns, status) + if s'.txns[i].pc.reply.view.status == status then 1 else 0
  {
    forall status: PaymentStatus {
      TallyOfUpdate(s.txns, i, s'.txns[i], status);
    }
  }

  /** What the commit of transaction `i` did to the round: request number `n` was settled. */
  ghost predicate OneMoreSettled(prize: Prize, t: Tables, s: State, s': State, i: nat, n: nat)
    requires Offered(prize, t)
  {
    && i < |s.txns| && |s'.txns| == |s.txns| && s'.txns == s.txns[i := s'.txns[i]]
    && !s.txns[i].pc.Finished? && s'.txns[i].call == s.txns[i].call
    && StockIs(prize, t, s'.tables, n + 1) && AnswerIs(prize, t, n, s'.txns[i])
  }

  lemma CommitEffect(prize: Prize, env: Env, t: Tables, s: State, e: Event, s': State, n: nat)
    requires TablesOk(t) && Offered(prize, t) && SerialSoFar(env, t, s) && SameScope(t.qrs, s.tables.qrs)
    requires StockIs(prize, t, s.tables, n)
    requires Follows(s, e, s', Commit) && Contends(prize, env, t.qrs, s.txns[e.txn].call, s.txns[e.txn].now)
    ensures OneMoreSettled(prize, t, s, s', e.txn, n)
  {
    CommitOutcome(prize, env, t, s, e, s', n);
    CommitShape(s, e, s');
  }

  lemma SettledScores(prize: Prize, env: Env, t: Tables, calls: seq<Call>, s: State, s': State, i: nat, n: nat)
    requires TablesOk(t) && Offered(prize, t) && Lineup(prize, env, t, calls, s) && Score(prize, t, s)
    requires n == Tally(s.txns, Succeeded) + Tally(s.txns, Failed) && OneMoreSettled(prize, t, s, s', i, n)
    ensures Lineup(prize, env, t, calls, s') && Score(prize, t, s')
  {
    AnswerIsFair(prize, env, t, n, s'.txns[i]);
    ScoreOneMore(prize, t, s, s', i);
    LineupMoves(prize, env, t, calls, s, s', i);
  }

  lemma LineupMoves(prize: Prize, env: Env, t: Tables, calls: seq<Call>, s: State, s': State, i: nat)
    requires Lineup(prize, env, t, calls, s) && i < |s.txns|
    requires |s'.txns| == |s.txns| && s'.txns == s.txns[i := s'.txns[i]]
    requires s'.txns[i].call == s.txns[i].call && Fair(prize, env, t.qrs, s'.txns[i])
    ensures Lineup(prize, env, t, calls, s')
  {
  }

  /** A request reads the clock once, at its lookup. */
  lemma LocalFacts(s: State, e: Event)
    requires Follows(s, e, Apply(s, e), Local)
    ensures var x, x' := s.txns[e.txn], Apply(s, e).txns[e.txn];
            Engaged(x') ==> e.Exec? && if x.pc.Lookup? then x'.now == e.now else Engaged(x) && x'.now == x.now
  {
    if e.Exec? {
      match s.txns[e.txn].pc
      case AwaitKey => StatementIsLocal(s, e.txn, e.env, e.now);
      case Charging => StatementIsLocal(s, e.txn, e.env, e.now);
      case Updating => StatementIsLocal(s, e.txn, e.env, e.now);
      case InsertingPayment => StatementIsLocal(s, e.txn, e.env, e.now);
      case InsertingRow(_) => StatementIsLocal(s, e.txn, e.env, e.now);
      case _ =>
    }
  }

  lemma LocalKeepsRound(prize: Prize, env: Env, t: Tables, calls: seq<Call>, s: State, e: Event)
    requires Offered(prize, t) && Backed(env, t, s) && PricesAdmitted(env)
    requires Lineup(prize, env, t, calls, s) && Score(prize, t, s)
    requires Follows(s, e, Apply(s, e), Local)
    requires e.Exec? ==> Contends(prize, env, t.qrs, calls[e.txn], e.now)
    ensures Lineup(prize, env, t, calls, Apply(s, e)) && Score(prize, t, Apply(s, e))
  {
    var i := e.txn;
    var s' := Apply(s, e);
    assert Fair(prize, env, t.qrs, s.txns[i]) && s.txns[i].call == calls[i];
    LocalStaysFair(prize, env, t, s, e);
    LineupMoves(prize, env, t, calls, s, s', i);
    ScoreStays(prize, t, s, e, s');
  }

  lemma ScoreStays(prize: Prize, t: Tables, s: State, e: Event, s': State)
    requires Offered(prize, t) && Score(prize, t, s) && Follows(s, e, s', Local)
    ensures Score(prize, t, s')
  {
    TallyOfUpdate(s.txns, e.txn, s'.txns[e.txn], Succeeded);
    TallyOfUpdate(s.txns, e.txn, s'.txns[e.txn], Failed);
  }

  lemma LocalStaysFair(prize: Prize, env: Env, t: Tables, s: State, e: Event)
    requires Offered(prize, t) && Backed(env, t, s) && PricesAdmitted(env)
    requires Follows(s, e, Apply(s, e), Local) && Fair(prize, env, t.qrs, s.txns[e.txn])
    requires e.Exec? ==> Contends(prize, env, t.qrs, s.txns[e.txn].call, e.now)
    ensures Fair(prize, env, t.qrs, Apply(s, e).txns[e.txn])
  {
    LocalFacts(s, e);
  }

  lemma StepKeepsRound(prize: Prize, env: Env, t: Tables, calls: seq<Call>, s: State, e: Event, s': State)
    requires TablesOk(t) && Offered(prize, t) && Distinct(t, calls) && Backed(env, t, s) && PricesAdmitted(env)
    requires Lineup(prize, env, t, calls, s) && Score(prize, t, s)
    requires s' == Apply(s, e)
    requires e.Exec? ==> e.env == env && forall i | 0 <= i < |calls| :: Contends(prize, env, t.qrs, calls[i], e.now)
    ensures Lineup(prize, env, t, calls, s') && Score(prize, t, s')
  {
    var c := Classify(t, s, e);
    match c
    case Nothing =>
    case Local => LocalKeepsRound(prize, env, t, calls, s, e);
    case Answer(now, reply) => NoRefusal(prize, env, t, calls, s, e, now, reply);
    case Commit =>
      assert Fair(prize, env, t.qrs, s.txns[e.txn]);
      CommitKeepsRound(prize, env, t, calls, s, e, s', Tally(s.txns, Succeeded) + Tally(s.txns, Failed));
  }

  lemma CommitKeepsRound(prize: Prize, env: Env, t: Tables, calls: seq<Call>, s: State, e: Event, s': State, n: nat)
    requires TablesOk(t) && Offered(prize, t) && SerialSoFar(env, t, s) && SameScope(t.qrs, s.tables.qrs)
    requires Lineup(prize, env, t, calls, s) && Score(prize, t, s) && Follows(s, e, s', Commit)
    requires Fair(prize, env, t.qrs, s.txns[e.txn]) && n == Tally(s.txns, Succeeded) + Tally(s.txns, Failed)
    ensures Lineup(prize, env, t, calls, s') && Score(prize, t, s')
  {
    CommitSettles(prize, env, t, s, e, s', n);
    SettledScores(prize, env, t, calls, s, s', e.txn, n);
  }

  lemma CommitSettles(prize: Prize, env: Env, t: Tables, s: State, e: Event, s': State, n: nat)
    requires TablesOk(t) && Offered(prize, t) && SerialSoFar(env, t, s) && SameScope(t.qrs, s.tables.qrs) && StockIs(prize, t, s.tables, n)
    requires Follows(s, e, s', Commit) && Fair(prize, env, t.qrs, s.txns[e.txn])
    ensures OneMoreSettled(prize, t, s, s', e.txn, n)
  {
    CommitterContends(prize, env, t.qrs, s, e, s');
    CommitEffect(prize, env, t, s, e, s', n);
  }

  lemma {:induction false} RoundHolds(prize: Prize, env: Env, t: Tables, sequence: int, calls: seq<Call>, events: seq<Event>)
    requires Ready(t, sequence) && Round(prize, env, t, calls, events) && PricesAdmitted(env)
    ensures var s := Run(Start(t, sequence, calls), events);
            Lineup(prize, env, t, calls, s) && Score(prize, t, s)
  {
    var s0 := Start(t, sequence, calls);
    if events == [] {
      StartTally(s0.txns, Succeeded);
      StartTally(s0.txns, Failed);
      StartStock(prize, t);
    } else {
      var before, e := events[..|events| - 1], events[|events| - 1];
      var s := Run(s0, before);
      RoundHolds(prize, env, t, sequence, calls, before);
      RunIsBacked(env, t, sequence, calls, before);
      StepKeepsRound(prize, env, t, calls, s, e, Apply(s, e));
    }
  }

  lemma StartStock(prize: Prize, t: Tables)
    requires TablesOk(t) && Offered(prize, t)
    ensures Capacity(prize, t) >= 0 && StockIs(prize, t, t, 0)
  {
    match prize
    case OneQr(token) => assert QrRowOk(t.qrs[token]);
    case OneWallet(card, _) => assert WalletRowOk(t.wallets[card]);
  }

  lemma {:induction false} StartTally(txns: seq<Txn>, status: PaymentStatus)
    requires forall i | 0 <= i < |txns| :: !txns[i].pc.Finished?
    ensures Tally(txns, status) == 0
  {
    if txns != [] {
      StartTally(txns[..|txns| - 1], status);
    }
  }

  lemma {:induction false} TallyAll(txns: seq<Txn>)
    requires forall i | 0 <= i < |txns| :: txns[i].pc.Finished? && txns[i].pc.reply.Accepted?
                                           && (txns[i].pc.reply.view.status.Succeeded? || txns[i].pc.reply.view.status.Failed?)
    ensures Tally(txns, Succeeded) + Tally(txns, Failed) == |txns|
  {
    if txns != [] {
      TallyAll(txns[..|txns| - 1]);
    }
  }

  ghost predicate NoFaults(events: seq<Event>) {
    forall k | 0 <= k < |events| :: events[k].Exec?
  }

  lemma StepDoesNotRollBack(s: State, e: Event, i: nat)
    requires e.Exec? && i < |s.txns| && !s.txns[i].pc.RolledBack?
    ensures i < |Apply(s, e).txns| && !Apply(s, e).txns[i].pc.RolledBack?
  {
    if e.txn < |s.txns| {
      match s.txns[e.txn].pc
      case AwaitKey => StatementIsLocal(s, e.txn, e.env, e.now);
      case Charging => StatementIsLocal(s, e.txn, e.env, e.now);
      case Updating => StatementIsLocal(s, e.txn, e.env, e.now);
      case InsertingPayment => StatementIsLocal(s, e.txn, e.env, e.now);
      case InsertingRow(_) => StatementIsLocal(s, e.txn, e.env, e.now);
      case _ =>
    }
  }

  lemma {:induction false} NoFaultNoRollback(t: Tables, sequence: int, calls: seq<Call>, events: seq<Event>, i: nat)
    requires NoFaults(events) && i < |calls|
    ensures i < |Run(Start(t, sequence, calls), events).txns| && !Run(Start(t, sequence, calls), events).txns[i].pc.RolledBack?
  {
    if events != [] {
      var before := events[..|events| - 1];
      NoFaultNoRollback(t, sequence, calls, before, i);
      StepDoesNotRollBack(Run(Start(t, sequence, calls), before), events[|events| - 1], i);
    }
  }

  /** Exactly min(N, capacity) of N competing requests succeed in every complete schedule; each other one is stored
      as FAILED with the losing code; the code or wallet ends at exactly the matching count or balance.  */
  lemma ExactlyTheCapacityWins(prize: Prize, env: Env, t: Tables, sequence: int, calls: seq<Call>, events: seq<Event>)
    requires Ready(t, sequence) && Round(prize, env, t, calls, events) && PricesAdmitted(env)
    requires NoFaults(events) && AllEnded(Run(Start(t, sequence, calls), events))
    ensures var s := Run(Start(t, sequence, calls), events);
            && Tally(s.txns, Succeeded) == Min(|calls|, Capacity(prize, t))
            && Tally(s.txns, Failed) == |calls| - Min(|calls|, Capacity(prize, t))
            && Lineup(prize, env, t, calls, s)
            && StockIs(prize, t, s.tables, |calls|)
  {
    var s := Run(Start(t, sequence, calls), events);
    RoundHolds(prize, env, t, sequence, calls, events);
    forall i | 0 <= i < |calls|
      ensures s.txns[i].pc.Finished?
    {
      NoFaultNoRollback(t, sequence, calls, events, i);
      assert Fair(prize, env, t.qrs, s.txns[i]);
    }
    TallyAll(s.txns);
  }

  /** One request won, every other one was stored as FAILED with the losing code. */
  ghost predicate OneWinner(prize: Prize, txns: seq<Txn>) {
    && Tally(txns, Succeeded) == 1
    && Tally(txns, Failed) == |txns| - 1
    && forall i | 0 <= i < |txns| ::
         && txns[i].pc.Finished? && txns[i].pc.reply.Accepted?
         && (txns[i].pc.reply.view.status.Succeeded? || txns[i].pc.reply.view.error == Some(LoserCode(prize)))
  }

  lemma LastOneWins(prize: Prize, env: Env, t: Tables, sequence: int, calls: seq<Call>, events: seq<Event>)
    requires Ready(t, sequence) && Round(prize, env, t, calls, events) && PricesAdmitted(env)
    requires NoFaults(events) && AllEnded(Run(Start(t, sequence, calls), events))
    requires Capacity(prize, t) == 1 && calls != []
    ensures OneWinner(prize, Run(Start(t, sequence, calls), events).txns)
    ensures StockIs(prize, t, Run(Start(t, sequence, calls), events).tables, 1)
  {
    var s := Run(Start(t, sequence, calls), events);
    ExactlyTheCapacityWins(prize, env, t, sequence, calls, events);
    forall i | 0 <= i < |s.txns|
      ensures s.txns[i].pc.Finished? && Fair(prize, env, t.qrs, s.txns[i])
    {
      NoFaultNoRollback(t, sequence, calls, events, i);
      assert Fair(prize, env, t.qrs, s.txns[i]);
    }
    SoldOut(prize, t, s.tables, |calls|);
  }

  lemma SoldOut(prize: Prize, t: Tables, t': Tables, n: nat)
    requires Offered(prize, t) && Capacity(prize, t) == 1 && n >= 1 && StockIs(prize, t, t', n)
    ensures StockIs(prize, t, t', 1)
  {
  }

  /** With rollbacks allowed and at any moment of the run, the requests answered so far split the same way. */
  lemma NeverMoreThanTheCapacity(prize: Prize, env: Env, t: Tables, sequence: int, calls: seq<Call>, events: seq<Event>)
    requires Ready(t, sequence) && Round(prize, env, t, calls, events) && PricesAdmitted(env)
    ensures Score(prize, t, Run(Start(t, sequence, calls), events))
  {
    RoundHolds(prize, env, t, sequence, calls, events);
  }
}
