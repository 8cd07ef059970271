/** Payment transactions interleaved statement by statement.

    Reads follow READ COMMITTED: a statement sees the tables as committed when it starts. A write stays in
    its transaction until the commit. Advisory and row locks are held until the transaction ends. The tables
    a payment only reads are handed to each statement, so they may change between any two statements.  */
module PaymentMachine {
  import opened Schema
  import opened Checkout

  datatype Resource =
    | KeyLock(device: int, key: string)     // pg_advisory_xact_lock
    | QrRow(token: Digest)
    | WalletRow(card: int)

  datatype Pc =
    | AwaitKey
    | Lookup
    | Checking(guard: Guard)
    | Charging
    | Updating
    | InsertingPayment
    | InsertingRow(next: nat)
    | Committing
    | Finished(reply: Reply)
    | RolledBack

  datatype Txn = Txn(
    call: Call,
    pc: Pc,
    now: Time,
    terms: Terms,
    held: Option<Resource>,                 // the row lock
    seen: Option<QrCode>,                   // the row read by SELECT ... FOR UPDATE
    outcome: Outcome,
    id: int,
    // writes not yet committed
    qr: Option<QrCode>,
    wallet: Option<Wallet>,
    payment: Option<Payment>,
    rows: seq<Row>)

  /** A finished request: where in the run it took effect, and with what. */
  datatype Entry = Entry(txn: nat, call: Call, now: Time, id: int, terms: Terms, committed: bool, reply: Reply)

  datatype State = State(
    tables: Tables,
    txns: seq<Txn>,
    locks: map<Resource, nat>,
    sequence: int,
    history: seq<Entry>)

  /** One statement of one transaction, with the read-only tables and the clock it sees; or a failure that rolls it back. */
  datatype Event = Exec(txn: nat, env: Env, now: Time) | Fault(txn: nat)

  const NO_OUTCOME := Outcome(Pending, None, 0, None, None)

  function Begin(call: Call): Txn {
    Txn(call, AwaitKey, 0, NO_TERMS, None, None, NO_OUTCOME, 0, None, None, None, [])
  }

  function KeyOf(x: Txn): Resource {
    KeyLock(x.call.device.id, x.call.key)
  }

  predicate Ended(x: Txn) {
    x.pc.Finished? || x.pc.RolledBack?
  }

  // ---- one statement

  function Put(s: State, i: nat, x: Txn): State
    requires i < |s.txns|
  {
    s.(txns := s.txns[i := x])
  }

  function Release(locks: map<Resource, nat>, i: nat): map<Resource, nat> {
    map r | r in locks && locks[r] != i :: locks[r]
  }

  /** The transaction is over: its locks and its uncommitted writes are gone. */
  function End(s: State, i: nat, pc: Pc): State
    requires i < |s.txns|
  {
    var x := s.txns[i].(pc := pc, held := None, seen := None, qr := None, wallet := None, payment := None, rows := []);
    Put(s, i, x).(locks := Release(s.locks, i))
  }

  function Finish(s: State, i: nat, now: Time, committed: bool, reply: Reply): State
    requires i < |s.txns|
  {
    var x := s.txns[i];
    End(s, i, Finished(reply)).(history := s.history + [Entry(i, x.call, now, x.id, x.terms, committed, reply)])
  }

  /** A statement breaks a constraint: the transaction is rolled back and the request fails. */
  function Abort(s: State, i: nat): State
    requires i < |s.txns|
  {
    Finish(s, i, s.txns[i].now, false, Aborted)
  }

  /** The row SELECT ... FOR UPDATE would lock, if it finds one. */
  function RowToLock(t: Tables, call: Call, terms: Terms): Option<Resource> {
    match call.body.paymentMethod
    case Qr => if TokenHash(call) in t.qrs then Some(QrRow(TokenHash(call))) else None
    case RfCard =>
      if terms.card.Some? && terms.card.value in t.wallets then Some(WalletRow(terms.card.value)) else None
    case _ => None
  }

  function ChargeStep(s: State, i: nat): State
    requires i < |s.txns|
  {
    var x := s.txns[i];
    var row := RowToLock(s.tables, x.call, x.terms);
    if row.Some? && row.value in s.locks then s
    else
      var o := Judge(s.tables.qrs, s.tables.wallets, x.call, x.now, x.terms);
      var seen := if o.qrCode.Some? && TokenHash(x.call) in s.tables.qrs then Some(s.tables.qrs[TokenHash(x.call)]) else None;
      var pc := if o.qrCode.Some? || o.wallet.Some? then Updating else InsertingPayment;
      Put(s, i, x.(pc := pc, held := row, seen := seen, outcome := o))
      .(locks := if row.Some? then s.locks[row.value := i] else s.locks)
  }

  /** The QR update writes the values computed from the row that was read; the wallet update is relative. */
  function UpdateStep(s: State, i: nat): State
    requires i < |s.txns|
  {
    var x := s.txns[i];
    if x.outcome.qrCode.Some? && x.seen.Some? && TokenHash(x.call) in s.tables.qrs then
      var usage := x.seen.value.usageCount + 1;
      var q := s.tables.qrs[TokenHash(x.call)]
               .(usageCount := usage, status := if usage >= x.seen.value.usageLimit then QrUsed else QrActive);
      if q.usageCount < 0 || q.usageCount > q.usageLimit then Abort(s, i)
      else Put(s, i, x.(pc := InsertingPayment, qr := Some(q)))
    else if x.outcome.wallet.Some? && x.terms.card.Some? && x.terms.card.value in s.tables.wallets then
      var w := Debited(s.tables.wallets[x.terms.card.value], x.terms.price, x.now);
      if w.balance < 0 then Abort(s, i)
      else Put(s, i, x.(pc := InsertingPayment, wallet := Some(w)))
    else Put(s, i, x.(pc := InsertingPayment))
  }

  function InsertPaymentStep(s: State, i: nat): State
    requires i < |s.txns|
  {
    var x := s.txns[i];
    var p := PaymentRow(x.call, x.now, x.terms, x.outcome);
    var taken := s.(sequence := s.sequence + 1);
    if p.amount < 0
       || s.sequence in s.tables.payments
       || (exists q | q in s.tables.payments :: SameKey(s.tables.payments[q], p.device, p.key))
       || (exists j | 0 <= j < |s.txns| :: j != i && s.txns[j].payment.Some? && SameKey(s.txns[j].payment.value, p.device, p.key))
    then Abort(taken, i)
    else Put(taken, i, x.(pc := InsertingRow(0), id := s.sequence, payment := Some(p)))
  }

  predicate RowAdmitted(s: State, i: nat, r: Row) {
    && RowCheckOk(r)
    && (forall k | 0 <= k < |s.tables.rows| :: !Clash(s.tables.rows[k], r))
    && (forall j, k | 0 <= j < |s.txns| && 0 <= k < |s.txns[j].rows| :: !Clash(s.txns[j].rows[k], r))
  }

  function InsertNext(s: State, i: nat, next: nat, statements: seq<Row>): State
    requires i < |s.txns|
  {
    var x := s.txns[i];
    if next >= |statements| then Put(s, i, x.(pc := Committing))
    else if !RowAdmitted(s, i, statements[next]) then Abort(s, i)
    else Put(s, i, x.(pc := InsertingRow(next + 1), rows := x.rows + [statements[next]]))
  }

  function InsertRowStep(s: State, i: nat, next: nat): State
    requires i < |s.txns|
  {
    var x := s.txns[i];
    InsertNext(s, i, next, Artefacts(x.id, x.call, x.now, x.terms, x.outcome))
  }

  /** The tables with a transaction's own writes applied. */
  function Applied(t: Tables, x: Txn): Tables {
    Tables(
      if x.qr.Some? then t.qrs[TokenHash(x.call) := x.qr.value] else t.qrs,
      if x.wallet.Some? && x.terms.card.Some? then t.wallets[x.terms.card.value := x.wallet.value] else t.wallets,
      if x.payment.Some? then t.payments[x.id := x.payment.value] else t.payments,
      t.rows + x.rows)
  }

  function CommitStep(s: State, i: nat): State
    requires i < |s.txns|
  {
    var x := s.txns[i];
    var t := Applied(s.tables, x);
    if x.id in t.payments then Finish(s.(tables := t), i, x.now, true, Accepted(Payload(t, x.id)))
    else s
  }

  ghost function Step(s: State, i: nat, env: Env, clock: Time): State
    requires i < |s.txns|
  {
    var x := s.txns[i];
    match x.pc
    case AwaitKey =>
      if KeyOf(x) in s.locks then s
      else Put(s, i, x.(pc := Lookup)).(locks := s.locks[KeyOf(x) := i])
    case Lookup =>
      if KeyTaken(s.tables.payments, x.call) then Finish(s, i, clock, false, Checkout.Replay(s.tables, x.call))
      else Put(s, i, x.(pc := Checking(Operational), now := clock, terms := NO_TERMS))
    case Checking(g) =>
      (match Check(g, env, s.tables.qrs, x.call, x.now, x.terms)
       case Failure(e) => Finish(s, i, x.now, false, Refused(e))
       case Success(t) => Put(s, i, x.(terms := t, pc := if g == Instrument then Charging else Checking(Next(g)))))
    case Charging => ChargeStep(s, i)
    case Updating => UpdateStep(s, i)
    case InsertingPayment => InsertPaymentStep(s, i)
    case InsertingRow(next) => InsertRowStep(s, i, next)
    case Committing => CommitStep(s, i)
    case Finished(_) => s
    case RolledBack => s
  }

  /** A statement that has to wait, or that comes after the end of its transaction, changes nothing. */
  ghost function Apply(s: State, e: Event): State {
    if e.txn >= |s.txns| then s
    else match e
      case Exec(i, env, now) => Step(s, i, env, now)
      case Fault(i) => if Ended(s.txns[i]) then s else End(s, i, RolledBack)
  }

  ghost function Run(s: State, events: seq<Event>): State {
    if events == [] then s else Apply(Run(s, events[..|events| - 1]), events[|events| - 1])
  }

  lemma RunSnoc(s: State, events: seq<Event>, e: Event)
    ensures Run(s, events + [e]) == Apply(Run(s, events), e)
  {
    assert (events + [e])[..|events|] == events;
  }

  ghost function Start(t: Tables, sequence: int, calls: seq<Call>): State {
    State(t, seq(|calls|, i requires 0 <= i < |calls| => Begin(calls[i])), map[], sequence, [])
  }

  /** A database the schema admits, whose sequence is past every stored id. */
  ghost predicate Ready(t: Tables, sequence: int) {
    TablesOk(t) && forall p | p in t.payments :: p < sequence
  }

  // ---- the history as a serial execution

  /** The tables after settling the committed entries one after the other. */
  ghost function Rebuild(t: Tables, history: seq<Entry>): Tables {
    if history == [] then t
    else
      var before := Rebuild(t, history[..|history| - 1]);
      var e := history[|history| - 1];
      if e.committed then Settle(before, e.call, e.now, e.id, e.terms) else before
  }

  // ---- the invariant

  function Owned(x: Txn): set<Resource> {
    if x.pc.AwaitKey? || Ended(x) then {}
    else {KeyOf(x)} + if x.held.Some? then {x.held.value} else {}
  }

  predicate Judged(x: Txn) {
    x.pc.Updating? || x.pc.InsertingPayment? || x.pc.InsertingRow? || x.pc.Committing?
  }

  predicate Engaged(x: Txn) {
    x.pc.Checking? || x.pc.Charging? || Judged(x)
  }

  predicate Inserted(x: Txn) {
    x.pc.InsertingRow? || x.pc.Committing?
  }

  ghost predicate NothingPending(x: Txn) {
    x.qr.None? && x.wallet.None? && x.payment.None? && x.rows == []
  }

  /** The decision was taken on rows that are still the committed ones, and its writes are those of Settle. */
  ghost predicate ChargeOk(t: Tables, x: Txn) {
    && x.held == RowToLock(t, x.call, x.terms)
    && x.outcome == Judge(t.qrs, t.wallets, x.call, x.now, x.terms)
    && (x.pc.Updating? ==> NothingPending(x) && (x.outcome.qrCode.Some? ==> x.seen == Some(t.qrs[TokenHash(x.call)])))
    && (!x.pc.Updating? ==>
          && x.qr == (if x.outcome.qrCode.Some? then Some(Redeemed(t.qrs[TokenHash(x.call)])) else None)
          && x.wallet == (if x.outcome.wallet.Some? then Some(Debited(t.wallets[x.terms.card.value], x.terms.price, x.now)) else None))
  }

  ghost predicate InsertsOk(t: Tables, sequence: int, x: Txn) {
    var statements := Artefacts(x.id, x.call, x.now, x.terms, x.outcome);
    && x.payment == Some(PaymentRow(x.call, x.now, x.terms, x.outcome))
    && x.outcome.amount >= 0
    && x.id < sequence && x.id !in t.payments
    && (forall k | 0 <= k < |x.rows| :: RowCheckOk(x.rows[k]))
    && (x.pc.InsertingRow? ==> x.pc.next <= |statements| && x.rows == statements[..x.pc.next])
    && (x.pc.Committing? ==> x.rows == statements)
  }

  ghost predicate ReplyOk(t: Tables, x: Txn) {
    x.pc.Finished? && x.pc.reply.Accepted? ==>
      var v := x.pc.reply.view;
      && v.id in t.payments
      && SameKey(t.payments[v.id], x.call.device.id, x.call.key)
      && t.payments[v.id].requestHash == BodyHash(x.call)
      && v == Payload(t, v.id)
  }

  /** A request that was judged ends aborted exactly when its rows do not pass the CHECK constraints. */
  ghost predicate EndingOk(x: Txn) {
    x.pc.Finished? ==>
      if x.pc.reply.Aborted? then !ChecksHold(x.id, x.call, x.now, x.terms, x.outcome)
      else x.outcome == NO_OUTCOME || ChecksHold(x.id, x.call, x.now, x.terms, x.outcome)
  }

  ghost predicate TxnOk(t: Tables, sequence: int, x: Txn) {
    && (Engaged(x) ==> !KeyTaken(t.payments, x.call))
    && (Judged(x) ==> ChargeOk(t, x))
    && (Inserted(x) ==> InsertsOk(t, sequence, x))
    && (!Judged(x) ==> NothingPending(x) && x.held.None?)
    && (!Inserted(x) ==> x.payment.None? && x.rows == [])
    && ReplyOk(t, x)
    && (!Ended(x) && !Judged(x) ==> x.outcome == NO_OUTCOME)
    && (x.outcome.wallet.Some? ==> x.call.body.paymentMethod.RfCard? && x.outcome.status.Succeeded?)
    && EndingOk(x)
  }

  ghost predicate LocksOk(s: State) {
    && (forall r | r in s.locks :: s.locks[r] < |s.txns| && r in Owned(s.txns[s.locks[r]]))
    && (forall i, r | 0 <= i < |s.txns| && r in Owned(s.txns[i]) :: r in s.locks && s.locks[r] == i)
  }

  ghost predicate IdsOk(s: State) {
    && (forall p | p in s.tables.payments :: p < s.sequence)
    && (forall i, j | 0 <= i < j < |s.txns| && Inserted(s.txns[i]) && Inserted(s.txns[j]) :: s.txns[i].id != s.txns[j].id)
  }

  ghost predicate Inv(origin: Tables, s: State) {
    && TablesOk(s.tables)
    && LocksOk(s)
    && IdsOk(s)
    && (forall i | 0 <= i < |s.txns| :: TxnOk(s.tables, s.sequence, s.txns[i]))
    && s.tables == Rebuild(origin, s.history)
  }
}
