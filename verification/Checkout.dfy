/** What one payment request does when nothing runs beside it. */
module Checkout {
  import opened Schema
  import opened Json

  // ---- RF card uids

  predicate IsHex(c: char) {
    '0' <= c <= '9' || 'A' <= c <= 'F' || 'a' <= c <= 'f'
  }

  function Upper(c: char): char {
    if 'a' <= c <= 'f' then c - 'a' + 'A' else c
  }

  /** The hexadecimal digits of `value`, in order and in upper case. */
  function HexDigits(value: string): (r: string)
    ensures forall k | 0 <= k < |r| :: '0' <= r[k] <= '9' || 'A' <= r[k] <= 'F'
  {
    if value == "" then ""
    else if IsHex(value[0]) then [Upper(value[0])] + HexDigits(value[1..])
    else HexDigits(value[1..])
  }

  function NormalizeUid(value: string): Option<string> {
    var n := HexDigits(value);
    if |n| < 8 || |n| > 64 || |n| % 2 != 0 then None else Some(n)
  }

  lemma {:induction false} HexDigitsFixed(n: string)
    requires forall k | 0 <= k < |n| :: '0' <= n[k] <= '9' || 'A' <= n[k] <= 'F'
    ensures HexDigits(n) == n
  {
    if n != "" {
      HexDigitsFixed(n[1..]);
      assert n == [n[0]] + n[1..];
    }
  }

  // ---- request digests

  function TokenHash(call: Call): Digest {
    Digest(call.body.qrToken.GetOr(""))
  }

  /** The digest of the text the serving runtime writes for the body. */
  function BodyHash(call: Call): BodyDigest {
    BodyDigest(JsonText(call.runtime, call.body))
  }

  // ---- the guards, in the order they run

  datatype Guard =
    | Operational
    | StationRow
    | StateRow
    | BayRow
    | Maintenance
    | Configuration
    | BayBusy
    | Resolve
    | ProgramRow
    | Entitlement
    | MethodEnabled
    | Price
    | Instrument

  function Rank(g: Guard): nat {
    match g
    case Operational => 0
    case StationRow => 1
    case StateRow => 2
    case BayRow => 3
    case Maintenance => 4
    case Configuration => 5
    case BayBusy => 6
    case Resolve => 7
    case ProgramRow => 8
    case Entitlement => 9
    case MethodEnabled => 10
    case Price => 11
    case Instrument => 12
  }

  /** The guard after `g`; the last one is its own successor. */
  function Next(g: Guard): Guard {
    match g
    case Operational => StationRow
    case StationRow => StateRow
    case StateRow => BayRow
    case BayRow => Maintenance
    case Maintenance => Configuration
    case Configuration => BayBusy
    case BayBusy => Resolve
    case Resolve => ProgramRow
    case ProgramRow => Entitlement
    case Entitlement => MethodEnabled
    case MethodEnabled => Price
    case Price => Instrument
    case Instrument => Instrument
  }

  /** What the guards passed so far have established. */
  datatype Terms = Terms(company: int, acknowledged: Option<int>, bay: int, program: int, price: int, card: Option<int>)

  const NO_TERMS := Terms(0, None, 0, 0, 0, None)

  predicate InMaintenance(windows: seq<Window>, device: int, now: Time) {
    exists w | w in windows :: w.device == Some(device) && w.status.WindowActive? && w.startsAt <= now < w.endsAt
  }

  predicate Busy(executions: map<int, Execution>, bay: int) {
    exists e | e in executions ::
      executions[e].bay == Some(bay)
      && (executions[e].status.Created? || executions[e].status.CommandSent? || executions[e].status.Running?)
  }

  /** The provider's answer to a card test scenario. */
  function CardAnswer(scenario: string): Option<(PaymentStatus, Option<ErrorCode>)> {
    if scenario == "TEST_SUCCESS" then Some((Succeeded, None))
    else if scenario == "TEST_FAILED" then Some((Failed, Some(CardDeclined)))
    else if scenario == "TEST_CANCELLED" then Some((Cancelled, Some(CardCancelled)))
    else if scenario == "TEST_TIMEOUT" then Some((Pending, None))
    else if scenario == "TEST_INSUFFICIENT_FUNDS" then Some((Failed, Some(InsufficientFunds)))
    else if scenario == "TEST_PROVIDER_ERROR" then Some((Failed, Some(ProviderError)))
    else None
  }

  /** The card behind a uid, when it may pay at this company now. */
  function UsableCard(cards: map<Digest, RfCardRow>, uid: string, company: int, now: Time): Option<int> {
    if Digest(uid) !in cards then None
    else
      var card := cards[Digest(uid)];
      if !card.active || card.company != company || (card.expiresAt.Some? && card.expiresAt.value <= now) then None
      else Some(card.id)
  }

  /** Whether the displayed price is refused: an absent price counts as 0 in Python and as a mismatch in Go. */
  predicate PriceRefused(call: Call, price: int) {
    match call.runtime
    case Python => call.body.displayedPrice.GetOr(0) != price
    case Go => call.body.displayedPrice.None? || call.body.displayedPrice.value != price
  }

  /** One guard: the statement it runs and the branch on its result. */
  function Check(g: Guard, env: Env, qrs: map<Digest, QrCode>, call: Call, now: Time, t: Terms): Result<Terms, ErrorCode> {
    var device := call.device.id;
    var body := call.body;
    match g
    case Operational =>
      if !call.device.active then Failure(DeviceNotOperational) else Success(t)
    case StationRow =>
      if call.device.station !in env.stations then Failure(DeviceNotOperational)
      else Success(t.(company := env.stations[call.device.station]))
    case StateRow =>
      if device !in env.deviceStates
         || env.deviceStates[device].lastSeen.None?
         || env.deviceStates[device].lastSeen.value < now - OFFLINE_AFTER
      then Failure(DeviceOffline)
      else Success(t.(acknowledged := env.deviceStates[device].acknowledgedVersion))
    case BayRow =>
      if device !in env.bays then Failure(DeviceNotAssigned) else Success(t.(bay := env.bays[device]))
    case Maintenance =>
      if InMaintenance(env.windows, device, now) then Failure(DeviceInMaintenance) else Success(t)
    case Configuration =>
      if device !in env.published
         || env.published[device] != body.configurationVersion
         || t.acknowledged != Some(env.published[device])
      then Failure(ConfigurationNotAcknowledged) else Success(t)
    case BayBusy =>
      if Busy(env.executions, t.bay) then Failure(WashBayBusy) else Success(t)
    case Resolve =>
      if body.paymentMethod.Qr? then
        if call.runtime.Go? && body.qrToken.None? then Failure(QrTokenRequired)
        else if TokenHash(call) !in qrs
                || qrs[TokenHash(call)].company != t.company
                || qrs[TokenHash(call)].station != call.device.station
        then Failure(QrNotFound)
        else Success(t.(program := qrs[TokenHash(call)].program))
      else if body.program.None? then Failure(StationProgramRequired)
      else Success(t.(program := body.program.value))
    case ProgramRow =>
      if t.program !in env.programs || env.programs[t.program].company != t.company || !env.programs[t.program].active
      then Failure(ProgramNotAvailable)
      else Success(t.(price := env.programs[t.program].price))
    case Entitlement =>
      if (device, t.program) !in env.entitled then Failure(EntitlementRequired) else Success(t)
    case MethodEnabled =>
      if (t.program, body.paymentMethod) !in env.enabled then Failure(PaymentMethodNotAvailable) else Success(t)
    case Price =>
      if (body.paymentMethod.Card? || body.paymentMethod.RfCard?) && PriceRefused(call, t.price)
      then Failure(ProgramPriceChanged) else Success(t)
    case Instrument =>
      match body.paymentMethod
      case Card => if CardAnswer(body.testScenario.GetOr("")).None? then Failure(InvalidTestScenario) else Success(t)
      case Qr => Success(t)
      case RfCard =>
        (match NormalizeUid(body.rfUid.GetOr(""))
         case None => Failure(InvalidRfUid)
         case Some(uid) => Success(t.(card := UsableCard(env.cards, uid, t.company, now))))
      case Other(_) => Failure(UnsupportedPaymentMethod)
  }

  /** The terms on arrival at guard `g`, or the error of the first guard that refused on the way. */
  function ArriveAt(g: Guard, env: Env, qrs: map<Digest, QrCode>, call: Call, now: Time): Result<Terms, ErrorCode>
    decreases Rank(g), call
  {
    if g == Operational then Success(NO_TERMS)
    else
      var before := Before(g);
      match ArriveAt(before, env, qrs, call, now)
      case Failure(e) => Failure(e)
      case Success(t) => Check(before, env, qrs, call, now, t)
  }

  function Before(g: Guard): (r: Guard)
    requires g != Operational
    ensures Next(r) == g && Rank(r) == Rank(g) - 1
  {
    match g
    case StationRow => Operational
    case StateRow => StationRow
    case BayRow => StateRow
    case Maintenance => BayRow
    case Configuration => Maintenance
    case BayBusy => Configuration
    case Resolve => BayBusy
    case ProgramRow => Resolve
    case Entitlement => ProgramRow
    case MethodEnabled => Entitlement
    case Price => MethodEnabled
    case Instrument => Price
  }

  /** All guards in order: the agreed terms, or the first refusal. */
  function Verdict(env: Env, qrs: map<Digest, QrCode>, call: Call, now: Time): Result<Terms, ErrorCode> {
    match ArriveAt(Instrument, env, qrs, call, now)
    case Failure(e) => Failure(e)
    case Success(t) => Check(Instrument, env, qrs, call, now, t)
  }

  /** A guard that lets a request pass hands its terms to the next one. */
  lemma Passed(g: Guard, env: Env, qrs: map<Digest, QrCode>, call: Call, now: Time, t: Terms, t': Terms)
    requires g != Instrument && ArriveAt(g, env, qrs, call, now) == Success(t) && Check(g, env, qrs, call, now, t) == Success(t')
    ensures ArriveAt(Next(g), env, qrs, call, now) == Success(t')
  {
    assert Before(Next(g)) == g;
  }

  /** A refusal, here or earlier, is handed on. */
  lemma Stopped(g: Guard, env: Env, qrs: map<Digest, QrCode>, call: Call, now: Time, e: ErrorCode)
    requires g != Instrument
    requires var arrival := ArriveAt(g, env, qrs, call, now);
             arrival == Failure(e) || (arrival.Success? && Check(g, env, qrs, call, now, arrival.value) == Failure(e))
    ensures ArriveAt(Next(g), env, qrs, call, now) == Failure(e)
  {
    assert Before(Next(g)) == g;
  }

  /** A guard that refuses on arrival decides the verdict. */
  lemma RefusalIsFinal(g: Guard, env: Env, qrs: map<Digest, QrCode>, call: Call, now: Time, t: Terms, e: ErrorCode)
    requires ArriveAt(g, env, qrs, call, now) == Success(t)
    requires Check(g, env, qrs, call, now, t) == Failure(e)
    ensures Verdict(env, qrs, call, now) == Failure(e)
  {
    if g != Instrument {
      Stopped(g, env, qrs, call, now, e);
      FailureIsFinal(Next(g), env, qrs, call, now, e);
    }
  }

  lemma {:induction false} FailureIsFinal(g: Guard, env: Env, qrs: map<Digest, QrCode>, call: Call, now: Time, e: ErrorCode)
    requires ArriveAt(g, env, qrs, call, now) == Failure(e)
    ensures Verdict(env, qrs, call, now) == Failure(e)
    decreases 12 - Rank(g)
  {
    if g != Instrument {
      Stopped(g, env, qrs, call, now, e);
      FailureIsFinal(Next(g), env, qrs, call, now, e);
    }
  }

  // ---- charging

  datatype Outcome = Outcome(status: PaymentStatus, error: Option<ErrorCode>, amount: int, qrCode: Option<int>, wallet: Option<int>)

  predicate QrRedeemable(q: QrCode, call: Call, now: Time, terms: Terms) {
    && q.status == QrActive
    && q.company == terms.company
    && q.station == call.device.station
    && q.program == terms.program
    && q.startsAt <= now < q.expiresAt
    && q.usageCount < q.usageLimit
  }

  /** The financial decision, given the rows it reads. */
  function Judge(qrs: map<Digest, QrCode>, wallets: map<int, Wallet>, call: Call, now: Time, terms: Terms): Outcome {
    match call.body.paymentMethod
    case Card =>
      var (status, error) := CardAnswer(call.body.testScenario.GetOr("")).GetOr((Succeeded, None));
      Outcome(status, error, terms.price, None, None)
    case Qr =>
      var h := TokenHash(call);
      if h !in qrs || !QrRedeemable(qrs[h], call, now, terms) then Outcome(Failed, Some(QrInvalid), terms.price, None, None)
      else Outcome(Succeeded, None, qrs[h].amount, Some(qrs[h].id), None)
    case RfCard =>
      if terms.card.None? then Outcome(Failed, Some(RfCardInvalid), terms.price, None, None)
      else if terms.card.value !in wallets || wallets[terms.card.value].balance < terms.price
      then Outcome(Failed, Some(RfInsufficientBalance), terms.price, None, None)
      else Outcome(Succeeded, None, terms.price, None, Some(wallets[terms.card.value].id))
    case Other(_) => Outcome(Succeeded, None, terms.price, None, None)
  }

  function Redeemed(q: QrCode): QrCode {
    q.(usageCount := q.usageCount + 1, status := if q.usageCount + 1 >= q.usageLimit then QrUsed else QrActive)
  }

  function Debited(w: Wallet, price: int, now: Time): Wallet {
    w.(balance := w.balance - price, version := w.version + 1, updatedAt := now)
  }

  function ChargedQrs(qrs: map<Digest, QrCode>, call: Call, o: Outcome): map<Digest, QrCode> {
    if o.qrCode.Some? && TokenHash(call) in qrs then qrs[TokenHash(call) := Redeemed(qrs[TokenHash(call)])] else qrs
  }

  function ChargedWallets(wallets: map<int, Wallet>, terms: Terms, now: Time, o: Outcome): map<int, Wallet> {
    if o.wallet.Some? && terms.card.Some? && terms.card.value in wallets
    then wallets[terms.card.value := Debited(wallets[terms.card.value], terms.price, now)]
    else wallets
  }

  function PaymentRow(call: Call, now: Time, terms: Terms, o: Outcome): Payment {
    Payment(call.device.id, call.device.station, call.key, BodyHash(call), call.body.paymentMethod,
            o.amount, o.status, o.error, terms.program, o.qrCode, o.wallet, now,
            if o.status.Pending? then None else Some(now))
  }

  /** What one payment inserts into one dependent table. */
  function ArtefactOf(table: Table, id: int, call: Call, now: Time, terms: Terms, o: Outcome): (r: seq<Row>)
    ensures |r| <= 1 && forall k | 0 <= k < |r| :: r[k].payment == id && TableOf(r[k]) == table
  {
    var m := call.body.paymentMethod;
    match table
    case Attempts => [Attempt(id, 1, o.status, now)]
    case Providers => if m.Card? then [Provider(id, o.status, now)] else []
    case Ledger =>
      if m.RfCard? && o.status.Succeeded? && o.wallet.Some? then [Debit(id, o.wallet.value, terms.price, now)] else []
    case StartRights =>
      if o.status.Succeeded? then [StartRight(id, call.device.id, terms.bay, terms.program, now)] else []
    case Events => [PaymentEvent(id, call.device.id, o.status, m, o.error, now)]
    case AuditEntries => [Audit(id, o.status, now)]
  }

  /** The dependent rows, in the order they are inserted. */
  function Artefacts(id: int, call: Call, now: Time, terms: Terms, o: Outcome): (r: seq<Row>)
    ensures |r| <= 6
  {
    ArtefactOf(Attempts, id, call, now, terms, o)
    + ArtefactOf(Providers, id, call, now, terms, o)
    + ArtefactOf(Ledger, id, call, now, terms, o)
    + ArtefactOf(StartRights, id, call, now, terms, o)
    + ArtefactOf(Events, id, call, now, terms, o)
    + ArtefactOf(AuditEntries, id, call, now, terms, o)
  }

  /** Whether the rows a payment inserts pass the CHECK constraints of their tables. */
  predicate ChecksHold(id: int, call: Call, now: Time, terms: Terms, o: Outcome) {
    o.amount >= 0 && forall r | r in Artefacts(id, call, now, terms, o) :: RowCheckOk(r)
  }

  /** Only a ledger row can be refused, for an amount that is not positive. */
  lemma ChecksHoldExactly(id: int, call: Call, now: Time, terms: Terms, o: Outcome)
    ensures ChecksHold(id, call, now, terms, o) <==>
            o.amount >= 0
            && (call.body.paymentMethod.RfCard? && o.status.Succeeded? && o.wallet.Some? ==> terms.price > 0)
  {
    var ledger := ArtefactOf(Ledger, id, call, now, terms, o);
    if ledger != [] {
      assert ledger[0] in Artefacts(id, call, now, terms, o);
    }
  }

  /** Charge, payment row and dependent rows together. */
  function Settle(t: Tables, call: Call, now: Time, id: int, terms: Terms): Tables {
    var o := Judge(t.qrs, t.wallets, call, now, terms);
    Tables(
      ChargedQrs(t.qrs, call, o),
      ChargedWallets(t.wallets, terms, now, o),
      t.payments[id := PaymentRow(call, now, terms, o)],
      t.rows + Artefacts(id, call, now, terms, o))
  }

  // ---- replies

  datatype View = View(
    id: int,
    status: PaymentStatus,
    paymentMethod: Method,
    amount: int,
    error: Option<ErrorCode>,
    program: int,
    createdAt: Time,
    startRight: bool)

  /** Aborted: a statement broke a constraint and the transaction was rolled back. */
  datatype Reply = Refused(code: ErrorCode) | Accepted(view: View) | Aborted

  predicate HasStartRight(rows: seq<Row>, id: int) {
    exists r | r in rows :: r.StartRight? && r.payment == id
  }

  function Payload(t: Tables, id: int): View
    requires id in t.payments
  {
    var p := t.payments[id];
    View(id, p.status, p.paymentMethod, p.amount, p.error, p.program, p.createdAt, HasStartRight(t.rows, id))
  }

  ghost predicate KeyTaken(payments: map<int, Payment>, call: Call) {
    exists p | p in payments :: SameKey(payments[p], call.device.id, call.key)
  }

  /** The payment already stored under the request's (device, key). */
  ghost function Existing(payments: map<int, Payment>, call: Call): (p: int)
    requires KeyTaken(payments, call)
    ensures p in payments && SameKey(payments[p], call.device.id, call.key)
  {
    var p :| p in payments && SameKey(payments[p], call.device.id, call.key);
    p
  }

  /** The answer to a request whose key is already stored. */
  ghost function Replay(t: Tables, call: Call): Reply
    requires KeyTaken(t.payments, call)
  {
    var p := Existing(t.payments, call);
    if t.payments[p].requestHash != BodyHash(call) then Refused(IdempotencyConflict) else Accepted(Payload(t, p))
  }

  /** The whole request as one atomic step. `id` is the sequence value it would take. */
  ghost function AtomicCreate(env: Env, t: Tables, call: Call, now: Time, id: int): (Tables, Reply) {
    if KeyTaken(t.payments, call) then (t, Replay(t, call))
    else
      match Verdict(env, t.qrs, call, now)
      case Failure(e) => (t, Refused(e))
      case Success(terms) =>
        if !ChecksHold(id, call, now, terms, Judge(t.qrs, t.wallets, call, now, terms)) then (t, Aborted)
        else
          var t' := Settle(t, call, now, id, terms);
          (t', Accepted(Payload(t', id)))
  }

  /** Whether the request gets as far as inserting a payment row, which takes an id even when it is rolled back. */
  ghost predicate InsertsPayment(env: Env, t: Tables, call: Call, now: Time) {
    !KeyTaken(t.payments, call) && Verdict(env, t.qrs, call, now).Success?
  }
}
