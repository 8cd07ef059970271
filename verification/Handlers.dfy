/** The database as an object: the statements both runtimes send to it. */
module Store {
  import opened Schema
  import opened Checkout

  class Database {
    const env: Env
    var qrs: map<Digest, QrCode>
    var wallets: map<int, Wallet>
    var payments: map<int, Payment>
    var rows: seq<Row>
    var sequence: int
    var committed: Tables                     // what a rollback goes back to

    constructor (env: Env, t: Tables, sequence: int)
      ensures this.env == env && Contents() == t && this.sequence == sequence && committed == t
    {
      this.env := env;
      qrs, wallets, payments, rows := t.qrs, t.wallets, t.payments, t.rows;
      this.sequence := sequence;
      committed := t;
    }

    method Commit()
      modifies this`committed
      ensures committed == Contents()
    {
      committed := Contents();
    }

    /** The tables go back; an id taken from the sequence does not. */
    method Rollback()
      modifies this`qrs, this`wallets, this`payments, this`rows
      ensures Contents() == committed
    {
      qrs, wallets, payments, rows := committed.qrs, committed.wallets, committed.payments, committed.rows;
    }

    function Contents(): Tables
      reads this
    {
      Tables(qrs, wallets, payments, rows)
    }

    /** The idempotency lookup and, when it finds a row, the answer to the request. */
    method Lookup(call: Call) returns (reply: Option<Reply>)
      requires KeysUnique(payments)
      ensures reply.None? <==> !KeyTaken(payments, call)
      ensures reply.Some? ==> reply.value == Replay(Contents(), call)
    {
      if exists p | p in payments :: SameKey(payments[p], call.device.id, call.key) {
        var existing :| existing in payments && SameKey(payments[existing], call.device.id, call.key);
        assert existing == Existing(payments, call);
        if payments[existing].requestHash != BodyHash(call) {
          return Some(Refused(IdempotencyConflict));
        }
        return Some(Accepted(Payload(Contents(), existing)));
      }
      return None;
    }

    /** UPDATE qr_codes SET usage_count=..., status=... (absolute values). */
    method SetQrUsage(token: Digest, usage: int, status: QrStatus)
      requires token in qrs
      modifies this`qrs
      ensures qrs == old(qrs)[token := old(qrs)[token].(usageCount := usage, status := status)]
    {
      qrs := qrs[token := qrs[token].(usageCount := usage, status := status)];
    }

    /** UPDATE rf_wallets SET balance_minor=balance_minor-amount, version=version+1 (relative to the row). */
    method DebitWallet(card: int, amount: int, now: Time)
      requires card in wallets
      modifies this`wallets
      ensures wallets == old(wallets)[card := Debited(old(wallets)[card], amount, now)]
    {
      var w := wallets[card];
      wallets := wallets[card := w.(balance := w.balance - amount, version := w.version + 1, updatedAt := now)];
    }

    /** INSERT INTO payment_transactions ... RETURNING id, under CHECK (amount_minor >= 0). */
    method InsertPayment(call: Call, now: Time, terms: Terms, o: Outcome) returns (id: Option<int>)
      modifies this`payments, this`sequence
      ensures sequence == old(sequence) + 1
      ensures o.amount >= 0 ==> id == Some(old(sequence)) && payments == old(payments)[old(sequence) := PaymentRow(call, now, terms, o)]
      ensures o.amount < 0 ==> id.None? && payments == old(payments)
    {
      var Outcome(status, error, amount, qrCode, wallet) := o;
      var next := sequence;
      sequence := sequence + 1;
      if amount < 0 {
        return None;
      }
      payments := payments[next := Payment(
        call.device.id, call.device.station, call.key, BodyHash(call), call.body.paymentMethod, amount, status, error,
        terms.program, qrCode, wallet, now, if status == Pending then None else Some(now))];
      return Some(next);
    }

    /** The INSERT statements, from payment_transactions to audit_entries; None when one of them breaks a CHECK. */
    method Record(call: Call, now: Time, terms: Terms, o: Outcome) returns (id: Option<int>)
      modifies this`payments, this`rows, this`sequence
      ensures sequence == old(sequence) + 1
      ensures id.Some? <==> ChecksHold(old(sequence), call, now, terms, o)
      ensures id.Some? ==>
                && id.value == old(sequence)
                && payments == old(payments)[id.value := PaymentRow(call, now, terms, o)]
                && rows == old(rows) + Artefacts(id.value, call, now, terms, o)
    {
      ChecksHoldExactly(sequence, call, now, terms, o);
      id := InsertPayment(call, now, terms, o);
      if id.Some? {
        var ok := InsertArtefacts(id.value, call, now, terms, o);
        if !ok {
          id := None;
        }
      }
    }

    /** The dependent rows; false when the ledger's CHECK (amount_minor > 0) refuses the debit. */
    method InsertArtefacts(id: int, call: Call, now: Time, terms: Terms, o: Outcome) returns (ok: bool)
      modifies this`rows
      ensures ok <==> (call.body.paymentMethod.RfCard? && o.status.Succeeded? && o.wallet.Some? ==> terms.price > 0)
      ensures ok ==> rows == old(rows) + Artefacts(id, call, now, terms, o)
    {
      var Outcome(status, error, amount, qrCode, wallet) := o;
      var paymentMethod := call.body.paymentMethod;
      ghost var a := ArtefactOf(Attempts, id, call, now, terms, o);
      ghost var b := ArtefactOf(Providers, id, call, now, terms, o);
      ghost var c := ArtefactOf(Ledger, id, call, now, terms, o);
      ghost var d := ArtefactOf(StartRights, id, call, now, terms, o);
      ghost var e := ArtefactOf(Events, id, call, now, terms, o);
      ghost var f := ArtefactOf(AuditEntries, id, call, now, terms, o);
      rows := rows + [Attempt(id, 1, status, now)];
      assert rows == old(rows) + a;
      if paymentMethod.Card? {
        rows := rows + [Provider(id, status, now)];
      }
      assert rows == old(rows) + a + b;
      if paymentMethod.RfCard? && status == Succeeded && wallet.Some? {
        if terms.price <= 0 {
          return false;
        }
        rows := rows + [Debit(id, wallet.value, terms.price, now)];
      }
      assert rows == old(rows) + a + b + c;
      if status == Succeeded {
        rows := rows + [StartRight(id, call.device.id, terms.bay, terms.program, now)];
      }
      assert rows == old(rows) + a + b + c + d;
      rows := rows + [PaymentEvent(id, call.device.id, status, paymentMethod, error, now)];
      rows := rows + [Audit(id, status, now)];
      assert rows == old(rows) + a + b + c + d + e + f;
      Regroup(old(rows), a, b, c, d, e, f);
      return true;
    }
  }

  lemma Regroup(rows: seq<Row>, a: seq<Row>, b: seq<Row>, c: seq<Row>, d: seq<Row>, e: seq<Row>, f: seq<Row>)
    ensures rows + a + b + c + d + e + f == rows + (a + b + c + d + e + f)
  {
  }
}

/** python/app/payments.py */
module PythonPayments {
  import opened Schema
  import opened Checkout
  import opened Store
  import opened Admission

  method Guards(db: Database, call: Call, now: Time) returns (r: Result<Terms, ErrorCode>)
    requires call.runtime == Python
    ensures r == Verdict(db.env, db.qrs, call, now)
  {
    var device, body, env := call.device, call.body, db.env;
    var t := NO_TERMS;
    if !device.active {
      RefusalIsFinal(Operational, env, db.qrs, call, now, t, DeviceNotOperational);
      return Failure(DeviceNotOperational);
    }
    assert ArriveAt(StationRow, env, db.qrs, call, now) == Success(t);
    if device.station !in env.stations {
      RefusalIsFinal(StationRow, env, db.qrs, call, now, t, DeviceNotOperational);
      return Failure(DeviceNotOperational);
    }
    t := t.(company := env.stations[device.station]);
    assert ArriveAt(StateRow, env, db.qrs, call, now) == Success(t);
    if device.id !in env.deviceStates
       || env.deviceStates[device.id].lastSeen.None?
       || env.deviceStates[device.id].lastSeen.value < now - OFFLINE_AFTER {
      RefusalIsFinal(StateRow, env, db.qrs, call, now, t, DeviceOffline);
      return Failure(DeviceOffline);
    }
    t := t.(acknowledged := env.deviceStates[device.id].acknowledgedVersion);
    assert ArriveAt(BayRow, env, db.qrs, call, now) == Success(t);
    if device.id !in env.bays {
      RefusalIsFinal(BayRow, env, db.qrs, call, now, t, DeviceNotAssigned);
      return Failure(DeviceNotAssigned);
    }
    t := t.(bay := env.bays[device.id]);
    assert ArriveAt(Maintenance, env, db.qrs, call, now) == Success(t);
    if InMaintenance(env.windows, device.id, now) {
      RefusalIsFinal(Maintenance, env, db.qrs, call, now, t, DeviceInMaintenance);
      return Failure(DeviceInMaintenance);
    }
    assert ArriveAt(Configuration, env, db.qrs, call, now) == Success(t);
    if device.id !in env.published
       || env.published[device.id] != body.configurationVersion
       || t.acknowledged != Some(env.published[device.id]) {
      RefusalIsFinal(Configuration, env, db.qrs, call, now, t, ConfigurationNotAcknowledged);
      return Failure(ConfigurationNotAcknowledged);
    }
    assert ArriveAt(BayBusy, env, db.qrs, call, now) == Success(t);
    if Busy(env.executions, t.bay) {
      RefusalIsFinal(BayBusy, env, db.qrs, call, now, t, WashBayBusy);
      return Failure(WashBayBusy);
    }
    assert ArriveAt(Resolve, env, db.qrs, call, now) == Success(t);
    r := SaleGuards(db, call, now, t);
  }

  /** The program is that of the QR code, or the one asked for. */
  method ResolveProgram(db: Database, call: Call, now: Time, arrived: Terms) returns (r: Result<Terms, ErrorCode>)
    requires call.runtime == Python
    requires ArriveAt(Resolve, db.env, db.qrs, call, now) == Success(arrived)
    ensures r.Success? ==> ArriveAt(ProgramRow, db.env, db.qrs, call, now) == r
    ensures r.Failure? ==> Verdict(db.env, db.qrs, call, now) == r
  {
    var device, body, env, t := call.device, call.body, db.env, arrived;
    if body.paymentMethod.Qr? {
      var tokenHash := Digest(body.qrToken.GetOr(""));
      if tokenHash !in db.qrs || db.qrs[tokenHash].company != t.company || db.qrs[tokenHash].station != device.station {
        RefusalIsFinal(Resolve, env, db.qrs, call, now, t, QrNotFound);
        return Failure(QrNotFound);
      }
      t := t.(program := db.qrs[tokenHash].program);
    } else {
      if body.program.None? {
        RefusalIsFinal(Resolve, env, db.qrs, call, now, t, StationProgramRequired);
        return Failure(StationProgramRequired);
      }
      t := t.(program := body.program.value);
    }
    Passed(Resolve, env, db.qrs, call, now, arrived, t);
    return Success(t);
  }

  method SaleGuards(db: Database, call: Call, now: Time, arrived: Terms) returns (r: Result<Terms, ErrorCode>)
    requires call.runtime == Python
    requires ArriveAt(Resolve, db.env, db.qrs, call, now) == Success(arrived)
    ensures r == Verdict(db.env, db.qrs, call, now)
  {
    r := ResolveProgram(db, call, now, arrived);
    if r.Failure? {
      return;
    }
    var device, body, env, t := call.device, call.body, db.env, r.value;
    ghost var before := t;
    if t.program !in env.programs || env.programs[t.program].company != t.company || !env.programs[t.program].active {
      RefusalIsFinal(ProgramRow, env, db.qrs, call, now, t, ProgramNotAvailable);
      return Failure(ProgramNotAvailable);
    }
    t := t.(price := env.programs[t.program].price);
    Passed(ProgramRow, env, db.qrs, call, now, before, t);
    before := t;
    if (device.id, t.program) !in env.entitled {
      RefusalIsFinal(Entitlement, env, db.qrs, call, now, t, EntitlementRequired);
      return Failure(EntitlementRequired);
    }
    Passed(Entitlement, env, db.qrs, call, now, before, t);
    before := t;
    if (t.program, body.paymentMethod) !in env.enabled {
      RefusalIsFinal(MethodEnabled, env, db.qrs, call, now, t, PaymentMethodNotAvailable);
      return Failure(PaymentMethodNotAvailable);
    }
    Passed(MethodEnabled, env, db.qrs, call, now, before, t);
    before := t;
    if (body.paymentMethod.Card? || body.paymentMethod.RfCard?) && body.displayedPrice.GetOr(0) != t.price {
      RefusalIsFinal(Price, env, db.qrs, call, now, t, ProgramPriceChanged);
      return Failure(ProgramPriceChanged);
    }
    Passed(Price, env, db.qrs, call, now, before, t);
    r := InstrumentGuard(db, call, now, t);
  }

  /** The dictionary of test scenarios. */
  const MAPPING: map<string, (PaymentStatus, Option<ErrorCode>)> := map[
    "TEST_SUCCESS" := (Succeeded, None),
    "TEST_FAILED" := (Failed, Some(CardDeclined)),
    "TEST_CANCELLED" := (Cancelled, Some(CardCancelled)),
    "TEST_TIMEOUT" := (Pending, None),
    "TEST_INSUFFICIENT_FUNDS" := (Failed, Some(InsufficientFunds)),
    "TEST_PROVIDER_ERROR" := (Failed, Some(ProviderError))]

  lemma MappingIsCardAnswer(scenario: string)
    ensures CardAnswer(scenario) == if scenario in MAPPING then Some(MAPPING[scenario]) else None
  {
  }

  method InstrumentGuard(db: Database, call: Call, now: Time, arrived: Terms) returns (r: Result<Terms, ErrorCode>)
    requires call.runtime == Python
    requires ArriveAt(Instrument, db.env, db.qrs, call, now) == Success(arrived)
    ensures r == Verdict(db.env, db.qrs, call, now)
  {
    var body, env, t := call.body, db.env, arrived;
    match body.paymentMethod {
      case Card =>
        var scenario := body.testScenario.GetOr("");
        MappingIsCardAnswer(scenario);
        if scenario !in MAPPING {
          return Failure(InvalidTestScenario);
        }
      case Qr =>
      case RfCard =>
        var uid := NormalizeUid(body.rfUid.GetOr(""));
        if uid.None? {
          return Failure(InvalidRfUid);
        }
        var uidHash := Digest(uid.value);
        if uidHash !in env.cards
           || !env.cards[uidHash].active
           || env.cards[uidHash].company != t.company
           || (env.cards[uidHash].expiresAt.Some? && env.cards[uidHash].expiresAt.value <= now) {
          t := t.(card := None);
        } else {
          t := t.(card := Some(env.cards[uidHash].id));
        }
      case Other(_) =>
        return Failure(UnsupportedPaymentMethod);
    }
    return Success(t);
  }

  /** The method's own branch: status, amount, and the QR or wallet update. */
  method Charge(db: Database, call: Call, now: Time, t: Terms) returns (o: Outcome)
    modifies db`qrs, db`wallets
    ensures o == Judge(old(db.qrs), old(db.wallets), call, now, t)
    ensures db.qrs == ChargedQrs(old(db.qrs), call, o)
    ensures db.wallets == ChargedWallets(old(db.wallets), t, now, o)
  {
    var status, errorCode: Option<ErrorCode> := Succeeded, None;
    var amount := t.price;
    var qrCodeId: Option<int>, walletId: Option<int> := None, None;
    match call.body.paymentMethod {
      case Card =>
        var scenario := call.body.testScenario.GetOr("");
        MappingIsCardAnswer(scenario);
        if scenario in MAPPING {
          status, errorCode := MAPPING[scenario].0, MAPPING[scenario].1;
        }
      case Qr =>
        var tokenHash := Digest(call.body.qrToken.GetOr(""));
        if tokenHash !in db.qrs
           || db.qrs[tokenHash].status != QrActive
           || db.qrs[tokenHash].company != t.company
           || db.qrs[tokenHash].station != call.device.station
           || db.qrs[tokenHash].program != t.program
           || db.qrs[tokenHash].startsAt > now
           || db.qrs[tokenHash].expiresAt <= now
           || db.qrs[tokenHash].usageCount >= db.qrs[tokenHash].usageLimit {
          status, errorCode := Failed, Some(QrInvalid);
        } else {
          var qr := db.qrs[tokenHash];
          qrCodeId, amount := Some(qr.id), qr.amount;
          var newUsage := qr.usageCount + 1;
          db.SetQrUsage(tokenHash, newUsage, if newUsage >= qr.usageLimit then QrUsed else QrActive);
        }
      case RfCard =>
        if t.card.None? {
          status, errorCode := Failed, Some(RfCardInvalid);
        } else if t.card.value !in db.wallets || db.wallets[t.card.value].balance < t.price {
          status, errorCode := Failed, Some(RfInsufficientBalance);
        } else {
          walletId := Some(db.wallets[t.card.value].id);
          db.DebitWallet(t.card.value, t.price, now);
        }
      case Other(_) =>
    }
    return Outcome(status, errorCode, amount, qrCodeId, walletId);
  }

  method CreatePayment(db: Database, call: Call, now: Time) returns (reply: Reply)
    requires call.runtime == Python
    requires KeysUnique(db.payments) && db.committed == db.Contents()
    modifies db
    ensures db.committed == db.Contents()
    ensures (db.Contents(), reply) == AtomicCreate(db.env, old(db.Contents()), call, now, old(db.sequence))
    ensures db.sequence == old(db.sequence) + if InsertsPayment(db.env, old(db.Contents()), call, now) then 1 else 0
    ensures NewKey(old(db.Contents()), call) ==>
              Answered(db.env, old(db.Contents()), call, now, old(db.sequence), db.Contents(), reply)
  {
    NewKeyIsAnswered(db.env, db.Contents(), call, now, db.sequence);
    var earlier := db.Lookup(call);
    if earlier.Some? {
      return earlier.value;
    }
    var verdict := Guards(db, call, now);
    if verdict.Failure? {
      return Refused(verdict.error);
    }
    var t := verdict.value;
    var o := Charge(db, call, now, t);
    var paymentId := db.Record(call, now, t, o);
    if paymentId.None? {
      db.Rollback();
      return Aborted;
    }
    assert db.Contents() == Settle(old(db.Contents()), call, now, paymentId.value, t);
    db.Commit();
    return Accepted(Payload(db.Contents(), paymentId.value));
  }
}

/** go/internal/payments/service.go */
module GoPayments {
  import opened Schema
  import opened Checkout
  import opened Store
  import opened Admission

  method Guards(db: Database, call: Call, now: Time) returns (r: Result<Terms, ErrorCode>)
    requires call.runtime == Go
    ensures r == Verdict(db.env, db.qrs, call, now)
  {
    var device, req, env := call.device, call.body, db.env;
    var t := NO_TERMS;
    if !device.active {
      RefusalIsFinal(Operational, env, db.qrs, call, now, t, DeviceNotOperational);
      return Failure(DeviceNotOperational);
    }
    assert ArriveAt(StationRow, env, db.qrs, call, now) == Success(t);
    if device.station !in env.stations {
      RefusalIsFinal(StationRow, env, db.qrs, call, now, t, DeviceNotOperational);
      return Failure(DeviceNotOperational);
    }
    t := t.(company := env.stations[device.station]);
    assert ArriveAt(StateRow, env, db.qrs, call, now) == Success(t);
    if device.id !in env.deviceStates
       || !env.deviceStates[device.id].lastSeen.Some?
       || env.deviceStates[device.id].lastSeen.value < now - OFFLINE_AFTER {
      RefusalIsFinal(StateRow, env, db.qrs, call, now, t, DeviceOffline);
      return Failure(DeviceOffline);
    }
    t := t.(acknowledged := env.deviceStates[device.id].acknowledgedVersion);
    assert ArriveAt(BayRow, env, db.qrs, call, now) == Success(t);
    if device.id !in env.bays {
      RefusalIsFinal(BayRow, env, db.qrs, call, now, t, DeviceNotAssigned);
      return Failure(DeviceNotAssigned);
    }
    t := t.(bay := env.bays[device.id]);
    assert ArriveAt(Maintenance, env, db.qrs, call, now) == Success(t);
    if InMaintenance(env.windows, device.id, now) {
      RefusalIsFinal(Maintenance, env, db.qrs, call, now, t, DeviceInMaintenance);
      return Failure(DeviceInMaintenance);
    }
    assert ArriveAt(Configuration, env, db.qrs, call, now) == Success(t);
    if device.id !in env.published
       || env.published[device.id] != req.configurationVersion
       || t.acknowledged.None?
       || t.acknowledged.value != env.published[device.id] {
      RefusalIsFinal(Configuration, env, db.qrs, call, now, t, ConfigurationNotAcknowledged);
      return Failure(ConfigurationNotAcknowledged);
    }
    assert ArriveAt(BayBusy, env, db.qrs, call, now) == Success(t);
    if Busy(env.executions, t.bay) {
      RefusalIsFinal(BayBusy, env, db.qrs, call, now, t, WashBayBusy);
      return Failure(WashBayBusy);
    }
    assert ArriveAt(Resolve, env, db.qrs, call, now) == Success(t);
    r := SaleGuards(db, call, now, t);
  }

  /** The program is that of the QR code, or the one asked for. */
  method ResolveProgram(db: Database, call: Call, now: Time, arrived: Terms) returns (r: Result<Terms, ErrorCode>)
    requires call.runtime == Go
    requires ArriveAt(Resolve, db.env, db.qrs, call, now) == Success(arrived)
    ensures r.Success? ==> ArriveAt(ProgramRow, db.env, db.qrs, call, now) == r
    ensures r.Failure? ==> Verdict(db.env, db.qrs, call, now) == r
  {
    var device, req, env, t := call.device, call.body, db.env, arrived;
    if req.paymentMethod.Qr? {
      if req.qrToken.None? {
        RefusalIsFinal(Resolve, env, db.qrs, call, now, t, QrTokenRequired);
        return Failure(QrTokenRequired);
      }
      var tokenHash := Digest(req.qrToken.value);
      if tokenHash !in db.qrs || db.qrs[tokenHash].company != t.company || db.qrs[tokenHash].station != device.station {
        RefusalIsFinal(Resolve, env, db.qrs, call, now, t, QrNotFound);
        return Failure(QrNotFound);
      }
      t := t.(program := db.qrs[tokenHash].program);
    } else {
      if req.program.None? {
        RefusalIsFinal(Resolve, env, db.qrs, call, now, t, StationProgramRequired);
        return Failure(StationProgramRequired);
      }
      t := t.(program := req.program.value);
    }
    Passed(Resolve, env, db.qrs, call, now, arrived, t);
    return Success(t);
  }

  method SaleGuards(db: Database, call: Call, now: Time, arrived: Terms) returns (r: Result<Terms, ErrorCode>)
    requires call.runtime == Go
    requires ArriveAt(Resolve, db.env, db.qrs, call, now) == Success(arrived)
    ensures r == Verdict(db.env, db.qrs, call, now)
  {
    r := ResolveProgram(db, call, now, arrived);
    if r.Failure? {
      return;
    }
    var device, req, env, t := call.device, call.body, db.env, r.value;
    ghost var before := t;
    if t.program !in env.programs || env.programs[t.program].company != t.company || !env.programs[t.program].active {
      RefusalIsFinal(ProgramRow, env, db.qrs, call, now, t, ProgramNotAvailable);
      return Failure(ProgramNotAvailable);
    }
    t := t.(price := env.programs[t.program].price);
    Passed(ProgramRow, env, db.qrs, call, now, before, t);
    before := t;
    if (device.id, t.program) !in env.entitled {
      RefusalIsFinal(Entitlement, env, db.qrs, call, now, t, EntitlementRequired);
      return Failure(EntitlementRequired);
    }
    Passed(Entitlement, env, db.qrs, call, now, before, t);
    before := t;
    if (t.program, req.paymentMethod) !in env.enabled {
      RefusalIsFinal(MethodEnabled, env, db.qrs, call, now, t, PaymentMethodNotAvailable);
      return Failure(PaymentMethodNotAvailable);
    }
    Passed(MethodEnabled, env, db.qrs, call, now, before, t);
    before := t;
    if req.paymentMethod.Card? || req.paymentMethod.RfCard? {
      if req.displayedPrice.None? || req.displayedPrice.value != t.price {
        RefusalIsFinal(Price, env, db.qrs, call, now, t, ProgramPriceChanged);
        return Failure(ProgramPriceChanged);
      }
    }
    Passed(Price, env, db.qrs, call, now, before, t);
    r := InstrumentGuard(db, call, now, t);
  }

  /** The switch over test scenarios. */
  method Scenario(scenario: string) returns (known: bool, status: PaymentStatus, errorCode: Option<ErrorCode>)
    ensures known <==> CardAnswer(scenario).Some?
    ensures (status, errorCode) == CardAnswer(scenario).GetOr((Succeeded, None))
  {
    known, status, errorCode := true, Succeeded, None;
    if scenario == "TEST_SUCCESS" {
      status := Succeeded;
    } else if scenario == "TEST_FAILED" {
      status, errorCode := Failed, Some(CardDeclined);
    } else if scenario == "TEST_CANCELLED" {
      status, errorCode := Cancelled, Some(CardCancelled);
    } else if scenario == "TEST_TIMEOUT" {
      status := Pending;
    } else if scenario == "TEST_INSUFFICIENT_FUNDS" {
      status, errorCode := Failed, Some(InsufficientFunds);
    } else if scenario == "TEST_PROVIDER_ERROR" {
      status, errorCode := Failed, Some(ProviderError);
    } else {
      known := false;
    }
  }

  method InstrumentGuard(db: Database, call: Call, now: Time, arrived: Terms) returns (r: Result<Terms, ErrorCode>)
    requires call.runtime == Go
    requires ArriveAt(Instrument, db.env, db.qrs, call, now) == Success(arrived)
    ensures r == Verdict(db.env, db.qrs, call, now)
  {
    var req, env, t := call.body, db.env, arrived;
    match req.paymentMethod {
      case Card =>
        var scenario := "";
        if req.testScenario.Some? {
          scenario := req.testScenario.value;
        }
        var known, _, _ := Scenario(scenario);
        if !known {
          return Failure(InvalidTestScenario);
        }
      case Qr =>
      case RfCard =>
        if req.rfUid.None? {
          assert NormalizeUid("").None?;
          return Failure(InvalidRfUid);
        }
        var uid := NormalizeUid(req.rfUid.value);
        if uid.None? {
          return Failure(InvalidRfUid);
        }
        var uidHash := Digest(uid.value);
        var cardId: Option<int> := None;
        if uidHash in env.cards {
          var card := env.cards[uidHash];
          if card.active && card.company == t.company && !(card.expiresAt.Some? && !(card.expiresAt.value > now)) {
            cardId := Some(card.id);
          }
        }
        t := t.(card := cardId);
      case Other(_) =>
        return Failure(UnsupportedPaymentMethod);
    }
    return Success(t);
  }

  /** The method's own branch: status, amount, and the QR or wallet update. */
  method Charge(db: Database, call: Call, now: Time, t: Terms) returns (o: Outcome)
    modifies db`qrs, db`wallets
    ensures o == Judge(old(db.qrs), old(db.wallets), call, now, t)
    ensures db.qrs == ChargedQrs(old(db.qrs), call, o)
    ensures db.wallets == ChargedWallets(old(db.wallets), t, now, o)
  {
    var status, errorCode: Option<ErrorCode> := Succeeded, None;
    var amount := t.price;
    var qrCodeId: Option<int>, walletId: Option<int> := None, None;
    match call.body.paymentMethod {
      case Card =>
        var _, s, e := Scenario(call.body.testScenario.GetOr(""));
        status, errorCode := s, e;
      case Qr =>
        var tokenHash := TokenHash(call);
        if tokenHash !in db.qrs {
          status, errorCode := Failed, Some(QrInvalid);
        } else {
          var qr := db.qrs[tokenHash];
          var usageCount := qr.usageCount;
          if qr.status != QrActive || qr.company != t.company || qr.station != call.device.station || qr.program != t.program
             || qr.startsAt > now || !(qr.expiresAt > now) || usageCount >= qr.usageLimit {
            status, errorCode := Failed, Some(QrInvalid);
          } else {
            qrCodeId, amount := Some(qr.id), qr.amount;
            usageCount := usageCount + 1;
            var newStatus := QrActive;
            if usageCount >= qr.usageLimit {
              newStatus := QrUsed;
            }
            db.SetQrUsage(tokenHash, usageCount, newStatus);
          }
        }
      case RfCard =>
        if t.card.None? {
          status, errorCode := Failed, Some(RfCardInvalid);
        } else if t.card.value !in db.wallets || db.wallets[t.card.value].balance < t.price {
          status, errorCode := Failed, Some(RfInsufficientBalance);
        } else {
          walletId := Some(db.wallets[t.card.value].id);
          db.DebitWallet(t.card.value, t.price, now);
        }
      case Other(_) =>
    }
    return Outcome(status, errorCode, amount, qrCodeId, walletId);
  }

  method Create(db: Database, call: Call, now: Time) returns (reply: Reply)
    requires call.runtime == Go
    requires KeysUnique(db.payments) && db.committed == db.Contents()
    modifies db
    ensures db.committed == db.Contents()
    ensures (db.Contents(), reply) == AtomicCreate(db.env, old(db.Contents()), call, now, old(db.sequence))
    ensures db.sequence == old(db.sequence) + if InsertsPayment(db.env, old(db.Contents()), call, now) then 1 else 0
    ensures NewKey(old(db.Contents()), call) ==>
              Answered(db.env, old(db.Contents()), call, now, old(db.sequence), db.Contents(), reply)
  {
    NewKeyIsAnswered(db.env, db.Contents(), call, now, db.sequence);
    var earlier := db.Lookup(call);
    if earlier.Some? {
      return earlier.value;
    }
    var verdict := Guards(db, call, now);
    if verdict.Failure? {
      return Refused(verdict.error);
    }
    var t := verdict.value;
    var o := Charge(db, call, now, t);
    var paymentId := db.Record(call, now, t, o);
    if paymentId.None? {
      db.Rollback();
      return Aborted;
    }
    assert db.Contents() == Settle(old(db.Contents()), call, now, paymentId.value, t);
    db.Commit();
    return Accepted(Payload(db.Contents(), paymentId.value));
  }
}
