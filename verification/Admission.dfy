/** What a payment request needs to be admitted, and what it gets, written out over the rows it reads. */
module Admission {
  import opened Schema
  import opened Json
  import opened Checkout
  import Parity
  import opened PaymentRows

  // ---- the rules

  datatype Rule =
    | ActiveDevice
    | KnownStation
    | RecentHeartbeat
    | AssignedBay
    | NoMaintenance
    | CurrentConfiguration
    | FreeBay
    | TokenGiven
    | CodeOfThisStation
    | ProgramNamed
    | ProgramOnSale
    | Entitled
    | MethodOpen
    | PriceShown
    | KnownScenario
    | ReadableUid
    | SupportedMethod

  /** The place of a rule in the order of the statements. */
  function Position(r: Rule): nat {
    match r
    case ActiveDevice => 0
    case KnownStation => 1
    case RecentHeartbeat => 2
    case AssignedBay => 3
    case NoMaintenance => 4
    case CurrentConfiguration => 5
    case FreeBay => 6
    case TokenGiven => 7
    case CodeOfThisStation => 8
    case ProgramNamed => 9
    case ProgramOnSale => 10
    case Entitled => 11
    case MethodOpen => 12
    case PriceShown => 13
    case KnownScenario => 14
    case ReadableUid => 15
    case SupportedMethod => 16
  }

  function CodeOf(r: Rule): ErrorCode {
    match r
    case ActiveDevice => DeviceNotOperational
    case KnownStation => DeviceNotOperational
    case RecentHeartbeat => DeviceOffline
    case AssignedBay => DeviceNotAssigned
    case NoMaintenance => DeviceInMaintenance
    case CurrentConfiguration => ConfigurationNotAcknowledged
    case FreeBay => WashBayBusy
    case TokenGiven => QrTokenRequired
    case CodeOfThisStation => QrNotFound
    case ProgramNamed => StationProgramRequired
    case ProgramOnSale => ProgramNotAvailable
    case Entitled => EntitlementRequired
    case MethodOpen => PaymentMethodNotAvailable
    case PriceShown => ProgramPriceChanged
    case KnownScenario => InvalidTestScenario
    case ReadableUid => InvalidRfUid
    case SupportedMethod => UnsupportedPaymentMethod
  }

  /** The QR code behind the request's token; an absent token is looked up as the empty text. */
  function CodeAsked(qrs: map<Digest, QrCode>, body: Body): Option<QrCode> {
    var h := Digest(if body.qrToken.Some? then body.qrToken.value else "");
    if h in qrs then Some(qrs[h]) else None
  }

  function ProgramAsked(qrs: map<Digest, QrCode>, body: Body): Option<int> {
    if body.paymentMethod != Qr then body.program
    else if CodeAsked(qrs, body).Some? then Some(CodeAsked(qrs, body).value.program)
    else None
  }

  /** The places of the hexadecimal digits of a text. */
  function HexPlaces(text: string): set<int> {
    set i | 0 <= i < |text| && text[i] in "0123456789ABCDEFabcdef"
  }

  predicate Holds(r: Rule, env: Env, qrs: map<Digest, QrCode>, call: Call, now: Time) {
    var Device(device, station, active) := call.device;
    var body := call.body;
    var m, program := body.paymentMethod, ProgramAsked(qrs, body);
    match r
    case ActiveDevice => active
    case KnownStation => station in env.stations
    case RecentHeartbeat =>
      && device in env.deviceStates
      && env.deviceStates[device].lastSeen.Some?
      && now - env.deviceStates[device].lastSeen.value <= 120_000_000
    case AssignedBay => device in env.bays
    case NoMaintenance =>
      forall w | w in env.windows ::
        w.device != Some(device) || w.status != WindowActive || now < w.startsAt || w.endsAt <= now
    case CurrentConfiguration =>
      && device in env.published && device in env.deviceStates
      && body.configurationVersion == env.published[device]
      && env.deviceStates[device].acknowledgedVersion == Some(env.published[device])
    case FreeBay =>
      device in env.bays ==>
        forall e | e in env.executions ::
          env.executions[e].bay != Some(env.bays[device]) || env.executions[e].status !in {Created, CommandSent, Running}
    case TokenGiven => m == Qr && call.runtime == Go ==> body.qrToken != None
    case CodeOfThisStation =>
      m == Qr ==>
        && CodeAsked(qrs, body).Some? && station in env.stations
        && CodeAsked(qrs, body).value.company == env.stations[station]
        && CodeAsked(qrs, body).value.station == station
    case ProgramNamed => m != Qr ==> body.program != None
    case ProgramOnSale =>
      && program.Some? && program.value in env.programs && station in env.stations
      && env.programs[program.value].active && env.programs[program.value].company == env.stations[station]
    case Entitled => program.Some? && (device, program.value) in env.entitled
    case MethodOpen => program.Some? && (program.value, m) in env.enabled
    case PriceShown =>
      m == Card || m == RfCard ==>
        && program.Some? && program.value in env.programs
        && var price := env.programs[program.value].price;
           body.displayedPrice == Some(price) || (call.runtime == Python && body.displayedPrice == None && price == 0)
    case KnownScenario =>
      m == Card ==>
        body.testScenario.Some? && body.testScenario.value in
          {"TEST_SUCCESS", "TEST_FAILED", "TEST_CANCELLED", "TEST_TIMEOUT", "TEST_INSUFFICIENT_FUNDS", "TEST_PROVIDER_ERROR"}
    case ReadableUid =>
      m == RfCard ==> body.rfUid.Some? && |HexPlaces(body.rfUid.value)| % 2 == 0 && 8 <= |HexPlaces(body.rfUid.value)| <= 64
    case SupportedMethod => m == Card || m == Qr || m == RfCard
  }

  ghost predicate Admissible(env: Env, qrs: map<Digest, QrCode>, call: Call, now: Time) {
    forall r :: Holds(r, env, qrs, call, now)
  }

  /** `r` is the first rule that fails. */
  ghost predicate FailsFirst(r: Rule, env: Env, qrs: map<Digest, QrCode>, call: Call, now: Time) {
    && !Holds(r, env, qrs, call, now)
    && forall q | Position(q) < Position(r) :: Holds(q, env, qrs, call, now)
  }

  lemma {:induction false} SomeRuleFailsFirst(r: Rule, env: Env, qrs: map<Digest, QrCode>, call: Call, now: Time) returns (first: Rule)
    requires !Holds(r, env, qrs, call, now)
    ensures FailsFirst(first, env, qrs, call, now)
    decreases Position(r)
  {
    if q :| Position(q) < Position(r) && !Holds(q, env, qrs, call, now) {
      first := SomeRuleFailsFirst(q, env, qrs, call, now);
    } else {
      first := r;
    }
  }

  // ---- uids

  lemma HexLetters(c: char)
    ensures IsHex(c) <==> c in "0123456789ABCDEFabcdef"
  {
    var letters := "0123456789ABCDEFabcdef";
    if '0' <= c <= '9' {
      assert letters[c as int - '0' as int] == c;
    } else if 'A' <= c <= 'F' {
      assert letters[10 + (c as int - 'A' as int)] == c;
    } else if 'a' <= c <= 'f' {
      assert letters[16 + (c as int - 'a' as int)] == c;
    }
  }

  lemma OnePlaceMore(text: string)
    requires text != ""
    ensures var n := |text| - 1;
            |HexPlaces(text)| == |HexPlaces(text[..n])| + if IsHex(text[n]) then 1 else 0
  {
    var n := |text| - 1;
    HexLetters(text[n]);
    assert HexPlaces(text) == HexPlaces(text[..n]) + if IsHex(text[n]) then {n} else {};
  }

  lemma {:induction false} CountOfDigits(text: string)
    ensures |HexDigits(text)| == |HexPlaces(text)|
  {
    if text != "" {
      var n := |text| - 1;
      CountOfDigits(text[..n]);
      Parity.HexDigitsAppend(text[..n], [text[n]]);
      assert text[..n] + [text[n]] == text;
      Parity.OneDigit(text[n]);
      OnePlaceMore(text);
    }
  }

  // ---- each guard checks its rules

  /** The guard that checks a rule. */
  function GuardOf(r: Rule): Guard {
    match r
    case ActiveDevice => Operational
    case KnownStation => StationRow
    case RecentHeartbeat => StateRow
    case AssignedBay => BayRow
    case NoMaintenance => Maintenance
    case CurrentConfiguration => Configuration
    case FreeBay => BayBusy
    case TokenGiven => Resolve
    case CodeOfThisStation => Resolve
    case ProgramNamed => Resolve
    case ProgramOnSale => ProgramRow
    case Entitled => Entitlement
    case MethodOpen => MethodEnabled
    case PriceShown => Price
    case KnownScenario => Instrument
    case ReadableUid => Instrument
    case SupportedMethod => Instrument
  }

  /** What a request that arrives at `g` has read. */
  ghost predicate HasRead(g: Guard, env: Env, qrs: map<Digest, QrCode>, call: Call, t: Terms) {
    var device, station := call.device.id, call.device.station;
    && (Rank(g) >= 2 ==> station in env.stations && t.company == env.stations[station])
    && (Rank(g) >= 3 ==> device in env.deviceStates && t.acknowledged == env.deviceStates[device].acknowledgedVersion)
    && (Rank(g) >= 4 ==> device in env.bays && t.bay == env.bays[device])
    && (Rank(g) >= 8 ==> ProgramAsked(qrs, call.body) == Some(t.program))
    && (Rank(g) >= 9 ==> t.program in env.programs && t.price == env.programs[t.program].price)
  }

  /** The outcome of a guard, told by its rules. */
  ghost predicate Decides(g: Guard, env: Env, qrs: map<Digest, QrCode>, call: Call, now: Time, result: Result<Terms, ErrorCode>) {
    && (result.Success? <==> forall r | GuardOf(r) == g :: Holds(r, env, qrs, call, now))
    && (forall r | GuardOf(r) == g && !Holds(r, env, qrs, call, now)
          && (forall q | GuardOf(q) == g && Position(q) < Position(r) :: Holds(q, env, qrs, call, now)) ::
          result == Failure(CodeOf(r)))
  }

  /** A guard with a single rule. */
  lemma OneRule(g: Guard, rule: Rule, env: Env, qrs: map<Digest, QrCode>, call: Call, now: Time, result: Result<Terms, ErrorCode>)
    requires GuardOf(rule) == g && forall r | GuardOf(r) == g :: r == rule
    requires if Holds(rule, env, qrs, call, now) then result.Success? else result == Failure(CodeOf(rule))
    ensures Decides(g, env, qrs, call, now, result)
  {
  }

  ghost predicate Agrees(g: Guard, env: Env, qrs: map<Digest, QrCode>, call: Call, now: Time, t: Terms) {
    var result := Check(g, env, qrs, call, now, t);
    Decides(g, env, qrs, call, now, result) && (result.Success? ==> HasRead(Next(g), env, qrs, call, result.value))
  }

  lemma DeviceGuards(g: Guard, env: Env, qrs: map<Digest, QrCode>, call: Call, now: Time, t: Terms)
    requires g.Operational? || g.StationRow? || g.StateRow? || g.BayRow?
    requires HasRead(g, env, qrs, call, t)
    ensures Agrees(g, env, qrs, call, now, t)
  {
    var result := Check(g, env, qrs, call, now, t);
    match g
    case Operational => OneRule(g, ActiveDevice, env, qrs, call, now, result);
    case StationRow => OneRule(g, KnownStation, env, qrs, call, now, result);
    case StateRow => OneRule(g, RecentHeartbeat, env, qrs, call, now, result);
    case BayRow => OneRule(g, AssignedBay, env, qrs, call, now, result);
  }

  lemma StateGuards(g: Guard, env: Env, qrs: map<Digest, QrCode>, call: Call, now: Time, t: Terms)
    requires g.Maintenance? || g.Configuration? || g.BayBusy?
    requires HasRead(g, env, qrs, call, t)
    ensures Agrees(g, env, qrs, call, now, t)
  {
    var result := Check(g, env, qrs, call, now, t);
    match g
    case Maintenance => OneRule(g, NoMaintenance, env, qrs, call, now, result);
    case Configuration => OneRule(g, CurrentConfiguration, env, qrs, call, now, result);
    case BayBusy => OneRule(g, FreeBay, env, qrs, call, now, result);
  }

  lemma ResolveGuard(env: Env, qrs: map<Digest, QrCode>, call: Call, now: Time, t: Terms)
    requires HasRead(Resolve, env, qrs, call, t)
    ensures Agrees(Resolve, env, qrs, call, now, t)
  {
    var a, b, c := Holds(TokenGiven, env, qrs, call, now), Holds(CodeOfThisStation, env, qrs, call, now), Holds(ProgramNamed, env, qrs, call, now);
    assert GuardOf(TokenGiven) == Resolve && GuardOf(CodeOfThisStation) == Resolve && GuardOf(ProgramNamed) == Resolve;
    assert forall r | GuardOf(r) == Resolve :: r == TokenGiven || r == CodeOfThisStation || r == ProgramNamed;
    var result := Check(Resolve, env, qrs, call, now, t);
    if !a {
      assert result == Failure(QrTokenRequired);
    } else if !b {
      assert result == Failure(QrNotFound);
    } else if !c {
      assert result == Failure(StationProgramRequired);
    } else {
      assert result.Success?;
    }
  }

  lemma SaleGuards(g: Guard, env: Env, qrs: map<Digest, QrCode>, call: Call, now: Time, t: Terms)
    requires g.ProgramRow? || g.Entitlement? || g.MethodEnabled? || g.Price?
    requires HasRead(g, env, qrs, call, t)
    ensures Agrees(g, env, qrs, call, now, t)
  {
    var result := Check(g, env, qrs, call, now, t);
    match g
    case ProgramRow => OneRule(g, ProgramOnSale, env, qrs, call, now, result);
    case Entitlement => OneRule(g, Entitled, env, qrs, call, now, result);
    case MethodEnabled => OneRule(g, MethodOpen, env, qrs, call, now, result);
    case Price => OneRule(g, PriceShown, env, qrs, call, now, result);
  }

  lemma UidIsReadable(body: Body)
    ensures NormalizeUid(body.rfUid.GetOr("")).Some? <==>
            body.rfUid.Some? && |HexPlaces(body.rfUid.value)| % 2 == 0 && 8 <= |HexPlaces(body.rfUid.value)| <= 64
  {
    CountOfDigits(body.rfUid.GetOr(""));
  }

  lemma InstrumentGuard(env: Env, qrs: map<Digest, QrCode>, call: Call, now: Time, t: Terms)
    requires HasRead(Instrument, env, qrs, call, t)
    ensures Agrees(Instrument, env, qrs, call, now, t)
  {
    UidIsReadable(call.body);
    var a, b, c := Holds(KnownScenario, env, qrs, call, now), Holds(ReadableUid, env, qrs, call, now), Holds(SupportedMethod, env, qrs, call, now);
    assert GuardOf(KnownScenario) == Instrument && GuardOf(ReadableUid) == Instrument && GuardOf(SupportedMethod) == Instrument;
    assert forall r | GuardOf(r) == Instrument :: r == KnownScenario || r == ReadableUid || r == SupportedMethod;
    var result := Check(Instrument, env, qrs, call, now, t);
    if !a {
      assert result == Failure(InvalidTestScenario);
    } else if !b {
      assert result == Failure(InvalidRfUid);
    } else if !c {
      assert result == Failure(UnsupportedPaymentMethod);
    } else {
      assert result.Success?;
    }
  }

  lemma EachGuard(g: Guard, env: Env, qrs: map<Digest, QrCode>, call: Call, now: Time, t: Terms)
    requires HasRead(g, env, qrs, call, t)
    ensures Agrees(g, env, qrs, call, now, t)
  {
    if g.Resolve? {
      ResolveGuard(env, qrs, call, now, t);
    } else if g.Instrument? {
      InstrumentGuard(env, qrs, call, now, t);
    } else if g.Maintenance? || g.Configuration? || g.BayBusy? {
      StateGuards(g, env, qrs, call, now, t);
    } else if g.Operational? || g.StationRow? || g.StateRow? || g.BayRow? {
      DeviceGuards(g, env, qrs, call, now, t);
    } else {
      SaleGuards(g, env, qrs, call, now, t);
    }
  }

  // ---- the chain

  lemma RulesInOrder(q: Rule, r: Rule)
    ensures Rank(GuardOf(q)) < Rank(GuardOf(r)) ==> Position(q) < Position(r)
    ensures Rank(GuardOf(q)) <= 12
  {
  }

  /** On arrival at `g`: all rules of the earlier guards hold, or the first of them that fails has decided. */
  ghost predicate ArrivesBy(g: Guard, env: Env, qrs: map<Digest, QrCode>, call: Call, now: Time, arrival: Result<Terms, ErrorCode>) {
    && (arrival.Success? ==> HasRead(g, env, qrs, call, arrival.value))
    && (arrival.Success? <==> forall r | Rank(GuardOf(r)) < Rank(g) :: Holds(r, env, qrs, call, now))
    && (forall r | Rank(GuardOf(r)) < Rank(g) && FailsFirst(r, env, qrs, call, now) :: arrival == Failure(CodeOf(r)))
  }

  lemma {:induction false} Arrival(g: Guard, env: Env, qrs: map<Digest, QrCode>, call: Call, now: Time)
    ensures ArrivesBy(g, env, qrs, call, now, ArriveAt(g, env, qrs, call, now))
    decreases Rank(g)
  {
    if g != Operational {
      var before := Before(g);
      Arrival(before, env, qrs, call, now);
      var arrival := ArriveAt(before, env, qrs, call, now);
      if arrival.Success? {
        EachGuard(before, env, qrs, call, now, arrival.value);
        OneGuardMore(before, env, qrs, call, now, arrival.value, Check(before, env, qrs, call, now, arrival.value));
      } else {
        StaysRefused(before, env, qrs, call, now, arrival);
      }
    }
  }

  /** The rules of the guards up to `g` are those of the earlier guards and its own. */
  lemma RulesUpTo(g: Guard, r: Rule)
    requires g != Instrument
    ensures Rank(GuardOf(r)) < Rank(Next(g)) <==> Rank(GuardOf(r)) < Rank(g) || GuardOf(r) == g
  {
  }

  lemma OneGuardMore(g: Guard, env: Env, qrs: map<Digest, QrCode>, call: Call, now: Time, t: Terms, result: Result<Terms, ErrorCode>)
    requires g != Instrument && ArrivesBy(g, env, qrs, call, now, Success(t)) && Decides(g, env, qrs, call, now, result)
    requires result.Success? ==> HasRead(Next(g), env, qrs, call, result.value)
    ensures ArrivesBy(Next(g), env, qrs, call, now, result)
  {
    if result.Success? {
      forall r | Rank(GuardOf(r)) < Rank(Next(g))
        ensures Holds(r, env, qrs, call, now)
      {
        RulesUpTo(g, r);
      }
    } else {
      var r :| GuardOf(r) == g && !Holds(r, env, qrs, call, now);
      RulesUpTo(g, r);
      forall q | Rank(GuardOf(q)) < Rank(Next(g)) && FailsFirst(q, env, qrs, call, now)
        ensures result == Failure(CodeOf(q))
      {
        RulesUpTo(g, q);
      }
    }
  }

  lemma StaysRefused(g: Guard, env: Env, qrs: map<Digest, QrCode>, call: Call, now: Time, arrival: Result<Terms, ErrorCode>)
    requires g != Instrument && ArrivesBy(g, env, qrs, call, now, arrival) && arrival.Failure?
    ensures ArrivesBy(Next(g), env, qrs, call, now, arrival)
  {
    var r :| Rank(GuardOf(r)) < Rank(g) && !Holds(r, env, qrs, call, now);
    forall q | Rank(GuardOf(q)) < Rank(Next(g)) && FailsFirst(q, env, qrs, call, now)
      ensures Rank(GuardOf(q)) < Rank(g)
    {
      RulesInOrder(r, q);
    }
  }

  /** The whole chain: a verdict exactly when every rule holds, and otherwise the code of the first that fails. */
  lemma VerdictExactly(env: Env, qrs: map<Digest, QrCode>, call: Call, now: Time)
    ensures Verdict(env, qrs, call, now).Success? <==> Admissible(env, qrs, call, now)
    ensures forall r | FailsFirst(r, env, qrs, call, now) :: Verdict(env, qrs, call, now) == Failure(CodeOf(r))
  {
    Arrival(Instrument, env, qrs, call, now);
    var arrival := ArriveAt(Instrument, env, qrs, call, now);
    forall r
      ensures Rank(GuardOf(r)) < Rank(Instrument) || GuardOf(r) == Instrument
    {
    }
    if arrival.Success? {
      InstrumentGuard(env, qrs, call, now, arrival.value);
    } else {
      LaterRulesAreSecond(env, qrs, call, now, arrival);
    }
  }

  lemma LaterRulesAreSecond(env: Env, qrs: map<Digest, QrCode>, call: Call, now: Time, arrival: Result<Terms, ErrorCode>)
    requires ArrivesBy(Instrument, env, qrs, call, now, arrival) && arrival.Failure?
    ensures !Admissible(env, qrs, call, now)
    ensures forall r | FailsFirst(r, env, qrs, call, now) :: arrival == Failure(CodeOf(r))
  {
    var r :| Rank(GuardOf(r)) < Rank(Instrument) && !Holds(r, env, qrs, call, now);
    forall q | FailsFirst(q, env, qrs, call, now)
      ensures Rank(GuardOf(q)) < Rank(Instrument)
    {
      RulesInOrder(r, q);
    }
  }

  // ---- the answer to a new key

  ghost predicate NewKey(t: Tables, call: Call) {
    forall p | p in t.payments :: t.payments[p].device != call.device.id || t.payments[p].key != call.key
  }

  function PriceOf(env: Env, qrs: map<Digest, QrCode>, call: Call): int {
    var program := ProgramAsked(qrs, call.body);
    if program.Some? && program.value in env.programs then env.programs[program.value].price else 0
  }

  /** The RF card behind the uid, if it is active, of this company and not expired. */
  function CardThatMayPay(env: Env, call: Call, now: Time): Option<int> {
    var uid := if call.body.rfUid.Some? then call.body.rfUid.value else "";
    var h := Digest(HexDigits(uid));
    if h in env.cards && call.device.station in env.stations
       && env.cards[h].active && env.cards[h].company == env.stations[call.device.station]
       && (env.cards[h].expiresAt == None || now < env.cards[h].expiresAt.value)
    then Some(env.cards[h].id) else None
  }

  /** An RF card payment of 0 that finds a wallet: the ledger does not take its debit. */
  predicate FreeDebit(env: Env, t: Tables, call: Call, now: Time) {
    && call.body.paymentMethod == RfCard && PriceOf(env, t.qrs, call) == 0
    && CardThatMayPay(env, call, now).Some? && CardThatMayPay(env, call, now).value in t.wallets
  }

  predicate CardOutcome(scenario: string, status: PaymentStatus, error: Option<ErrorCode>) {
    && (scenario == "TEST_SUCCESS" ==> status == Succeeded && error == None)
    && (scenario == "TEST_FAILED" ==> status == Failed && error == Some(CardDeclined))
    && (scenario == "TEST_CANCELLED" ==> status == Cancelled && error == Some(CardCancelled))
    && (scenario == "TEST_TIMEOUT" ==> status == Pending && error == None)
    && (scenario == "TEST_INSUFFICIENT_FUNDS" ==> status == Failed && error == Some(InsufficientFunds))
    && (scenario == "TEST_PROVIDER_ERROR" ==> status == Failed && error == Some(ProviderError))
  }

  predicate CodeIsGood(q: QrCode, now: Time) {
    q.status == QrActive && q.startsAt <= now && now < q.expiresAt && q.usageCount < q.usageLimit
  }

  /** The financial result an admitted request must have. */
  predicate Pays(env: Env, t: Tables, call: Call, now: Time,
                 status: PaymentStatus, error: Option<ErrorCode>, amount: int, qrCode: Option<int>, wallet: Option<int>) {
    var price, q, card := PriceOf(env, t.qrs, call), CodeAsked(t.qrs, call.body), CardThatMayPay(env, call, now);
    && (call.body.paymentMethod == Card ==>
          && amount == price && qrCode == None && wallet == None
          && call.body.testScenario.Some? && CardOutcome(call.body.testScenario.value, status, error))
    && (call.body.paymentMethod == Qr ==>
          && wallet == None && q.Some?
          && if CodeIsGood(q.value, now)
             then status == Succeeded && error == None && amount == q.value.amount && qrCode == Some(q.value.id)
             else status == Failed && error == Some(QrInvalid) && amount == price && qrCode == None)
    && (call.body.paymentMethod == RfCard ==>
          && amount == price && qrCode == None
          && if card == None then status == Failed && error == Some(RfCardInvalid) && wallet == None
             else if card.value !in t.wallets || t.wallets[card.value].balance < price
             then status == Failed && error == Some(RfInsufficientBalance) && wallet == None
             else status == Succeeded && error == None && wallet == Some(t.wallets[card.value].id))
  }

  /** What the guards of an admitted request have read. */
  lemma AdmittedTerms(env: Env, qrs: map<Digest, QrCode>, call: Call, now: Time)
    requires Admissible(env, qrs, call, now)
    ensures Verdict(env, qrs, call, now).Success?
    ensures var terms := Verdict(env, qrs, call, now).value;
            && call.device.id in env.bays && terms.bay == env.bays[call.device.id]
            && call.device.station in env.stations && terms.company == env.stations[call.device.station]
            && ProgramAsked(qrs, call.body) == Some(terms.program) && terms.price == PriceOf(env, qrs, call)
            && (call.body.paymentMethod == RfCard ==> terms.card == CardThatMayPay(env, call, now))
  {
    VerdictExactly(env, qrs, call, now);
    Arrival(Instrument, env, qrs, call, now);
    assert Holds(KnownStation, env, qrs, call, now) && Holds(AssignedBay, env, qrs, call, now);
  }

  lemma PaidExactly(env: Env, t: Tables, call: Call, now: Time)
    requires Admissible(env, t.qrs, call, now)
    ensures Verdict(env, t.qrs, call, now).Success?
    ensures var o := Judge(t.qrs, t.wallets, call, now, Verdict(env, t.qrs, call, now).value);
            Pays(env, t, call, now, o.status, o.error, o.amount, o.qrCode, o.wallet)
  {
    AdmittedTerms(env, t.qrs, call, now);
    assert Holds(SupportedMethod, env, t.qrs, call, now);
    assert Holds(KnownScenario, env, t.qrs, call, now) && Holds(CodeOfThisStation, env, t.qrs, call, now);
  }

  lemma NewKeyIsFree(t: Tables, call: Call)
    ensures NewKey(t, call) <==> !KeyTaken(t.payments, call)
  {
  }

  /** For a new key: refused exactly when some rule fails, and then with the code of the first one in order. */
  lemma RefusedExactly(env: Env, t: Tables, call: Call, now: Time, id: int, c: ErrorCode)
    requires NewKey(t, call)
    ensures var reply := AtomicCreate(env, t, call, now, id).1;
            && (!reply.Refused? <==> Admissible(env, t.qrs, call, now))
            && (reply == Refused(c) <==> exists r :: FailsFirst(r, env, t.qrs, call, now) && CodeOf(r) == c)
    ensures AtomicCreate(env, t, call, now, id).1.Refused? ==> AtomicCreate(env, t, call, now, id).0 == t
  {
    NewKeyIsFree(t, call);
    VerdictExactly(env, t.qrs, call, now);
    if !Admissible(env, t.qrs, call, now) {
      var r :| !Holds(r, env, t.qrs, call, now);
      var first := SomeRuleFailsFirst(r, env, t.qrs, call, now);
    }
  }

  /** Of the admitted ones exactly the free RF card debits are aborted; the others are accepted. */
  lemma AcceptedExactly(env: Env, t: Tables, call: Call, now: Time, id: int)
    requires TablesOk(t) && PricesAdmitted(env) && NewKey(t, call)
    ensures var (after, reply) := AtomicCreate(env, t, call, now, id);
            && (reply.Accepted? <==> Admissible(env, t.qrs, call, now) && !FreeDebit(env, t, call, now))
            && (reply.Aborted? <==> Admissible(env, t.qrs, call, now) && FreeDebit(env, t, call, now))
            && (!reply.Accepted? ==> after == t)
  {
    NewKeyIsFree(t, call);
    VerdictExactly(env, t.qrs, call, now);
    if Admissible(env, t.qrs, call, now) {
      AdmittedTerms(env, t.qrs, call, now);
      PaidExactly(env, t, call, now);
      var terms := Verdict(env, t.qrs, call, now).value;
      JudgedAmount(t.qrs, t.wallets, call, now, terms);
      ChecksHoldExactly(id, call, now, terms, Judge(t.qrs, t.wallets, call, now, terms));
      BalancesOk(t);
    }
  }

  lemma BalancesOk(t: Tables)
    requires TablesOk(t)
    ensures forall c | c in t.wallets :: t.wallets[c].balance >= 0
  {
    forall c | c in t.wallets
      ensures t.wallets[c].balance >= 0
    {
      assert WalletRowOk(t.wallets[c]);
    }
  }

  /** The dependent rows of a new payment. */
  function RowsFor(id: int, p: Payment, bay: int): seq<Row> {
    [Attempt(id, 1, p.status, p.createdAt)]
    + (if p.paymentMethod == Card then [Provider(id, p.status, p.createdAt)] else [])
    + (if p.wallet.Some? then [Debit(id, p.wallet.value, p.amount, p.createdAt)] else [])
    + (if p.status == Succeeded then [StartRight(id, p.device, bay, p.program, p.createdAt)] else [])
    + [PaymentEvent(id, p.device, p.status, p.paymentMethod, p.error, p.createdAt)]
    + [Audit(id, p.status, p.createdAt)]
  }

  function RedeemedCode(q: QrCode): QrCode {
    q.(usageCount := q.usageCount + 1, status := if q.usageCount + 1 < q.usageLimit then QrActive else QrUsed)
  }

  /** Everything an accepted payment leaves: its row, its dependent rows, one code or one wallet, and nothing else. */
  ghost predicate Leaves(env: Env, t: Tables, call: Call, now: Time, id: int, after: Tables) {
    && id in after.payments && call.device.id in env.bays && ProgramAsked(t.qrs, call.body).Some?
    && var p := after.payments[id];
    && Pays(env, t, call, now, p.status, p.error, p.amount, p.qrCode, p.wallet)
    && p == Payment(call.device.id, call.device.station, call.key, BodyDigest(JsonText(call.runtime, call.body)),
                    call.body.paymentMethod, p.amount, p.status, p.error, ProgramAsked(t.qrs, call.body).value,
                    p.qrCode, p.wallet, now, if p.status == Pending then None else Some(now))
    && after.payments == t.payments[id := p]
    && after.rows == t.rows + RowsFor(id, p, env.bays[call.device.id])
    && (p.qrCode.None? ==> after.qrs == t.qrs)
    && (p.qrCode.Some? ==>
          var h := Digest(if call.body.qrToken.Some? then call.body.qrToken.value else "");
          h in t.qrs && after.qrs == t.qrs[h := RedeemedCode(t.qrs[h])])
    && (p.wallet.None? ==> after.wallets == t.wallets)
    && (p.wallet.Some? ==>
          var card := CardThatMayPay(env, call, now);
          card.Some? && card.value in t.wallets
          && var w := t.wallets[card.value];
             after.wallets == t.wallets[card.value := Wallet(w.id, w.balance - p.amount, w.version + 1, now)])
  }

  lemma SettledLeaves(env: Env, t: Tables, call: Call, now: Time, id: int)
    requires Admissible(env, t.qrs, call, now)
    ensures Verdict(env, t.qrs, call, now).Success?
    ensures Leaves(env, t, call, now, id, Settle(t, call, now, id, Verdict(env, t.qrs, call, now).value))
  {
    AdmittedTerms(env, t.qrs, call, now);
    PaidExactly(env, t, call, now);
    var terms := Verdict(env, t.qrs, call, now).value;
    var o := Judge(t.qrs, t.wallets, call, now, terms);
    assert Holds(SupportedMethod, env, t.qrs, call, now);
    InsertedRows(id, call, now, terms, o);
    ChargedRows(env, t, call, now, terms, o);
    InsertedPayment(call, now, terms, o);
  }

  lemma InsertedPayment(call: Call, now: Time, terms: Terms, o: Outcome)
    ensures PaymentRow(call, now, terms, o) ==
            Payment(call.device.id, call.device.station, call.key, BodyDigest(JsonText(call.runtime, call.body)),
                    call.body.paymentMethod, o.amount, o.status, o.error, terms.program, o.qrCode, o.wallet, now,
                    if o.status == Pending then None else Some(now))
  {
  }

  /** The code or the wallet after the charge. */
  lemma ChargedRows(env: Env, t: Tables, call: Call, now: Time, terms: Terms, o: Outcome)
    requires Pays(env, t, call, now, o.status, o.error, o.amount, o.qrCode, o.wallet)
    requires call.body.paymentMethod == Card || call.body.paymentMethod == Qr || call.body.paymentMethod == RfCard
    requires terms.price == PriceOf(env, t.qrs, call) && (call.body.paymentMethod == RfCard ==> terms.card == CardThatMayPay(env, call, now))
    ensures var h := Digest(if call.body.qrToken.Some? then call.body.qrToken.value else "");
            if o.qrCode.None? then ChargedQrs(t.qrs, call, o) == t.qrs
            else h in t.qrs && ChargedQrs(t.qrs, call, o) == t.qrs[h := RedeemedCode(t.qrs[h])]
    ensures var card := CardThatMayPay(env, call, now);
            if o.wallet.None? then ChargedWallets(t.wallets, terms, now, o) == t.wallets
            else
              && card.Some? && card.value in t.wallets
              && var w := t.wallets[card.value];
                 ChargedWallets(t.wallets, terms, now, o) ==
                 t.wallets[card.value := Wallet(w.id, w.balance - o.amount, w.version + 1, now)]
  {
  }

  lemma InsertedRows(id: int, call: Call, now: Time, terms: Terms, o: Outcome)
    requires o.wallet.Some? <==> call.body.paymentMethod == RfCard && o.status == Succeeded
    requires o.wallet.Some? ==> o.amount == terms.price
    ensures Artefacts(id, call, now, terms, o) == RowsFor(id, PaymentRow(call, now, terms, o), terms.bay)
  {
  }

  /** What the caller of an accepted payment is told, and what the tables hold then. */
  lemma AcceptedPayment(env: Env, t: Tables, call: Call, now: Time, id: int)
    requires TablesOk(t) && PricesAdmitted(env) && NewKey(t, call) && id !in t.payments
    requires Admissible(env, t.qrs, call, now) && !FreeDebit(env, t, call, now)
    ensures var (after, reply) := AtomicCreate(env, t, call, now, id);
            && Leaves(env, t, call, now, id, after)
            && var p := after.payments[id];
               reply == Accepted(View(id, p.status, call.body.paymentMethod, p.amount, p.error, p.program, now, p.status == Succeeded))
  {
    NewKeyIsFree(t, call);
    AcceptedExactly(env, t, call, now, id);
    SettledLeaves(env, t, call, now, id);
    var after := AtomicCreate(env, t, call, now, id).0;
    StartRightIsNew(t, after, id, after.payments[id], env.bays[call.device.id]);
  }

  lemma StartRightIsNew(t: Tables, after: Tables, id: int, p: Payment, bay: int)
    requires TablesOk(t) && id !in t.payments && after.rows == t.rows + RowsFor(id, p, bay)
    ensures HasStartRight(after.rows, id) <==> p.status == Succeeded
  {
    var more := RowsFor(id, p, bay);
    forall r | r in after.rows
      ensures r in t.rows || r in more
    {
    }
    if p.status == Succeeded {
      assert StartRight(id, p.device, bay, p.program, p.createdAt) in more;
    }
  }

  /** A key that is taken is answered from the stored row, and changes nothing. */
  lemma StoredKeyAnswers(env: Env, t: Tables, call: Call, now: Time, id: int, p: int)
    requires TablesOk(t) && p in t.payments && t.payments[p].device == call.device.id && t.payments[p].key == call.key
    ensures var row := t.payments[p];
            AtomicCreate(env, t, call, now, id) ==
            (t, if row.requestHash != BodyDigest(JsonText(call.runtime, call.body)) then Refused(IdempotencyConflict)
                else Accepted(View(p, row.status, row.paymentMethod, row.amount, row.error, row.program, row.createdAt,
                                   exists r | r in t.rows :: r.StartRight? && r.payment == p)))
  {
    assert SameKey(t.payments[p], call.device.id, call.key);
    assert KeyTaken(t.payments, call);
  }

  /** What a handler may answer to a new key, and leave. */
  ghost predicate Answered(env: Env, t: Tables, call: Call, now: Time, id: int, after: Tables, reply: Reply) {
    && (reply.Refused? <==> !Admissible(env, t.qrs, call, now))
    && (reply.Refused? ==> exists r :: FailsFirst(r, env, t.qrs, call, now) && CodeOf(r) == reply.code)
    && (reply.Accepted? ==> Leaves(env, t, call, now, id, after))
    && (!reply.Accepted? ==> after == t)
  }

  lemma NewKeyIsAnswered(env: Env, t: Tables, call: Call, now: Time, id: int)
    ensures var (after, reply) := AtomicCreate(env, t, call, now, id);
            NewKey(t, call) ==> Answered(env, t, call, now, id, after, reply)
  {
    if NewKey(t, call) {
      NewKeyIsFree(t, call);
      var (after, reply) := AtomicCreate(env, t, call, now, id);
      if reply.Refused? {
        RefusedExactly(env, t, call, now, id, reply.code);
      } else {
        RefusedExactly(env, t, call, now, id, DeviceOffline);
        SettledLeaves(env, t, call, now, id);
      }
    }
  }

  /** A sequence value is taken exactly by the admitted requests under a new key, aborted ones included. */
  lemma TakesAnIdExactly(env: Env, t: Tables, call: Call, now: Time)
    ensures InsertsPayment(env, t, call, now) <==> NewKey(t, call) && Admissible(env, t.qrs, call, now)
  {
    NewKeyIsFree(t, call);
    VerdictExactly(env, t.qrs, call, now);
  }
}
