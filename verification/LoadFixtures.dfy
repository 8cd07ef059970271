/** The payment workloads of the load scripts against the seeded database. */
module LoadFixtures {
  import opened Schema
  import opened Checkout
  import opened PaymentMachine
  import opened PaymentRows
  import opened PaymentProgress
  import opened Serializability
  import opened Contention
  import opened SeedTexts
  import opened SeededDatabase
  import F = SeedFormulas

  lemma TheProfilesAreTextual()
    ensures Textual(F.D1) && Textual(F.D2) && Textual(F.D3)
  {
    assert Power(Ten, 12) == 1_000_000_000_000;
    assert Power(Sixteen, 8) == 4_294_967_296;
  }

  // ---- the requests

  function SeededDevice(p: F.Profile, id: int): Device
    requires F.Fits(p)
  {
    Device(id, F.StationOf(p, id), true)
  }

  function QrRequest(p: F.Profile, requested: int, runtime: Runtime, key: string): Call
    requires F.Fits(p)
  {
    Call(runtime, SeededDevice(p, F.ContentionDeviceId(p, requested)), key,
         Body(None, Qr, 1, None, Some(Token(F.ContentionIndex(p, requested))), None, None))
  }

  function RfRequest(p: F.Profile, requested: int, runtime: Runtime, key: string): Call
    requires F.Fits(p)
  {
    var device := F.ContentionDeviceId(p, requested);
    Call(runtime, SeededDevice(p, device), key,
         Body(Some(F.StationProgramId(p, device)), RfCard, 1, Some(1000), None, Some(Uid(F.ContentionIndex(p, requested))), None))
  }

  function CardRequest(p: F.Profile, vu: int, iter: int, runtime: Runtime, key: string): Call
    requires F.Fits(p)
  {
    var device := F.PaymentDeviceIdFor(p, vu, iter);
    Call(runtime, SeededDevice(p, device), key,
         Body(Some(F.StationProgramId(p, device)), Card, 1, Some(1000), None, None, Some("TEST_SUCCESS")))
  }

  // ---- the guards

  /** The device has sent a heartbeat lately and acknowledged configuration 1. */
  predicate Beating(states: map<int, DeviceState>, device: int, now: Time) {
    && device in states && states[device].acknowledgedVersion == Some(1)
    && states[device].lastSeen.Some? && states[device].lastSeen.value >= now - OFFLINE_AFTER
  }

  /** The seeded database, with the heartbeats received since. */
  function EnvWith(p: F.Profile, states: map<int, DeviceState>): Env
    requires F.Fits(p)
  {
    SeededEnv(p).(deviceStates := states)
  }

  /** No seeded execution occupies the bay of a fixture device. */
  lemma FixtureBayIsIdle(p: F.Profile, device: int)
    requires F.Fits(p) && F.CommandCount(p) < device
    ensures !Busy(SeededExecutions(p), device)
  {
    forall e | e in SeededExecutions(p)
      ensures SeededExecutions(p)[e].bay != Some(device)
    {
      F.BusyPrefix(p, e);
    }
  }

  lemma DeviceChecks(p: F.Profile, states: map<int, DeviceState>, qrs: map<Digest, QrCode>, call: Call, now: Time, t: Terms)
    requires F.Fits(p)
    requires F.CommandCount(p) < call.device.id <= p.devices && call.device == SeededDevice(p, call.device.id)
    requires call.body.configurationVersion == 1 && Beating(states, call.device.id, now)
    ensures var env, company, bay := EnvWith(p, states), F.CompanyOfStation(p, call.device.station), call.device.id;
            && Check(Operational, env, qrs, call, now, t) == Success(t)
            && Check(StationRow, env, qrs, call, now, t) == Success(t.(company := company))
            && Check(StateRow, env, qrs, call, now, t) == Success(t.(acknowledged := Some(1)))
            && Check(BayRow, env, qrs, call, now, t) == Success(t.(bay := bay))
            && Check(Maintenance, env, qrs, call, now, t) == Success(t)
            && (t.acknowledged == Some(1) ==> Check(Configuration, env, qrs, call, now, t) == Success(t))
            && (t.bay == bay ==> Check(BayBusy, env, qrs, call, now, t) == Success(t))
  {
    FixtureBayIsIdle(p, call.device.id);
  }

  /** The guards that do not look at the payment method. */
  lemma DevicePasses(p: F.Profile, states: map<int, DeviceState>, qrs: map<Digest, QrCode>, call: Call, now: Time)
    requires F.Fits(p)
    requires F.CommandCount(p) < call.device.id <= p.devices && call.device == SeededDevice(p, call.device.id)
    requires call.body.configurationVersion == 1 && Beating(states, call.device.id, now)
    ensures var company := F.CompanyOfStation(p, call.device.station);
            ArriveAt(Resolve, EnvWith(p, states), qrs, call, now)
            == Success(NO_TERMS.(company := company, acknowledged := Some(1), bay := call.device.id))
  {
    var env := EnvWith(p, states);
    var t1 := NO_TERMS.(company := F.CompanyOfStation(p, call.device.station));
    var t2 := t1.(acknowledged := Some(1));
    var t3 := t2.(bay := call.device.id);
    DeviceChecks(p, states, qrs, call, now, NO_TERMS);
    DeviceChecks(p, states, qrs, call, now, t1);
    DeviceChecks(p, states, qrs, call, now, t2);
    DeviceChecks(p, states, qrs, call, now, t3);
    SevenMore(env, qrs, call, now, NO_TERMS, t1, t2, t3);
  }

  lemma SevenMore(env: Env, qrs: map<Digest, QrCode>, call: Call, now: Time, t0: Terms, t1: Terms, t2: Terms, t3: Terms)
    requires t0 == NO_TERMS
    requires Check(Operational, env, qrs, call, now, t0) == Success(t0) && Check(StationRow, env, qrs, call, now, t0) == Success(t1)
    requires Check(StateRow, env, qrs, call, now, t1) == Success(t2) && Check(BayRow, env, qrs, call, now, t2) == Success(t3)
    requires Check(Maintenance, env, qrs, call, now, t3) == Success(t3) && Check(Configuration, env, qrs, call, now, t3) == Success(t3)
    requires Check(BayBusy, env, qrs, call, now, t3) == Success(t3)
    ensures ArriveAt(Resolve, env, qrs, call, now) == Success(t3)
  {
    Passed(Operational, env, qrs, call, now, t0, t0);
    Passed(StationRow, env, qrs, call, now, t0, t1);
    Passed(StateRow, env, qrs, call, now, t1, t2);
    Passed(BayRow, env, qrs, call, now, t2, t3);
    Passed(Maintenance, env, qrs, call, now, t3, t3);
    Passed(Configuration, env, qrs, call, now, t3, t3);
    Passed(BayBusy, env, qrs, call, now, t3, t3);
  }

  /** The guards on program, entitlement, method and price, once a program is resolved. */
  lemma ProgramChecks(p: F.Profile, states: map<int, DeviceState>, qrs: map<Digest, QrCode>, call: Call, now: Time, t: Terms)
    requires F.Fits(p) && 1 <= call.device.id <= p.devices && call.device == SeededDevice(p, call.device.id)
    requires t.program == F.EntitledProgram(p, call.device.station) && t.company == F.CompanyOfStation(p, call.device.station)
    requires call.body.paymentMethod in METHODS
    requires call.body.paymentMethod == Qr || call.body.displayedPrice == Some(1000)
    ensures var env, t' := EnvWith(p, states), t.(price := 1000);
            && Check(ProgramRow, env, qrs, call, now, t) == Success(t')
            && Check(Entitlement, env, qrs, call, now, t') == Success(t')
            && Check(MethodEnabled, env, qrs, call, now, t') == Success(t')
            && Check(Price, env, qrs, call, now, t') == Success(t')
  {
    var env := EnvWith(p, states);
    F.EntitledProgramFits(p, call.device.station);
    assert (call.device.id, t.program) in env.entitled && (t.program, call.body.paymentMethod) in env.enabled;
  }

  lemma ProgramPasses(p: F.Profile, states: map<int, DeviceState>, qrs: map<Digest, QrCode>, call: Call, now: Time, t: Terms)
    requires F.Fits(p) && 1 <= call.device.id <= p.devices && call.device == SeededDevice(p, call.device.id)
    requires ArriveAt(ProgramRow, EnvWith(p, states), qrs, call, now) == Success(t)
    requires t.program == F.EntitledProgram(p, call.device.station) && t.company == F.CompanyOfStation(p, call.device.station)
    requires call.body.paymentMethod in METHODS
    requires call.body.paymentMethod == Qr || call.body.displayedPrice == Some(1000)
    ensures ArriveAt(Instrument, EnvWith(p, states), qrs, call, now) == Success(t.(price := 1000))
  {
    ProgramChecks(p, states, qrs, call, now, t);
    FourMore(EnvWith(p, states), qrs, call, now, t, t.(price := 1000));
  }

  lemma FourMore(env: Env, qrs: map<Digest, QrCode>, call: Call, now: Time, t: Terms, t': Terms)
    requires ArriveAt(ProgramRow, env, qrs, call, now) == Success(t)
    requires Check(ProgramRow, env, qrs, call, now, t) == Success(t') && Check(Entitlement, env, qrs, call, now, t') == Success(t')
    requires Check(MethodEnabled, env, qrs, call, now, t') == Success(t') && Check(Price, env, qrs, call, now, t') == Success(t')
    ensures ArriveAt(Instrument, env, qrs, call, now) == Success(t')
  {
    Passed(ProgramRow, env, qrs, call, now, t, t');
    Passed(Entitlement, env, qrs, call, now, t', t');
    Passed(MethodEnabled, env, qrs, call, now, t', t');
    Passed(Price, env, qrs, call, now, t', t');
  }

  ghost predicate InValidity(now: Time) {
    SEEDED_AT <= now < VALID_UNTIL
  }

  /** The preflight finds the code of that index and takes its program. */
  lemma QrResolves(p: F.Profile, states: map<int, DeviceState>, call: Call, now: Time, index: nat, t: Terms)
    requires F.Fits(p) && 1 <= index <= F.FixtureCount(p)
    requires call.body.paymentMethod == Qr && call.body.qrToken == Some(Token(index))
    requires call.device.station == F.StationOf(p, index) && t.company == F.CompanyOfStation(p, call.device.station)
    ensures Check(Resolve, EnvWith(p, states), SeededTables(p).qrs, call, now, t)
            == Success(t.(program := F.EntitledProgram(p, call.device.station)))
  {
    QrLookup(p, F.FixtureCount(p), index);
  }

  lemma QrRequestContends(p: F.Profile, states: map<int, DeviceState>, requested: int, runtime: Runtime, key: string, now: Time)
    requires F.Fits(p) && InValidity(now) && Beating(states, F.ContentionDeviceId(p, requested), now)
    ensures var token := Digest(Token(F.ContentionIndex(p, requested)));
            Contends(OneQr(token), EnvWith(p, states), SeededTables(p).qrs, QrRequest(p, requested, runtime, key), now)
  {
    var env, qrs := EnvWith(p, states), SeededTables(p).qrs;
    var call := QrRequest(p, requested, runtime, key);
    var index := F.ContentionIndex(p, requested);
    F.ContentionFixtureMatches(p, requested);
    DevicePasses(p, states, qrs, call, now);
    QrLookup(p, F.FixtureCount(p), index);
    var t := ArriveAt(Resolve, env, qrs, call, now).value;
    var t' := t.(program := F.EntitledProgram(p, call.device.station));
    QrResolves(p, states, call, now, index, t);
    Passed(Resolve, env, qrs, call, now, t, t');
    ProgramPasses(p, states, qrs, call, now, t');
  }

  /** The last guard normalises the uid and finds the card of that index. */
  lemma RfCardIsUsable(p: F.Profile, states: map<int, DeviceState>, qrs: map<Digest, QrCode>, call: Call, now: Time, index: nat, t: Terms)
    requires F.Fits(p) && Textual(p) && InValidity(now) && 1 <= index <= F.FixtureCount(p)
    requires call.body.paymentMethod == RfCard && call.body.rfUid == Some(Uid(index)) && t.company == F.CompanyOfCard(p, index)
    ensures Check(Instrument, EnvWith(p, states), qrs, call, now, t) == Success(t.(card := Some(index)))
  {
    UidIsNormal(index);
    CardLookup(p, F.FixtureCount(p), index);
  }

  lemma RfRequestContends(p: F.Profile, states: map<int, DeviceState>, requested: int, runtime: Runtime, key: string, now: Time)
    requires F.Fits(p) && Textual(p) && InValidity(now) && Beating(states, F.ContentionDeviceId(p, requested), now)
    ensures Contends(OneWallet(F.ContentionIndex(p, requested), 1000), EnvWith(p, states), SeededTables(p).qrs,
                     RfRequest(p, requested, runtime, key), now)
  {
    var env, qrs := EnvWith(p, states), SeededTables(p).qrs;
    var call := RfRequest(p, requested, runtime, key);
    var index := F.ContentionIndex(p, requested);
    F.ContentionFixtureMatches(p, requested);
    DevicePasses(p, states, qrs, call, now);
    var t := ArriveAt(Resolve, env, qrs, call, now).value;
    var t' := t.(program := call.body.program.value);
    Passed(Resolve, env, qrs, call, now, t, t');
    ProgramPasses(p, states, qrs, call, now, t');
    RfCardIsUsable(p, states, qrs, call, now, index, t'.(price := 1000));
  }

  /** A request of the card workload passes every guard and is charged 1000. */
  lemma CardRequestSucceeds(p: F.Profile, states: map<int, DeviceState>, vu: int, iter: int, runtime: Runtime, key: string,
                            qrs: map<Digest, QrCode>, wallets: map<int, Wallet>, now: Time)
    requires F.Fits(p) && vu >= 1 && iter >= 0 && Beating(states, F.PaymentDeviceIdFor(p, vu, iter), now)
    ensures var call := CardRequest(p, vu, iter, runtime, key);
            var verdict := Verdict(EnvWith(p, states), qrs, call, now);
            && verdict.Success?
            && Judge(qrs, wallets, call, now, verdict.value) == Outcome(Succeeded, None, 1000, None, None)
  {
    var env := EnvWith(p, states);
    var call := CardRequest(p, vu, iter, runtime, key);
    F.CardFixtureMatches(p, vu, iter);
    DevicePasses(p, states, qrs, call, now);
    var t := ArriveAt(Resolve, env, qrs, call, now).value;
    var t' := t.(program := call.body.program.value);
    Passed(Resolve, env, qrs, call, now, t, t');
    ProgramPasses(p, states, qrs, call, now, t');
  }

  // ---- the thresholds of the contention workloads

  /** The conditions under which a contention workload runs: the fixture device keeps beating. */
  ghost predicate Underway(p: F.Profile, states: map<int, DeviceState>, requested: int, events: seq<Event>)
    requires F.Fits(p)
  {
    && Constantly(EnvWith(p, states), events) && NoFaults(events)
    && forall k | 0 <= k < |events| :: InValidity(events[k].now) && Beating(states, F.ContentionDeviceId(p, requested), events[k].now)
  }

  lemma SeededPricesAdmitted(p: F.Profile, states: map<int, DeviceState>)
    requires F.Fits(p)
    ensures PricesAdmitted(EnvWith(p, states))
  {
  }

  /** A run of the requests from the fresh seed. */
  ghost function SeededRun(p: F.Profile, calls: seq<Call>, events: seq<Event>): State
    requires F.Fits(p)
  {
    Run(Start(SeededTables(p), SeededSequence(p), calls), events)
  }

  /** What the seed offers at one index: one use of the code, one payment's worth in the wallet. */
  lemma OneIsOffered(p: F.Profile, index: nat)
    requires F.Fits(p) && 1 <= index <= F.FixtureCount(p)
    ensures Offered(OneQr(Digest(Token(index))), SeededTables(p)) && Capacity(OneQr(Digest(Token(index))), SeededTables(p)) == 1
    ensures Offered(OneWallet(index, 1000), SeededTables(p)) && Capacity(OneWallet(index, 1000), SeededTables(p)) == 1
  {
    QrLookup(p, F.FixtureCount(p), index);
    assert SeededTables(p).wallets[index].balance == 1000;
  }

  lemma QrRound(p: F.Profile, states: map<int, DeviceState>, requested: int, calls: seq<Call>, events: seq<Event>)
    requires F.Fits(p) && Distinct(SeededTables(p), calls) && Underway(p, states, requested, events)
    requires forall i | 0 <= i < |calls| :: calls[i] == QrRequest(p, requested, calls[i].runtime, calls[i].key)
    ensures Round(OneQr(Digest(Token(F.ContentionIndex(p, requested)))), EnvWith(p, states), SeededTables(p), calls, events)
  {
    OneIsOffered(p, F.ContentionIndex(p, requested));
    forall i, k | 0 <= i < |calls| && 0 <= k < |events|
      ensures Contends(OneQr(Digest(Token(F.ContentionIndex(p, requested)))), EnvWith(p, states), SeededTables(p).qrs, calls[i], events[k].now)
    {
      QrRequestContends(p, states, requested, calls[i].runtime, calls[i].key, events[k].now);
    }
  }

  lemma RfRound(p: F.Profile, states: map<int, DeviceState>, requested: int, calls: seq<Call>, events: seq<Event>)
    requires F.Fits(p) && Textual(p) && Distinct(SeededTables(p), calls) && Underway(p, states, requested, events)
    requires forall i | 0 <= i < |calls| :: calls[i] == RfRequest(p, requested, calls[i].runtime, calls[i].key)
    ensures Round(OneWallet(F.ContentionIndex(p, requested), 1000), EnvWith(p, states), SeededTables(p), calls, events)
  {
    OneIsOffered(p, F.ContentionIndex(p, requested));
    forall i, k | 0 <= i < |calls| && 0 <= k < |events|
      ensures Contends(OneWallet(F.ContentionIndex(p, requested), 1000), EnvWith(p, states), SeededTables(p).qrs, calls[i], events[k].now)
    {
      RfRequestContends(p, states, requested, calls[i].runtime, calls[i].key, events[k].now);
    }
  }

  /** From the fresh seed, in every complete schedule, exactly one of the competing QR requests succeeds and every other
      one is answered QR_INVALID, whichever runtime serves each.  */
  lemma QrContentionHasOneWinner(p: F.Profile, states: map<int, DeviceState>, requested: int, calls: seq<Call>, events: seq<Event>)
    requires F.Fits(p) && Textual(p) && calls != []
    requires forall i | 0 <= i < |calls| :: calls[i] == QrRequest(p, requested, calls[i].runtime, calls[i].key)
    requires Distinct(SeededTables(p), calls) && Underway(p, states, requested, events)
    requires AllEnded(SeededRun(p, calls, events))
    ensures OneWinner(OneQr(Digest(Token(F.ContentionIndex(p, requested)))), SeededRun(p, calls, events).txns)
  {
    SeedIsReady(p);
    SeededPricesAdmitted(p, states);
    OneIsOffered(p, F.ContentionIndex(p, requested));
    QrRound(p, states, requested, calls, events);
    LastOneWins(OneQr(Digest(Token(F.ContentionIndex(p, requested)))), EnvWith(p, states), SeededTables(p), SeededSequence(p), calls, events);
  }

  /** The same for the RF wallets: one success, every other one RF_INSUFFICIENT_BALANCE, and the wallet is debited once. */
  lemma RfContentionHasOneWinner(p: F.Profile, states: map<int, DeviceState>, requested: int, calls: seq<Call>, events: seq<Event>)
    requires F.Fits(p) && Textual(p) && calls != []
    requires forall i | 0 <= i < |calls| :: calls[i] == RfRequest(p, requested, calls[i].runtime, calls[i].key)
    requires Distinct(SeededTables(p), calls) && Underway(p, states, requested, events)
    requires AllEnded(SeededRun(p, calls, events))
    ensures OneWinner(OneWallet(F.ContentionIndex(p, requested), 1000), SeededRun(p, calls, events).txns)
    ensures var wallets, card := SeededRun(p, calls, events).tables.wallets, F.ContentionIndex(p, requested);
            card in wallets && wallets[card].balance == 0 && wallets[card].version == 1
  {
    SeedIsReady(p);
    SeededPricesAdmitted(p, states);
    OneIsOffered(p, F.ContentionIndex(p, requested));
    RfRound(p, states, requested, calls, events);
    LastOneWins(OneWallet(F.ContentionIndex(p, requested), 1000), EnvWith(p, states), SeededTables(p), SeededSequence(p), calls, events);
  }
}
