/** The one request a constraint aborts: an RF card debit for a free program. */
module Aborts {
  import opened Schema
  import opened Json
  import opened Checkout
  import opened PaymentRows

  /** What the guards of an accepted RF card request have read. */
  lemma RfTerms(env: Env, qrs: map<Digest, QrCode>, call: Call, now: Time)
    requires call.body.paymentMethod.RfCard? && Verdict(env, qrs, call, now).Success?
    ensures var terms, uid := Verdict(env, qrs, call, now).value, NormalizeUid(call.body.rfUid.GetOr(""));
            && call.body.program == Some(terms.program) && terms.program in env.programs
            && terms.price == env.programs[terms.program].price
            && call.device.station in env.stations && terms.company == env.stations[call.device.station]
            && uid.Some? && terms.card == UsableCard(env.cards, uid.value, terms.company, now)
  {
    var t4 := ArriveAt(Price, env, qrs, call, now);
    var t3 := ArriveAt(MethodEnabled, env, qrs, call, now);
    var t2 := ArriveAt(Entitlement, env, qrs, call, now);
    var t1 := ArriveAt(ProgramRow, env, qrs, call, now);
    var t0 := ArriveAt(Resolve, env, qrs, call, now);
    assert t0.Success? && t1.Success? && t2.Success? && t3.Success? && t4.Success?;
    EarlyTerms(env, qrs, call, now);
  }

  lemma EarlyTerms(env: Env, qrs: map<Digest, QrCode>, call: Call, now: Time)
    requires ArriveAt(Resolve, env, qrs, call, now).Success?
    ensures call.device.station in env.stations
    ensures ArriveAt(Resolve, env, qrs, call, now).value.company == env.stations[call.device.station]
  {
    var t6 := ArriveAt(BayBusy, env, qrs, call, now);
    var t5 := ArriveAt(Configuration, env, qrs, call, now);
    var t4 := ArriveAt(Maintenance, env, qrs, call, now);
    var t3 := ArriveAt(BayRow, env, qrs, call, now);
    var t2 := ArriveAt(StateRow, env, qrs, call, now);
    var t1 := ArriveAt(StationRow, env, qrs, call, now);
    assert t6.Success? && t5.Success? && t4.Success? && t3.Success? && t2.Success? && t1.Success?;
  }

  /** An RF card request that passes the guards, for a program whose price is 0, with a usable card that has a wallet. */
  ghost predicate FreeRfDebit(env: Env, t: Tables, call: Call, now: Time) {
    && call.body.paymentMethod.RfCard?
    && Verdict(env, t.qrs, call, now).Success?
    && call.body.program.Some? && call.body.program.value in env.programs
    && env.programs[call.body.program.value].price == 0
    && call.device.station in env.stations
    && var uid := NormalizeUid(call.body.rfUid.GetOr(""));
    && uid.Some?
    && var card := UsableCard(env.cards, uid.value, env.stations[call.device.station], now);
    card.Some? && card.value in t.wallets
  }

  /** Run alone, a request is aborted exactly when its key is new and it is a free RF card debit; it then leaves the
      tables as they were.  */
  lemma AbortedAloneExactly(env: Env, t: Tables, call: Call, now: Time, id: int)
    requires TablesOk(t) && PricesAdmitted(env)
    ensures AtomicCreate(env, t, call, now, id).1.Aborted? <==> !KeyTaken(t.payments, call) && FreeRfDebit(env, t, call, now)
    ensures AtomicCreate(env, t, call, now, id).1.Aborted? ==> AtomicCreate(env, t, call, now, id).0 == t
  {
    if !KeyTaken(t.payments, call) && Verdict(env, t.qrs, call, now).Success? {
      var terms := Verdict(env, t.qrs, call, now).value;
      PriceIsRead(env, t.qrs, call, now);
      JudgedAmount(t.qrs, t.wallets, call, now, terms);
      ChecksHoldExactly(id, call, now, terms, Judge(t.qrs, t.wallets, call, now, terms));
      if call.body.paymentMethod.RfCard? {
        RfTerms(env, t.qrs, call, now);
        if terms.card.Some? && terms.card.value in t.wallets {
          assert WalletRowOk(t.wallets[terms.card.value]);
        }
      }
    }
  }

  lemma PriceIsRead(env: Env, qrs: map<Digest, QrCode>, call: Call, now: Time)
    requires PricesAdmitted(env) && Verdict(env, qrs, call, now).Success?
    ensures Verdict(env, qrs, call, now).value.price >= 0
  {
    var t4 := ArriveAt(Price, env, qrs, call, now);
    var t3 := ArriveAt(MethodEnabled, env, qrs, call, now);
    var t2 := ArriveAt(Entitlement, env, qrs, call, now);
    var t1 := ArriveAt(ProgramRow, env, qrs, call, now);
    assert t1.Success? && t2.Success? && t3.Success? && t4.Success?;
  }

  // ---- one such request

  const FREE_ENV := Env(
    map[1 := 1],
    map[1 := DeviceState(Some(0), Some(1))],
    map[1 := 1],
    [],
    map[1 := 1],
    map[],
    map[1 := Program(1, 0, true)],
    {(1, 1)},
    {(1, RfCard)},
    map[Digest("AABBCCDD") := RfCardRow(1, 1, true, None)])

  const FREE_TABLES := Tables(map[], map[1 := Wallet(1, 0, 0, 0)], map[], [])

  const FREE_CALL := Call(Python, Device(1, 1, true), "free-rf-1", Body(Some(1), RfCard, 1, None, None, Some("AABBCCDD"), None))

  lemma FreeChecks(t: Terms)
    ensures Check(Operational, FREE_ENV, map[], FREE_CALL, 0, t) == Success(t)
    ensures Check(StationRow, FREE_ENV, map[], FREE_CALL, 0, t) == Success(t.(company := 1))
    ensures Check(StateRow, FREE_ENV, map[], FREE_CALL, 0, t) == Success(t.(acknowledged := Some(1)))
    ensures Check(BayRow, FREE_ENV, map[], FREE_CALL, 0, t) == Success(t.(bay := 1))
    ensures Check(Maintenance, FREE_ENV, map[], FREE_CALL, 0, t) == Success(t)
    ensures t.acknowledged == Some(1) ==> Check(Configuration, FREE_ENV, map[], FREE_CALL, 0, t) == Success(t)
    ensures Check(BayBusy, FREE_ENV, map[], FREE_CALL, 0, t) == Success(t)
    ensures Check(Resolve, FREE_ENV, map[], FREE_CALL, 0, t) == Success(t.(program := 1))
  {
  }

  lemma FreeSaleChecks(t: Terms)
    requires t.company == 1 && t.program == 1
    ensures Check(ProgramRow, FREE_ENV, map[], FREE_CALL, 0, t) == Success(t.(price := 0))
    ensures Check(Entitlement, FREE_ENV, map[], FREE_CALL, 0, t) == Success(t)
    ensures Check(MethodEnabled, FREE_ENV, map[], FREE_CALL, 0, t) == Success(t)
    ensures t.price == 0 ==> Check(Price, FREE_ENV, map[], FREE_CALL, 0, t) == Success(t)
  {
  }

  lemma FreeArrives()
    ensures ArriveAt(Resolve, FREE_ENV, map[], FREE_CALL, 0) == Success(Terms(1, Some(1), 1, 0, 0, None))
  {
    var t1 := NO_TERMS.(company := 1);
    var t2 := t1.(acknowledged := Some(1));
    var t3 := t2.(bay := 1);
    FreeChecks(NO_TERMS);
    FreeChecks(t1);
    FreeChecks(t2);
    FreeChecks(t3);
    Passed(Operational, FREE_ENV, map[], FREE_CALL, 0, NO_TERMS, NO_TERMS);
    Passed(StationRow, FREE_ENV, map[], FREE_CALL, 0, NO_TERMS, t1);
    Passed(StateRow, FREE_ENV, map[], FREE_CALL, 0, t1, t2);
    Passed(BayRow, FREE_ENV, map[], FREE_CALL, 0, t2, t3);
    Passed(Maintenance, FREE_ENV, map[], FREE_CALL, 0, t3, t3);
    Passed(Configuration, FREE_ENV, map[], FREE_CALL, 0, t3, t3);
    Passed(BayBusy, FREE_ENV, map[], FREE_CALL, 0, t3, t3);
  }

  lemma FreeArrivesLast()
    ensures ArriveAt(Instrument, FREE_ENV, map[], FREE_CALL, 0) == Success(Terms(1, Some(1), 1, 1, 0, None))
  {
    FreeArrives();
    var t3 := Terms(1, Some(1), 1, 0, 0, None);
    var t4 := t3.(program := 1);
    FreeChecks(t3);
    FreeSaleChecks(t4);
    Passed(Resolve, FREE_ENV, map[], FREE_CALL, 0, t3, t4);
    Passed(ProgramRow, FREE_ENV, map[], FREE_CALL, 0, t4, t4);
    Passed(Entitlement, FREE_ENV, map[], FREE_CALL, 0, t4, t4);
    Passed(MethodEnabled, FREE_ENV, map[], FREE_CALL, 0, t4, t4);
    Passed(Price, FREE_ENV, map[], FREE_CALL, 0, t4, t4);
  }

  lemma FreeCard()
    ensures NormalizeUid("AABBCCDD") == Some("AABBCCDD")
    ensures UsableCard(FREE_ENV.cards, "AABBCCDD", 1, 0) == Some(1)
  {
    HexDigitsFixed("AABBCCDD");
  }

  lemma FreePasses()
    ensures Verdict(FREE_ENV, map[], FREE_CALL, 0) == Success(Terms(1, Some(1), 1, 1, 0, Some(1)))
  {
    FreeArrivesLast();
    FreeCard();
  }

  lemma FreeTablesOk()
    ensures TablesOk(FREE_TABLES) && PricesAdmitted(FREE_ENV) && FREE_TABLES.qrs == map[]
  {
  }

  lemma FreeIsFree()
    ensures FreeRfDebit(FREE_ENV, FREE_TABLES, FREE_CALL, 0)
  {
    FreePasses();
    FreeCard();
  }

  /** A database the schema admits, and a request that it aborts. */
  lemma AFreeRfPaymentIsAborted()
    ensures TablesOk(FREE_TABLES) && PricesAdmitted(FREE_ENV)
    ensures AtomicCreate(FREE_ENV, FREE_TABLES, FREE_CALL, 0, 1) == (FREE_TABLES, Aborted)
  {
    FreeTablesOk();
    FreeIsFree();
    NobodyHasTheKey(FREE_TABLES, FREE_CALL);
    AbortedAloneExactly(FREE_ENV, FREE_TABLES, FREE_CALL, 0, 1);
  }

  lemma NobodyHasTheKey(t: Tables, call: Call)
    requires t.payments == map[]
    ensures !KeyTaken(t.payments, call)
  {
  }
}
