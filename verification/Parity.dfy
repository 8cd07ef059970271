/** Where the two implementations agree, and exactly where they do not. */
module Parity {
  import opened Schema
  import opened Json
  import opened Checkout

  function On(runtime: Runtime, call: Call): Call {
    call.(runtime := runtime)
  }

  /** A QR request without a token that reaches the lookup of its code: Python hashes the empty string, Go refuses. */
  ghost predicate MissingToken(env: Env, t: Tables, call: Call, now: Time) {
    call.body.paymentMethod.Qr? && call.body.qrToken.None?
    && ArriveAt(Resolve, env, t.qrs, On(Go, call), now).Success?
  }

  /** A card or RF card request for a free program that shows no price: Python reads it as 0, Go refuses. */
  ghost predicate FreeWithoutPrice(env: Env, t: Tables, call: Call, now: Time) {
    && (call.body.paymentMethod.Card? || call.body.paymentMethod.RfCard?)
    && call.body.displayedPrice.None?
    && ArriveAt(Price, env, t.qrs, On(Go, call), now).Success?
    && ArriveAt(Price, env, t.qrs, On(Go, call), now).value.price == 0
  }

  lemma SameCheck(g: Guard, env: Env, qrs: map<Digest, QrCode>, call: Call, now: Time, t: Terms)
    requires Rank(g) < Rank(Price)
    requires g != Resolve || !(call.body.paymentMethod.Qr? && call.body.qrToken.None?)
    ensures Check(g, env, qrs, On(Python, call), now, t) == Check(g, env, qrs, On(Go, call), now, t)
  {
  }

  lemma {:induction false} SameArrival(g: Guard, env: Env, qrs: map<Digest, QrCode>, call: Call, now: Time)
    requires g != Instrument
    requires Rank(g) <= Rank(Resolve) || !(call.body.paymentMethod.Qr? && call.body.qrToken.None?)
    ensures ArriveAt(g, env, qrs, On(Python, call), now) == ArriveAt(g, env, qrs, On(Go, call), now)
    decreases Rank(g)
  {
    if g != Operational {
      var before := Before(g);
      SameArrival(before, env, qrs, call, now);
      var arrival := ArriveAt(before, env, qrs, On(Go, call), now);
      if arrival.Success? {
        SameCheck(before, env, qrs, call, now, arrival.value);
      }
    }
  }

  lemma CheckNeedsNoToken(g: Guard, env: Env, qrs: map<Digest, QrCode>, call: Call, now: Time, t: Terms)
    requires call.runtime == Python
    ensures Check(g, env, qrs, call, now, t) != Failure(QrTokenRequired)
  {
  }

  lemma {:induction false} PythonNeedsNoToken(g: Guard, env: Env, qrs: map<Digest, QrCode>, call: Call, now: Time)
    requires call.runtime == Python
    ensures ArriveAt(g, env, qrs, call, now) != Failure(QrTokenRequired)
    decreases Rank(g)
  {
    if g != Operational {
      var before := Before(g);
      PythonNeedsNoToken(before, env, qrs, call, now);
      var arrival := ArriveAt(before, env, qrs, call, now);
      if arrival.Success? {
        CheckNeedsNoToken(before, env, qrs, call, now, arrival.value);
      }
    }
  }

  lemma SameOutcome(t: Tables, call: Call, now: Time, terms: Terms)
    ensures Judge(t.qrs, t.wallets, On(Python, call), now, terms) == Judge(t.qrs, t.wallets, call, now, terms)
    ensures Judge(t.qrs, t.wallets, On(Go, call), now, terms) == Judge(t.qrs, t.wallets, call, now, terms)
  {
  }

  lemma SameChecks(call: Call, now: Time, id: int, terms: Terms, o: Outcome)
    ensures ChecksHold(id, On(Python, call), now, terms, o) == ChecksHold(id, On(Go, call), now, terms, o)
  {
    ChecksHoldExactly(id, On(Python, call), now, terms, o);
    ChecksHoldExactly(id, On(Go, call), now, terms, o);
  }

  lemma SamePaymentRow(call: Call, now: Time, terms: Terms, o: Outcome)
    ensures PaymentRow(On(Python, call), now, terms, o) == PaymentRow(On(Go, call), now, terms, o) <==> Plain(call.body)
  {
    SameHash(call);
  }

  lemma SameArtefacts(call: Call, now: Time, id: int, terms: Terms, o: Outcome)
    ensures Artefacts(id, On(Python, call), now, terms, o) == Artefacts(id, On(Go, call), now, terms, o)
  {
  }

  lemma SameHash(call: Call)
    ensures BodyHash(On(Python, call)) == BodyHash(On(Go, call)) <==> Plain(call.body)
  {
    SameTextExactly(Python, call.body, Go, call.body);
  }

  /** The rows are the same but for the digest of the request. */
  lemma SettledAlike(t: Tables, call: Call, now: Time, id: int, terms: Terms)
    ensures Settle(t, On(Python, call), now, id, terms) == Settle(t, On(Go, call), now, id, terms) <==> Plain(call.body)
  {
    var py, go := Settle(t, On(Python, call), now, id, terms), Settle(t, On(Go, call), now, id, terms);
    SameOutcome(t, call, now, terms);
    var o := Judge(t.qrs, t.wallets, call, now, terms);
    SamePaymentRow(call, now, terms, o);
    assert py.payments[id] == PaymentRow(On(Python, call), now, terms, o) && go.payments[id] == PaymentRow(On(Go, call), now, terms, o);
    assert py.payments == t.payments[id := py.payments[id]] && go.payments == t.payments[id := go.payments[id]];
    SameArtefacts(call, now, id, terms, o);
  }

  lemma SameVerdict(env: Env, t: Tables, call: Call, now: Time)
    requires !MissingToken(env, t, call, now) && !FreeWithoutPrice(env, t, call, now)
    ensures Verdict(env, t.qrs, On(Python, call), now) == Verdict(env, t.qrs, On(Go, call), now)
  {
    if call.body.paymentMethod.Qr? && call.body.qrToken.None? {
      SameArrival(Resolve, env, t.qrs, call, now);
      var e := ArriveAt(Resolve, env, t.qrs, On(Go, call), now).error;
      FailureIsFinal(Resolve, env, t.qrs, On(Go, call), now, e);
      FailureIsFinal(Resolve, env, t.qrs, On(Python, call), now, e);
    } else {
      SameLateArrival(env, t, call, now);
    }
  }

  lemma SamePrice(env: Env, t: Tables, call: Call, now: Time, terms: Terms)
    requires ArriveAt(Price, env, t.qrs, On(Go, call), now) == Success(terms) && !FreeWithoutPrice(env, t, call, now)
    ensures Check(Price, env, t.qrs, On(Python, call), now, terms) == Check(Price, env, t.qrs, On(Go, call), now, terms)
  {
  }

  lemma AfterPrice(env: Env, qrs: map<Digest, QrCode>, call: Call, now: Time)
    ensures var arrival := ArriveAt(Price, env, qrs, call, now);
            ArriveAt(Instrument, env, qrs, call, now) ==
            if arrival.Failure? then arrival else Check(Price, env, qrs, call, now, arrival.value)
  {
  }

  lemma SameLateArrival(env: Env, t: Tables, call: Call, now: Time)
    requires !(call.body.paymentMethod.Qr? && call.body.qrToken.None?) && !FreeWithoutPrice(env, t, call, now)
    ensures ArriveAt(Instrument, env, t.qrs, On(Python, call), now) == ArriveAt(Instrument, env, t.qrs, On(Go, call), now)
  {
    SameArrival(Price, env, t.qrs, call, now);
    if ArriveAt(Price, env, t.qrs, On(Go, call), now).Success? {
      SamePrice(env, t, call, now, ArriveAt(Price, env, t.qrs, On(Go, call), now).value);
    }
    AfterPrice(env, t.qrs, On(Python, call), now);
    AfterPrice(env, t.qrs, On(Go, call), now);
  }

  lemma MissingTokenDiverges(env: Env, t: Tables, call: Call, now: Time)
    requires MissingToken(env, t, call, now)
    ensures Verdict(env, t.qrs, On(Go, call), now) == Failure(QrTokenRequired)
    ensures Verdict(env, t.qrs, On(Python, call), now) != Failure(QrTokenRequired)
  {
    var terms := ArriveAt(Resolve, env, t.qrs, On(Go, call), now).value;
    RefusalIsFinal(Resolve, env, t.qrs, On(Go, call), now, terms, QrTokenRequired);
    PythonNeedsNoToken(Instrument, env, t.qrs, On(Python, call), now);
    var last := ArriveAt(Instrument, env, t.qrs, On(Python, call), now);
    if last.Success? {
      CheckNeedsNoToken(Instrument, env, t.qrs, On(Python, call), now, last.value);
    }
  }

  lemma FreeWithoutPriceDiverges(env: Env, t: Tables, call: Call, now: Time)
    requires FreeWithoutPrice(env, t, call, now)
    ensures Verdict(env, t.qrs, On(Go, call), now) == Failure(ProgramPriceChanged)
    ensures Verdict(env, t.qrs, On(Python, call), now) != Failure(ProgramPriceChanged)
  {
    var terms := ArriveAt(Price, env, t.qrs, On(Go, call), now).value;
    RefusalIsFinal(Price, env, t.qrs, On(Go, call), now, terms, ProgramPriceChanged);
    SameArrival(Price, env, t.qrs, call, now);
    assert ArriveAt(Instrument, env, t.qrs, On(Python, call), now) == Success(terms);
  }

  /** The request would be stored: it passes every guard and every CHECK. */
  ghost predicate Stores(env: Env, t: Tables, call: Call, now: Time, id: int) {
    && Verdict(env, t.qrs, call, now).Success?
    && var terms := Verdict(env, t.qrs, call, now).value;
    ChecksHold(id, call, now, terms, Judge(t.qrs, t.wallets, call, now, terms))
  }

  /** The key's stored payment came from this very body, served by either runtime. */
  ghost predicate StoredFromThisBody(t: Tables, call: Call)
    requires KeyTaken(t.payments, call)
  {
    var stored := t.payments[Existing(t.payments, call)].requestHash;
    stored == BodyHash(On(Python, call)) || stored == BodyHash(On(Go, call))
  }

  /** Python and Go give the same reply and leave the same tables, except exactly in four cases: under a new key, a
      missing token, a price not shown for a free program, or a payment stored for a body that the two serialise
      differently; under a taken key, such a body sent again.  */
  lemma RuntimesAgreeExactly(env: Env, t: Tables, call: Call, now: Time, id: int)
    requires KeysUnique(t.payments)
    ensures AtomicCreate(env, t, On(Python, call), now, id) == AtomicCreate(env, t, On(Go, call), now, id)
            <==>
            if KeyTaken(t.payments, call) then Plain(call.body) || !StoredFromThisBody(t, call)
            else !MissingToken(env, t, call, now) && !FreeWithoutPrice(env, t, call, now)
                 && (Plain(call.body) || !Stores(env, t, On(Go, call), now, id))
  {
    if KeyTaken(t.payments, call) {
      AgreeOnTakenKey(env, t, call, now, id);
    } else {
      AgreeOnNewKey(env, t, call, now, id);
    }
  }

  lemma AgreeOnTakenKey(env: Env, t: Tables, call: Call, now: Time, id: int)
    requires KeysUnique(t.payments) && KeyTaken(t.payments, call)
    ensures AtomicCreate(env, t, On(Python, call), now, id) == AtomicCreate(env, t, On(Go, call), now, id)
            <==> Plain(call.body) || !StoredFromThisBody(t, call)
  {
    var py, go := On(Python, call), On(Go, call);
    var p := Existing(t.payments, call);
    assert KeyTaken(t.payments, py) && KeyTaken(t.payments, go);
    assert Existing(t.payments, py) == p && Existing(t.payments, go) == p;
    SameHash(call);
  }

  lemma AgreeOnNewKey(env: Env, t: Tables, call: Call, now: Time, id: int)
    requires !KeyTaken(t.payments, call)
    ensures AtomicCreate(env, t, On(Python, call), now, id) == AtomicCreate(env, t, On(Go, call), now, id)
            <==> !MissingToken(env, t, call, now) && !FreeWithoutPrice(env, t, call, now)
                 && (Plain(call.body) || !Stores(env, t, On(Go, call), now, id))
  {
    assert !KeyTaken(t.payments, On(Python, call)) && !KeyTaken(t.payments, On(Go, call));
    if MissingToken(env, t, call, now) {
      MissingTokenDiverges(env, t, call, now);
    } else if FreeWithoutPrice(env, t, call, now) {
      FreeWithoutPriceDiverges(env, t, call, now);
    } else {
      SameVerdict(env, t, call, now);
      if Verdict(env, t.qrs, On(Go, call), now).Success? {
        AgreeOnTerms(env, t, call, now, id, Verdict(env, t.qrs, On(Go, call), now).value);
      }
    }
  }

  lemma AgreeOnTerms(env: Env, t: Tables, call: Call, now: Time, id: int, terms: Terms)
    requires !KeyTaken(t.payments, On(Python, call)) && !KeyTaken(t.payments, On(Go, call))
    requires Verdict(env, t.qrs, On(Python, call), now) == Success(terms) && Verdict(env, t.qrs, On(Go, call), now) == Success(terms)
    ensures AtomicCreate(env, t, On(Python, call), now, id) == AtomicCreate(env, t, On(Go, call), now, id)
            <==> Plain(call.body) || !Stores(env, t, On(Go, call), now, id)
  {
    SameOutcome(t, call, now, terms);
    SameChecks(call, now, id, terms, Judge(t.qrs, t.wallets, call, now, terms));
    SettledAlike(t, call, now, id, terms);
  }

  lemma SameReply(t: Tables, call: Call, now: Time, id: int, terms: Terms)
    ensures Payload(Settle(t, On(Python, call), now, id, terms), id) == Payload(Settle(t, On(Go, call), now, id, terms), id)
  {
    SameOutcome(t, call, now, terms);
    SameArtefacts(call, now, id, terms, Judge(t.qrs, t.wallets, call, now, terms));
  }

  /** What a runtime does with a request that would be stored. */
  lemma StoredReply(env: Env, t: Tables, call: Call, now: Time, id: int)
    requires !KeyTaken(t.payments, call) && Stores(env, t, call, now, id)
    ensures var t' := Settle(t, call, now, id, Verdict(env, t.qrs, call, now).value);
            AtomicCreate(env, t, call, now, id) == (t', Accepted(Payload(t', id)))
  {
  }

  /** A stored body that the two serialise differently: the same reply, but two different rows. */
  lemma OnlyTheDigestDiffers(env: Env, t: Tables, call: Call, now: Time, id: int)
    requires KeysUnique(t.payments) && !KeyTaken(t.payments, call) && !Plain(call.body)
    requires !MissingToken(env, t, call, now) && !FreeWithoutPrice(env, t, call, now) && Stores(env, t, On(Go, call), now, id)
    ensures AtomicCreate(env, t, On(Python, call), now, id).1 == AtomicCreate(env, t, On(Go, call), now, id).1
    ensures AtomicCreate(env, t, On(Python, call), now, id).0 != AtomicCreate(env, t, On(Go, call), now, id).0
  {
    SameVerdict(env, t, call, now);
    var terms := Verdict(env, t.qrs, On(Go, call), now).value;
    StoresOnBoth(env, t, call, now, id, terms);
    StoredReply(env, t, On(Python, call), now, id);
    StoredReply(env, t, On(Go, call), now, id);
    SettledAlike(t, call, now, id, terms);
    SameReply(t, call, now, id, terms);
  }

  lemma StoresOnBoth(env: Env, t: Tables, call: Call, now: Time, id: int, terms: Terms)
    requires Verdict(env, t.qrs, On(Python, call), now) == Success(terms) && Verdict(env, t.qrs, On(Go, call), now) == Success(terms)
    ensures Stores(env, t, On(Python, call), now, id) <==> Stores(env, t, On(Go, call), now, id)
  {
    SameOutcome(t, call, now, terms);
    SameChecks(call, now, id, terms, Judge(t.qrs, t.wallets, call, now, terms));
  }

  const AMPERSAND := Body(Some(1), Card, 1, Some(1000), Some("a&b"), None, Some("TEST_SUCCESS"))

  lemma AmpersandIsNotPlain()
    ensures !Plain(AMPERSAND)
  {
    assert "a&b"[1] == '&' && OnlyGoEscapes('&');
    assert !PlainText("a&b");
  }

  /** A card request with an ampersand in its unused token, wherever it is stored. */
  lemma AnAmpersandDiverges(env: Env, t: Tables, call: Call, now: Time, id: int)
    requires call.body == AMPERSAND
    requires KeysUnique(t.payments) && !KeyTaken(t.payments, call) && Stores(env, t, On(Go, call), now, id)
    ensures AtomicCreate(env, t, On(Python, call), now, id).1 == AtomicCreate(env, t, On(Go, call), now, id).1
    ensures AtomicCreate(env, t, On(Python, call), now, id).0 != AtomicCreate(env, t, On(Go, call), now, id).0
  {
    AmpersandIsNotPlain();
    OnlyTheDigestDiffers(env, t, call, now, id);
  }

  lemma PriceIsAProgramPrice(env: Env, qrs: map<Digest, QrCode>, call: Call, now: Time)
    requires ArriveAt(Price, env, qrs, call, now).Success?
    ensures exists p :: p in env.programs && env.programs[p].price == ArriveAt(Price, env, qrs, call, now).value.price
  {
    assert ArriveAt(MethodEnabled, env, qrs, call, now).Success?;
    var terms := ArriveAt(Entitlement, env, qrs, call, now).value;
    assert ArriveAt(ProgramRow, env, qrs, call, now).Success?;
    assert terms.program in env.programs && env.programs[terms.program].price == terms.price;
  }

  /** With a token on every QR request, positive prices and texts free of <, >, & and the two line separators, the two
      never differ.  */
  lemma RuntimesAgree(env: Env, t: Tables, call: Call, now: Time, id: int)
    requires KeysUnique(t.payments) && Plain(call.body)
    requires call.body.paymentMethod.Qr? ==> call.body.qrToken.Some?
    requires forall p | p in env.programs :: env.programs[p].price > 0
    ensures AtomicCreate(env, t, On(Python, call), now, id) == AtomicCreate(env, t, On(Go, call), now, id)
  {
    if ArriveAt(Price, env, t.qrs, On(Go, call), now).Success? {
      PriceIsAProgramPrice(env, t.qrs, On(Go, call), now);
    }
    RuntimesAgreeExactly(env, t, call, now, id);
  }

  /** The schema admits only three methods in program_payment_methods, so the last branch is never taken. */
  lemma NoUnsupportedMethod(env: Env, qrs: map<Digest, QrCode>, call: Call, now: Time)
    requires forall p, m | (p, m) in env.enabled :: !m.Other?
    ensures Verdict(env, qrs, call, now) != Failure(UnsupportedPaymentMethod)
  {
    if ArriveAt(Instrument, env, qrs, call, now).Success? {
      assert ArriveAt(Price, env, qrs, call, now).Success?;
      var terms := ArriveAt(MethodEnabled, env, qrs, call, now).value;
      assert (terms.program, call.body.paymentMethod) in env.enabled;
    }
    NeverUnsupportedBefore(Instrument, env, qrs, call, now);
  }

  lemma {:induction false} NeverUnsupportedBefore(g: Guard, env: Env, qrs: map<Digest, QrCode>, call: Call, now: Time)
    ensures ArriveAt(g, env, qrs, call, now) != Failure(UnsupportedPaymentMethod)
    decreases Rank(g)
  {
    if g != Operational {
      NeverUnsupportedBefore(Before(g), env, qrs, call, now);
    }
  }

  // ---- uids

  lemma {:induction false} HexDigitsAppend(a: string, b: string)
    ensures HexDigits(a + b) == HexDigits(a) + HexDigits(b)
  {
    if a == "" {
      assert a + b == b;
    } else {
      assert (a + b)[1..] == a[1..] + b;
      HexDigitsAppend(a[1..], b);
    }
  }

  lemma OneDigit(c: char)
    ensures HexDigits([c]) == if IsHex(c) then [Upper(c)] else ""
  {
    assert [c][1..] == "" && [c][0] == c;
  }

  /** Each hexadecimal digit is kept once, at the place given by the digits before it and in upper case; any other
      character vanishes.  */
  lemma DigitKept(value: string, i: nat)
    requires i < |value|
    ensures var before, c, after := HexDigits(value[..i]), value[i], HexDigits(value[i + 1..]);
            HexDigits(value) == before + (if IsHex(c) then [Upper(c)] else "") + after
    ensures IsHex(value[i]) ==> |HexDigits(value[..i])| < |HexDigits(value)|
                                && HexDigits(value)[|HexDigits(value[..i])|] == Upper(value[i])
  {
    assert value == value[..i] + [value[i]] + value[i + 1..];
    HexDigitsAppend(value[..i] + [value[i]], value[i + 1..]);
    HexDigitsAppend(value[..i], [value[i]]);
    OneDigit(value[i]);
  }

  /** A normalised uid is its own normal form, and separators between its digits are ignored. */
  lemma NormalFormIsStable(value: string, before: string, separator: string, after: string)
    requires value == before + after
    requires forall k | 0 <= k < |separator| :: !IsHex(separator[k])
    ensures NormalizeUid(before + separator + after) == NormalizeUid(value)
    ensures NormalizeUid(value).Some? ==> NormalizeUid(NormalizeUid(value).value) == NormalizeUid(value)
  {
    NoHexDigits(separator);
    HexDigitsAppend(before, separator);
    HexDigitsAppend(before + separator, after);
    HexDigitsAppend(before, after);
    assert HexDigits(before) + "" == HexDigits(before);
    HexDigitsFixed(HexDigits(value));
  }

  lemma {:induction false} NoHexDigits(separator: string)
    requires forall k | 0 <= k < |separator| :: !IsHex(separator[k])
    ensures HexDigits(separator) == ""
  {
    if separator != "" {
      NoHexDigits(separator[1..]);
    }
  }
}
