/** The texts behind tokens, uids and keys; equal texts come from equal numbers. */
module SeedTexts {
  import opened Schema
  import opened Checkout
  import opened Texts

  datatype Radix = Ten | Sixteen

  function Quotient(n: nat, radix: Radix): nat {
    if radix.Ten? then n / 10 else n / 16
  }

  function Remainder(n: nat, radix: Radix): nat {
    if radix.Ten? then n % 10 else n % 16
  }

  function Power(radix: Radix, width: nat): nat {
    if width == 0 then 1 else if radix.Ten? then 10 * Power(radix, width - 1) else 16 * Power(radix, width - 1)
  }

  /** The last `width` digits of `n`, with leading zeros. */
  function Padded(n: nat, radix: Radix, width: nat): (r: string)
    ensures |r| == width
    ensures forall k | 0 <= k < |r| :: '0' <= r[k] <= '9' || 'A' <= r[k] <= 'F'
  {
    if width == 0 then "" else Padded(Quotient(n, radix), radix, width - 1) + [Digit(Remainder(n, radix))]
  }

  lemma {:induction false} PaddedDiffers(m: nat, n: nat, radix: Radix, width: nat)
    requires m < Power(radix, width) && n < Power(radix, width)
    requires Padded(m, radix, width) == Padded(n, radix, width)
    ensures m == n
  {
    if width > 0 {
      var s, t := Padded(m, radix, width), Padded(n, radix, width);
      assert s[..width - 1] == Padded(Quotient(m, radix), radix, width - 1);
      assert t[..width - 1] == Padded(Quotient(n, radix), radix, width - 1);
      assert s[width - 1] == Digit(Remainder(m, radix)) && t[width - 1] == Digit(Remainder(n, radix));
      DigitsDiffer(Remainder(m, radix), Remainder(n, radix));
      PaddedDiffers(Quotient(m, radix), Quotient(n, radix), radix, width - 1);
    }
  }

  const UID_PREFIX := "AABBCCDD"
  const TOKEN_PREFIX := "qr-token-"
  const KEY_PREFIX := "idem-"

  function Uid(g: nat): string {
    UID_PREFIX + Padded(g, Sixteen, 8)
  }

  function Token(g: nat): string {
    TOKEN_PREFIX + Decimal(g)
  }

  function SeededKey(g: nat): string {
    KEY_PREFIX + Padded(g, Ten, 12)
  }

  lemma SuffixOf(prefix: string, s: string, t: string)
    requires prefix + s == prefix + t
    ensures s == t
  {
    assert (prefix + s)[|prefix|..] == s && (prefix + t)[|prefix|..] == t;
  }

  lemma UidsDiffer(m: nat, n: nat)
    requires m < Power(Sixteen, 8) && n < Power(Sixteen, 8) && Uid(m) == Uid(n)
    ensures m == n
  {
    SuffixOf(UID_PREFIX, Padded(m, Sixteen, 8), Padded(n, Sixteen, 8));
    PaddedDiffers(m, n, Sixteen, 8);
  }

  lemma TokensDiffer(m: nat, n: nat)
    requires Token(m) == Token(n)
    ensures m == n
  {
    SuffixOf(TOKEN_PREFIX, Decimal(m), Decimal(n));
    DecimalDiffers(m, n);
  }

  lemma KeysDiffer(m: nat, n: nat)
    requires m < Power(Ten, 12) && n < Power(Ten, 12) && SeededKey(m) == SeededKey(n)
    ensures m == n
  {
    SuffixOf(KEY_PREFIX, Padded(m, Ten, 12), Padded(n, Ten, 12));
    PaddedDiffers(m, n, Ten, 12);
  }

  /** A seeded uid is already in the form the handlers normalise to. */
  lemma UidIsNormal(g: nat)
    ensures NormalizeUid(Uid(g)) == Some(Uid(g))
  {
    HexDigitsFixed(Uid(g));
  }
}

/** The rows the seed inserts, each a function of its index. */
module SeededDatabase {
  import opened Texts
  import opened Schema
  import opened Checkout
  import opened PaymentMachine
  import opened SeedTexts
  import F = SeedFormulas

  const SEEDED_AT: Time := 1_788_134_400 * SECOND      // 2026-08-31 00:00:00+00
  const VALID_UNTIL: Time := 1_830_297_599 * SECOND    // 2027-12-31 23:59:59+00

  /** Index texts stay within their padding. */
  predicate Textual(p: F.Profile) {
    p.payments < Power(Ten, 12) && F.FixtureCount(p) < Power(Sixteen, 8)
  }

  // ---- tables a payment writes

  function QrRowOf(p: F.Profile, g: int): QrCode
    requires F.Fits(p)
  {
    var station := F.StationOf(p, g);
    QrCode(g, F.CompanyOfStation(p, station), station, F.EntitledProgram(p, station), 1500, 1, 0, QrActive, SEEDED_AT, VALID_UNTIL)
  }

  function SeededQrs(p: F.Profile, n: nat): map<Digest, QrCode>
    requires F.Fits(p)
  {
    if n == 0 then map[] else SeededQrs(p, n - 1)[Digest(Token(n)) := QrRowOf(p, n)]
  }

  function SeededWallets(p: F.Profile): map<int, Wallet> {
    map g | 1 <= g <= F.FixtureCount(p) :: Wallet(g, 1000, 0, SEEDED_AT)
  }

  function SeededPayment(p: F.Profile, g: nat): Payment
    requires F.Fits(p)
  {
    var at := SEEDED_AT + (g % 86400) * SECOND;
    Payment(
      F.DeviceOfPayment(p, g), F.StationOf(p, g), SeededKey(g), SeededDigest("request-" + Decimal(g)),
      if g % 3 == 0 then Card else if g % 3 == 1 then Qr else RfCard,
      1000 + (g % 20) * 100,
      if g % 20 == 0 then Failed else Succeeded,
      None, F.ProgramOfPayment(p, g), None, None, at, Some(at + SECOND / 4))
  }

  function SeededTables(p: F.Profile): Tables
    requires F.Fits(p)
  {
    Tables(
      SeededQrs(p, F.FixtureCount(p)),
      SeededWallets(p),
      map g | 1 <= g <= p.payments :: SeededPayment(p, g),
      [])
  }

  /** After setval, the next id the sequence gives. */
  function SeededSequence(p: F.Profile): int {
    F.Max(p.payments, 1) + 1
  }

  lemma {:induction false} QrLookup(p: F.Profile, n: nat, g: nat)
    requires F.Fits(p) && 1 <= g <= n
    ensures Digest(Token(g)) in SeededQrs(p, n) && SeededQrs(p, n)[Digest(Token(g))] == QrRowOf(p, g)
  {
    if g < n {
      QrLookup(p, n - 1, g);
      if Token(g) == Token(n) {
        TokensDiffer(g, n);
      }
    }
  }

  lemma {:induction false} QrOrigin(p: F.Profile, n: nat, h: Digest) returns (g: nat)
    requires F.Fits(p) && h in SeededQrs(p, n)
    ensures 1 <= g <= n && h == Digest(Token(g)) && SeededQrs(p, n)[h] == QrRowOf(p, g)
  {
    if h == Digest(Token(n)) {
      g := n;
    } else {
      g := QrOrigin(p, n - 1, h);
    }
  }

  /** The seeded rows satisfy every constraint of the schema, and the sequence is past them. */
  lemma SeedIsReady(p: F.Profile)
    requires F.Fits(p) && Textual(p)
    ensures Ready(SeededTables(p), SeededSequence(p))
  {
    var t := SeededTables(p);
    var n := F.FixtureCount(p);
    forall h | h in t.qrs
      ensures QrRowOk(t.qrs[h])
    {
      var g := QrOrigin(p, n, h);
    }
    forall h, h' | h in t.qrs && h' in t.qrs && t.qrs[h].id == t.qrs[h'].id
      ensures h == h'
    {
      var g := QrOrigin(p, n, h);
      var g' := QrOrigin(p, n, h');
    }
    forall a, b | a in t.payments && b in t.payments && SameKey(t.payments[a], t.payments[b].device, t.payments[b].key)
      ensures a == b
    {
      KeysDiffer(a, b);
    }
  }

  // ---- tables a payment reads

  const METHODS := {Card, Qr, RfCard}

  function CardRowOf(p: F.Profile, g: int): RfCardRow
    requires F.Fits(p)
  {
    RfCardRow(g, F.CompanyOfCard(p, g), true, Some(VALID_UNTIL))
  }

  function SeededCards(p: F.Profile, n: nat): map<Digest, RfCardRow>
    requires F.Fits(p)
  {
    if n == 0 then map[] else SeededCards(p, n - 1)[Digest(Uid(n)) := CardRowOf(p, n)]
  }

  lemma {:induction false} CardLookup(p: F.Profile, n: nat, g: nat)
    requires F.Fits(p) && 1 <= g <= n < Power(Sixteen, 8)
    ensures Digest(Uid(g)) in SeededCards(p, n) && SeededCards(p, n)[Digest(Uid(g))] == CardRowOf(p, g)
  {
    if g < n {
      CardLookup(p, n - 1, g);
      if Uid(g) == Uid(n) {
        UidsDiffer(g, n);
      }
    }
  }

  function ExecutionCount(p: F.Profile): int {
    if F.CommandCount(p) < p.payments then F.CommandCount(p) else p.payments
  }

  function SeededExecution(p: F.Profile, g: int): Execution
    requires F.Fits(p)
  {
    var device := F.DeviceOfPayment(p, g);
    Execution(device, Some(device), Created, SEEDED_AT + (g % 3600) * SECOND, None, None)
  }

  function SeededExecutions(p: F.Profile): map<int, Execution>
    requires F.Fits(p)
  {
    map g | 1 <= g <= ExecutionCount(p) :: SeededExecution(p, g)
  }

  function SeededStates(p: F.Profile): map<int, DeviceState> {
    map g | 1 <= g <= p.devices :: DeviceState(Some(SEEDED_AT + (g % 60) * SECOND), Some(1))
  }

  function BayOf(device: int): int {
    device
  }

  function PublishedVersion(device: int): int {
    1
  }

  function SeededEnv(p: F.Profile): Env
    requires F.Fits(p)
  {
    Env(
      map g | 1 <= g <= p.stations :: F.CompanyOfStation(p, g),
      SeededStates(p),
      map g | 1 <= g <= p.devices :: BayOf(g),
      [],
      map g | 1 <= g <= p.devices :: PublishedVersion(g),
      SeededExecutions(p),
      map g | 1 <= g <= p.companies * 3 :: Program(F.CompanyOfProgram(g), F.PriceOfProgram(g), true),
      set g | 1 <= g <= p.devices :: (g, F.EntitledProgram(p, F.StationOf(p, g))),
      set g, m | 1 <= g <= p.companies * 3 && m in METHODS :: (g, m),
      SeededCards(p, F.FixtureCount(p)))
  }
}
