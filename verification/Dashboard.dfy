/** The financial part of the dashboard over a fixed table. */
module Dashboard {
  import opened Schema
  import opened Calendar
  import opened SeedTexts
  import opened Texts

  datatype Financial = Financial(transactions: int, succeeded: int, failed: int, pending: int, cancelled: int, gross: int)
  datatype MethodRow = MethodRow(paymentMethod: Method, total: int, succeeded: int, amount: int)
  datatype Answer = Answer(workspace: string, start: Civil, end: Civil, financial: Financial, methods: seq<MethodRow>)
  datatype Problem = BadPeriod(error: CalendarError) | CompanyNotFound

  /** The tables the overview reads. */
  datatype Source = Source(companies: set<int>, stations: map<int, int>, payments: seq<Payment>)

  function Total<T>(items: seq<T>, weight: T -> int): int {
    if items == [] then 0 else Total(items[..|items| - 1], weight) + weight(items[|items| - 1])
  }

  lemma {:induction false} TotalSplits<T>(items: seq<T>, whole: T -> int, left: T -> int, right: T -> int)
    requires forall k | 0 <= k < |items| :: whole(items[k]) == left(items[k]) + right(items[k])
    ensures Total(items, whole) == Total(items, left) + Total(items, right)
  {
    if items != [] {
      TotalSplits(items[..|items| - 1], whole, left, right);
    }
  }

  lemma {:induction false} TotalOfSame<T>(items: seq<T>, f: T -> int, g: T -> int)
    requires forall k | 0 <= k < |items| :: f(items[k]) == g(items[k])
    ensures Total(items, f) == Total(items, g)
  {
    if items != [] {
      TotalOfSame(items[..|items| - 1], f, g);
    }
  }

  /** The places whose item weighs 1, when every other item weighs 0. */
  lemma {:induction false} TotalIsCount<T>(items: seq<T>, weight: T -> int, places: set<int>)
    requires forall k :: k in places ==> 0 <= k < |items|
    requires forall k | 0 <= k < |items| :: weight(items[k]) == if k in places then 1 else 0
    ensures Total(items, weight) == |places|
  {
    if items == [] {
      forall k
        ensures k !in places
      {
      }
    } else {
      var last := |items| - 1;
      TotalIsCount(items[..last], weight, places - {last});
      if last in places {
        assert |places| == |places - {last}| + 1;
      } else {
        assert places - {last} == places;
      }
    }
  }

  // ---- the queries

  predicate InPeriod(p: Payment, start: Time, end: Time) {
    start <= p.createdAt < end
  }

  predicate InScope(s: Source, p: Payment, company: int, start: Time, end: Time) {
    p.station in s.stations && s.stations[p.station] == company && InPeriod(p, start, end)
  }

  function One(b: bool): int {
    if b then 1 else 0
  }

  function Gross(p: Payment): int {
    if p.status.Succeeded? then p.amount else 0
  }

  function CountIn(s: Source, company: int, start: Time, end: Time): int {
    Total(s.payments, p => One(InScope(s, p, company, start, end)))
  }

  function CountStatus(s: Source, company: int, start: Time, end: Time, status: PaymentStatus): int {
    Total(s.payments, p => One(InScope(s, p, company, start, end) && p.status == status))
  }

  function GrossIn(s: Source, company: int, start: Time, end: Time): int {
    Total(s.payments, p => if InScope(s, p, company, start, end) then Gross(p) else 0)
  }

  function FinancialOf(s: Source, company: int, start: Time, end: Time): Financial {
    Financial(
      CountIn(s, company, start, end),
      CountStatus(s, company, start, end, Succeeded),
      CountStatus(s, company, start, end, Failed),
      CountStatus(s, company, start, end, Pending),
      CountStatus(s, company, start, end, Cancelled),
      GrossIn(s, company, start, end))
  }

  function MethodTotals(s: Source, company: int, start: Time, end: Time, m: Method): MethodRow {
    MethodRow(
      m,
      Total(s.payments, p => One(InScope(s, p, company, start, end) && p.paymentMethod == m)),
      Total(s.payments, p => One(InScope(s, p, company, start, end) && p.paymentMethod == m && p.status == Succeeded)),
      Total(s.payments, p => if InScope(s, p, company, start, end) && p.paymentMethod == m then Gross(p) else 0))
  }

  /** GROUP BY method ORDER BY method: a row for each method that occurs. */
  function MethodRows(s: Source, company: int, start: Time, end: Time): seq<MethodRow> {
    RowIfAny(MethodTotals(s, company, start, end, Card))
    + RowIfAny(MethodTotals(s, company, start, end, Qr))
    + RowIfAny(MethodTotals(s, company, start, end, RfCard))
  }

  function RowIfAny(r: MethodRow): seq<MethodRow> {
    if r.total > 0 then [r] else []
  }

  // ---- what the numbers count

  /** The payments at stations of the company, created in [start, end). */
  function Places(s: Source, company: int, start: Time, end: Time): set<int> {
    set k | 0 <= k < |s.payments|
            && s.payments[k].station in s.stations && s.stations[s.payments[k].station] == company
            && start <= s.payments[k].createdAt && s.payments[k].createdAt < end
  }

  /** Each number is the size of a set of payments, or the sum over one. */
  ghost predicate Shows(s: Source, company: int, start: Time, end: Time, f: Financial) {
    var places := Places(s, company, start, end);
    && f.transactions == |places|
    && f.succeeded == |set k | k in places && s.payments[k].status == Succeeded|
    && f.failed == |set k | k in places && s.payments[k].status == Failed|
    && f.pending == |set k | k in places && s.payments[k].status == Pending|
    && f.cancelled == |set k | k in places && s.payments[k].status == Cancelled|
    && f.gross == SumAt(s.payments, set k | k in places && s.payments[k].status == Succeeded, |s.payments|)
  }

  /** The amounts of the payments at those places, up to place `n`. */
  function SumAt(payments: seq<Payment>, places: set<int>, n: nat): int
    requires n <= |payments|
  {
    if n == 0 then 0 else SumAt(payments, places, n - 1) + if n - 1 in places then payments[n - 1].amount else 0
  }

  ghost predicate RowShows(s: Source, company: int, start: Time, end: Time, row: MethodRow) {
    var places := set k | k in Places(s, company, start, end) && s.payments[k].paymentMethod == row.paymentMethod;
    && row.total == |places|
    && row.succeeded == |set k | k in places && s.payments[k].status == Succeeded|
    && row.amount == SumAt(s.payments, set k | k in places && s.payments[k].status == Succeeded, |s.payments|)
  }

  /** CARD, QR, RF_CARD: the order of the method names. */
  function Alphabetical(m: Method): nat {
    match m
    case Card => 0
    case Qr => 1
    case RfCard => 2
    case Other(_) => 3
  }

  /** One row for each method that occurs, in order, with its own numbers. */
  ghost predicate RowsShow(s: Source, company: int, start: Time, end: Time, rows: seq<MethodRow>) {
    && (forall j, k | 0 <= j < k < |rows| :: Alphabetical(rows[j].paymentMethod) < Alphabetical(rows[k].paymentMethod))
    && (forall k | 0 <= k < |rows| :: RowShows(s, company, start, end, rows[k]))
    && (forall m | Alphabetical(m) < 3 :: HasRow(rows, m) <==> Occurs(s, company, start, end, m))
    && forall k | 0 <= k < |rows| :: Alphabetical(rows[k].paymentMethod) < 3
  }

  predicate HasRow(rows: seq<MethodRow>, m: Method) {
    exists k :: 0 <= k < |rows| && rows[k].paymentMethod == m
  }

  predicate Occurs(s: Source, company: int, start: Time, end: Time, m: Method) {
    exists k :: k in Places(s, company, start, end) && s.payments[k].paymentMethod == m
  }

  lemma {:induction false} TotalIsSum(payments: seq<Payment>, weight: Payment -> int, places: set<int>, n: nat)
    requires n <= |payments|
    requires forall k | 0 <= k < n :: weight(payments[k]) == if k in places then payments[k].amount else 0
    ensures Total(payments[..n], weight) == SumAt(payments, places, n)
  {
    if n > 0 {
      TotalIsSum(payments, weight, places, n - 1);
      assert payments[..n][..n - 1] == payments[..n - 1];
    }
  }

  lemma CountShows(s: Source, company: int, start: Time, end: Time, status: PaymentStatus)
    ensures CountStatus(s, company, start, end, status) == |set k | k in Places(s, company, start, end) && s.payments[k].status == status|
  {
    TotalIsCount(s.payments, p => One(InScope(s, p, company, start, end) && p.status == status),
                 set k | k in Places(s, company, start, end) && s.payments[k].status == status);
  }

  lemma FinancialShows(s: Source, company: int, start: Time, end: Time)
    ensures Shows(s, company, start, end, FinancialOf(s, company, start, end))
  {
    var places := Places(s, company, start, end);
    TotalIsCount(s.payments, p => One(InScope(s, p, company, start, end)), places);
    CountShows(s, company, start, end, Succeeded);
    CountShows(s, company, start, end, Failed);
    CountShows(s, company, start, end, Pending);
    CountShows(s, company, start, end, Cancelled);
    TotalIsSum(s.payments, p => if InScope(s, p, company, start, end) then Gross(p) else 0,
               set k | k in places && s.payments[k].status == Succeeded, |s.payments|);
    assert s.payments[..|s.payments|] == s.payments;
  }

  lemma MethodShows(s: Source, company: int, start: Time, end: Time, m: Method)
    ensures RowShows(s, company, start, end, MethodTotals(s, company, start, end, m))
    ensures MethodTotals(s, company, start, end, m).total > 0 <==> Occurs(s, company, start, end, m)
  {
    var places := set k | k in Places(s, company, start, end) && s.payments[k].paymentMethod == m;
    TotalIsCount(s.payments, p => One(InScope(s, p, company, start, end) && p.paymentMethod == m), places);
    TotalIsCount(s.payments, p => One(InScope(s, p, company, start, end) && p.paymentMethod == m && p.status == Succeeded),
                 set k | k in places && s.payments[k].status == Succeeded);
    TotalIsSum(s.payments, p => if InScope(s, p, company, start, end) && p.paymentMethod == m then Gross(p) else 0,
               set k | k in places && s.payments[k].status == Succeeded, |s.payments|);
    assert s.payments[..|s.payments|] == s.payments;
    if k :| k in Places(s, company, start, end) && s.payments[k].paymentMethod == m {
      assert k in places;
    }
  }

  lemma MethodRowsShow(s: Source, company: int, start: Time, end: Time)
    ensures RowsShow(s, company, start, end, MethodRows(s, company, start, end))
  {
    MethodShows(s, company, start, end, Card);
    MethodShows(s, company, start, end, Qr);
    MethodShows(s, company, start, end, RfCard);
    var a, b, c := MethodTotals(s, company, start, end, Card), MethodTotals(s, company, start, end, Qr), MethodTotals(s, company, start, end, RfCard);
    forall m
      ensures HasRow(MethodRows(s, company, start, end), m) <==>
              (m == Card && a.total > 0) || (m == Qr && b.total > 0) || (m == RfCard && c.total > 0)
    {
      ThreeRows(a, b, c, m);
    }
    RowsInOrder(a, b, c);
  }

  lemma RowsInOrder(a: MethodRow, b: MethodRow, c: MethodRow)
    requires a.paymentMethod == Card && b.paymentMethod == Qr && c.paymentMethod == RfCard
    ensures var rows := RowIfAny(a) + RowIfAny(b) + RowIfAny(c);
            && (forall k | 0 <= k < |rows| :: rows[k] in {a, b, c} && Alphabetical(rows[k].paymentMethod) < 3)
            && forall j, k | 0 <= j < k < |rows| :: Alphabetical(rows[j].paymentMethod) < Alphabetical(rows[k].paymentMethod)
  {
  }

  lemma ThreeRows(a: MethodRow, b: MethodRow, c: MethodRow, m: Method)
    ensures HasRow(RowIfAny(a) + RowIfAny(b) + RowIfAny(c), m) <==>
            (m == a.paymentMethod && a.total > 0) || (m == b.paymentMethod && b.total > 0) || (m == c.paymentMethod && c.total > 0)
  {
    RowAmong(RowIfAny(a) + RowIfAny(b), RowIfAny(c), m);
    RowAmong(RowIfAny(a), RowIfAny(b), m);
    RowOrNone(a, m);
    RowOrNone(b, m);
    RowOrNone(c, m);
  }

  lemma RowAmong(a: seq<MethodRow>, b: seq<MethodRow>, m: Method)
    ensures HasRow(a + b, m) <==> HasRow(a, m) || HasRow(b, m)
  {
    if k :| 0 <= k < |a| && a[k].paymentMethod == m {
      assert (a + b)[k].paymentMethod == m;
    }
    if k :| 0 <= k < |b| && b[k].paymentMethod == m {
      assert (a + b)[|a| + k].paymentMethod == m;
    }
  }

  lemma RowOrNone(r: MethodRow, m: Method)
    ensures HasRow(RowIfAny(r), m) <==> r.total > 0 && r.paymentMethod == m
  {
    if r.total > 0 {
      assert RowIfAny(r)[0] == r;
    }
  }

  // ---- what the CHECK constraints and foreign keys give

  ghost predicate SourceOk(s: Source) {
    && (forall k | 0 <= k < |s.payments| ::
          && s.payments[k].paymentMethod in {Card, Qr, RfCard}
          && s.payments[k].amount >= 0
          && s.payments[k].station in s.stations)
    && (forall station | station in s.stations :: s.stations[station] in s.companies)
  }

  // ---- totals

  /** The four statuses add up to the transactions. */
  lemma StatusesAddUp(s: Source, company: int, start: Time, end: Time)
    ensures var f := FinancialOf(s, company, start, end);
            f.succeeded + f.failed + f.pending + f.cancelled == f.transactions
  {
    var open := (p: Payment) => One(InScope(s, p, company, start, end) && (p.status == Pending || p.status == Cancelled));
    var closed := (p: Payment) => One(InScope(s, p, company, start, end) && (p.status == Succeeded || p.status == Failed));
    TotalSplits(s.payments, p => One(InScope(s, p, company, start, end)), closed, open);
    TotalSplits(s.payments, closed,
                p => One(InScope(s, p, company, start, end) && p.status == Succeeded),
                p => One(InScope(s, p, company, start, end) && p.status == Failed));
    TotalSplits(s.payments, open,
                p => One(InScope(s, p, company, start, end) && p.status == Pending),
                p => One(InScope(s, p, company, start, end) && p.status == Cancelled));
  }

  /** A method without payments contributes nothing, so leaving its row out loses nothing. */
  lemma {:induction false} AbsentMethodIsZero(payments: seq<Payment>, s: Source, company: int, start: Time, end: Time, m: Method)
    requires Total(payments, p => One(InScope(s, p, company, start, end) && p.paymentMethod == m)) == 0
    ensures Total(payments, p => One(InScope(s, p, company, start, end) && p.paymentMethod == m && p.status == Succeeded)) == 0
    ensures Total(payments, p => if InScope(s, p, company, start, end) && p.paymentMethod == m then Gross(p) else 0) == 0
  {
    if payments != [] {
      var last := |payments| - 1;
      CountIsNatural(payments[..last], s, company, start, end, m);
      AbsentMethodIsZero(payments[..last], s, company, start, end, m);
    }
  }

  lemma {:induction false} CountIsNatural(payments: seq<Payment>, s: Source, company: int, start: Time, end: Time, m: Method)
    ensures Total(payments, p => One(InScope(s, p, company, start, end) && p.paymentMethod == m)) >= 0
  {
    if payments != [] {
      CountIsNatural(payments[..|payments| - 1], s, company, start, end, m);
    }
  }

  function AddRows(rows: seq<MethodRow>): (int, int, int) {
    if rows == [] then (0, 0, 0)
    else
      var (total, succeeded, amount) := AddRows(rows[1..]);
      (rows[0].total + total, rows[0].succeeded + succeeded, rows[0].amount + amount)
  }

  lemma {:induction false} AddRowsConcat(a: seq<MethodRow>, b: seq<MethodRow>)
    ensures AddRows(a + b) == (AddRows(a).0 + AddRows(b).0, AddRows(a).1 + AddRows(b).1, AddRows(a).2 + AddRows(b).2)
  {
    if a == [] {
      assert a + b == b;
    } else {
      assert (a + b)[1..] == a[1..] + b;
      AddRowsConcat(a[1..], b);
    }
  }

  lemma RowIfAnyAdds(s: Source, company: int, start: Time, end: Time, m: Method)
    ensures var r := MethodTotals(s, company, start, end, m);
            AddRows(RowIfAny(r)) == (r.total, r.succeeded, r.amount)
  {
    var r := MethodTotals(s, company, start, end, m);
    CountIsNatural(s.payments, s, company, start, end, m);
    if r.total == 0 {
      AbsentMethodIsZero(s.payments, s, company, start, end, m);
    } else {
      assert [r][1..] == [];
    }
  }

  lemma ThreeMethods(payments: seq<Payment>, whole: Payment -> int, card: Payment -> int, qr: Payment -> int, rf: Payment -> int)
    requires forall k | 0 <= k < |payments| :: whole(payments[k]) == card(payments[k]) + qr(payments[k]) + rf(payments[k])
    ensures Total(payments, whole) == Total(payments, card) + Total(payments, qr) + Total(payments, rf)
  {
    TotalSplits(payments, whole, p => card(p) + qr(p), rf);
    TotalSplits(payments, p => card(p) + qr(p), card, qr);
  }

  lemma CountsSplit(s: Source, company: int, start: Time, end: Time)
    requires SourceOk(s)
    ensures CountIn(s, company, start, end)
            == MethodTotals(s, company, start, end, Card).total
               + MethodTotals(s, company, start, end, Qr).total + MethodTotals(s, company, start, end, RfCard).total
  {
    ThreeMethods(s.payments,
                 p => One(InScope(s, p, company, start, end)),
                 p => One(InScope(s, p, company, start, end) && p.paymentMethod == Card),
                 p => One(InScope(s, p, company, start, end) && p.paymentMethod == Qr),
                 p => One(InScope(s, p, company, start, end) && p.paymentMethod == RfCard));
  }

  lemma SuccessesSplit(s: Source, company: int, start: Time, end: Time)
    requires SourceOk(s)
    ensures CountStatus(s, company, start, end, Succeeded)
            == MethodTotals(s, company, start, end, Card).succeeded
               + MethodTotals(s, company, start, end, Qr).succeeded + MethodTotals(s, company, start, end, RfCard).succeeded
  {
    ThreeMethods(s.payments,
                 p => One(InScope(s, p, company, start, end) && p.status == Succeeded),
                 p => One(InScope(s, p, company, start, end) && p.paymentMethod == Card && p.status == Succeeded),
                 p => One(InScope(s, p, company, start, end) && p.paymentMethod == Qr && p.status == Succeeded),
                 p => One(InScope(s, p, company, start, end) && p.paymentMethod == RfCard && p.status == Succeeded));
  }

  lemma GrossSplits(s: Source, company: int, start: Time, end: Time)
    requires SourceOk(s)
    ensures GrossIn(s, company, start, end)
            == MethodTotals(s, company, start, end, Card).amount
               + MethodTotals(s, company, start, end, Qr).amount + MethodTotals(s, company, start, end, RfCard).amount
  {
    ThreeMethods(s.payments,
                 p => if InScope(s, p, company, start, end) then Gross(p) else 0,
                 p => if InScope(s, p, company, start, end) && p.paymentMethod == Card then Gross(p) else 0,
                 p => if InScope(s, p, company, start, end) && p.paymentMethod == Qr then Gross(p) else 0,
                 p => if InScope(s, p, company, start, end) && p.paymentMethod == RfCard then Gross(p) else 0);
  }

  /** Added up, the rows per method are the transaction count, the successful count and the gross amount. */
  lemma MethodsAddUp(s: Source, company: int, start: Time, end: Time)
    requires SourceOk(s)
    ensures var f := FinancialOf(s, company, start, end);
            AddRows(MethodRows(s, company, start, end)) == (f.transactions, f.succeeded, f.gross)
  {
    var c, q, r := MethodTotals(s, company, start, end, Card), MethodTotals(s, company, start, end, Qr), MethodTotals(s, company, start, end, RfCard);
    AddRowsConcat(RowIfAny(c) + RowIfAny(q), RowIfAny(r));
    AddRowsConcat(RowIfAny(c), RowIfAny(q));
    RowIfAnyAdds(s, company, start, end, Card);
    RowIfAnyAdds(s, company, start, end, Qr);
    RowIfAnyAdds(s, company, start, end, RfCard);
    CountsSplit(s, company, start, end);
    SuccessesSplit(s, company, start, end);
    GrossSplits(s, company, start, end);
  }

  // ---- companies

  predicate InSome(s: Source, p: Payment, companies: seq<int>, start: Time, end: Time) {
    p.station in s.stations && s.stations[p.station] in companies && InPeriod(p, start, end)
  }

  lemma {:induction false} CompaniesSoFar(s: Source, companies: seq<int>, start: Time, end: Time)
    requires forall j, k | 0 <= j < k < |companies| :: companies[j] != companies[k]
    ensures Total(companies, c => CountIn(s, c, start, end)) == Total(s.payments, p => One(InSome(s, p, companies, start, end)))
    ensures Total(companies, c => GrossIn(s, c, start, end))
            == Total(s.payments, p => if InSome(s, p, companies, start, end) then Gross(p) else 0)
  {
    if companies == [] {
      TotalSplits(s.payments, p => One(InSome(s, p, companies, start, end)), p => 0, p => 0);
      TotalSplits(s.payments, p => if InSome(s, p, companies, start, end) then Gross(p) else 0, p => 0, p => 0);
      TotalZero(s.payments);
    } else {
      var before, last := companies[..|companies| - 1], companies[|companies| - 1];
      CompaniesSoFar(s, before, start, end);
      forall k | 0 <= k < |s.payments|
        ensures InSome(s, s.payments[k], companies, start, end) <==>
                InSome(s, s.payments[k], before, start, end) || InScope(s, s.payments[k], last, start, end)
        ensures !(InSome(s, s.payments[k], before, start, end) && InScope(s, s.payments[k], last, start, end))
      {
        assert companies == before + [last];
      }
      TotalSplits(s.payments, p => One(InSome(s, p, companies, start, end)),
                  p => One(InSome(s, p, before, start, end)), p => One(InScope(s, p, last, start, end)));
      TotalSplits(s.payments, p => if InSome(s, p, companies, start, end) then Gross(p) else 0,
                  p => if InSome(s, p, before, start, end) then Gross(p) else 0,
                  p => if InScope(s, p, last, start, end) then Gross(p) else 0);
    }
  }

  lemma {:induction false} TotalZero(payments: seq<Payment>)
    ensures Total(payments, (p: Payment) => 0) == 0
  {
    if payments != [] {
      TotalZero(payments[..|payments| - 1]);
    }
  }

  /** The companies' dashboards split all payments of the period: nothing is left out or counted twice. */
  lemma CompaniesPartition(s: Source, companies: seq<int>, start: Time, end: Time)
    requires SourceOk(s)
    requires forall j, k | 0 <= j < k < |companies| :: companies[j] != companies[k]
    requires forall c | c in s.companies :: c in companies
    ensures Total(companies, c => CountIn(s, c, start, end)) == Total(s.payments, p => One(InPeriod(p, start, end)))
    ensures Total(companies, c => GrossIn(s, c, start, end)) == Total(s.payments, p => if InPeriod(p, start, end) then Gross(p) else 0)
  {
    CompaniesSoFar(s, companies, start, end);
    TotalOfSame(s.payments, p => One(InSome(s, p, companies, start, end)), p => One(InPeriod(p, start, end)));
    TotalOfSame(s.payments, p => if InSome(s, p, companies, start, end) then Gross(p) else 0,
                p => if InPeriod(p, start, end) then Gross(p) else 0);
  }

  // ---- the two overviews

  function OverviewOf(s: Source, company: int, id: string, start: Civil, end: Civil): Answer
    requires 1 <= start.month <= 12 && 1 <= end.month <= 12
  {
    var from, until := Midnight(start), Midnight(end);
    Answer(id, start, end, FinancialOf(s, company, from, until), MethodRows(s, company, from, until))
  }

  function PythonOverview(s: Source, company: int, period: Period, today: Civil): Result<Answer, Problem>
    requires Valid(today)
  {
    NowIsInThePeriod(period, today, 0);
    match PythonBounds(period, today)
    case Failure(e) => Failure(BadPeriod(e))
    case Success((start, end)) =>
      if company !in s.companies then Failure(CompanyNotFound) else Success(OverviewOf(s, company, Str(company), start, end))
  }

  /** What Go's overview must be: its bounds, and the id without a sign. */
  function GoOverview(s: Source, company: int, period: Period, today: Civil): Result<Answer, Problem>
    requires Valid(today)
  {
    NowIsInThePeriod(period, today, 0);
    match GoBounds(period, today)
    case Failure(e) => Failure(BadPeriod(e))
    case Success((start, end)) =>
      if company !in s.companies then Failure(CompanyNotFound)
      else Success(OverviewOf(s, company, if company < 0 then "" else Decimal(company), start, end))
  }

  /** A stored company whose id Go would print as the empty text. */
  predicate NegativeWorkspace(s: Source, company: int, period: Period) {
    company < 0 && company in s.companies && !period.OtherPeriod?
  }

  /** On every day, for every table, company and period: the two overviews are the same, errors included, exactly when the
      period stays within Python's years and the id of a company found is not negative.  */
  lemma OverviewsAgreeExactly(s: Source, company: int, period: Period, today: Civil)
    requires Valid(today)
    ensures PythonOverview(s, company, period, today) == GoOverview(s, company, period, today)
            <==> !Unanswerable(period, today) && !NegativeWorkspace(s, company, period)
  {
    RuntimesAgreeOnPeriods(period, today);
    NowIsInThePeriod(period, today, 0);
    if !Unanswerable(period, today) {
      SameBoundsExactly(s, company, period, today);
    }
  }

  lemma SameBoundsExactly(s: Source, company: int, period: Period, today: Civil)
    requires Valid(today) && PythonBounds(period, today) == GoBounds(period, today)
    ensures PythonOverview(s, company, period, today) == GoOverview(s, company, period, today)
            <==> !NegativeWorkspace(s, company, period)
  {
    NowIsInThePeriod(period, today, 0);
    assert company < 0 ==> Str(company) != "";
  }

  /** The places before `n` whose payment has the status. */
  function StatusBefore(s: Source, places: set<int>, status: PaymentStatus, n: nat): set<int>
    requires forall k | k in places :: 0 <= k < |s.payments|
  {
    set k | k in places && k < n && s.payments[k].status == status
  }

  lemma StatusNext(s: Source, places: set<int>, status: PaymentStatus, n: nat)
    requires (forall k | k in places :: 0 <= k < |s.payments|) && n < |s.payments|
    ensures |StatusBefore(s, places, status, n + 1)| ==
            |StatusBefore(s, places, status, n)| + if n in places && s.payments[n].status == status then 1 else 0
  {
    assert StatusBefore(s, places, status, n + 1) ==
           StatusBefore(s, places, status, n) + if n in places && s.payments[n].status == status then {n} else {};
  }

  lemma PlacesNext(places: set<int>, n: nat)
    ensures |set k | k in places && k < n + 1| == |set k | k in places && k < n| + if n in places then 1 else 0
  {
    assert (set k | k in places && k < n + 1) == (set k | k in places && k < n) + if n in places then {n} else {};
  }

  lemma AllPlaces(s: Source, places: set<int>)
    requires forall k | k in places :: 0 <= k < |s.payments|
    ensures (set k | k in places && k < |s.payments|) == places
    ensures forall status :: StatusBefore(s, places, status, |s.payments|) == set k | k in places && s.payments[k].status == status
  {
  }

  predicate Selected(s: Source, p: Payment, company: int, start: Time, end: Time) {
    p.station in s.stations && s.stations[p.station] == company && p.createdAt >= start && p.createdAt < end
  }

  /** The first query: six aggregates over the selected rows. */
  method CountPayments(s: Source, company: int, start: Time, end: Time) returns (f: Financial)
    ensures Shows(s, company, start, end, f)
  {
    var transactions, succeeded, failed, pending, cancelled, gross := 0, 0, 0, 0, 0, 0;
    ghost var places := Places(s, company, start, end);
    ghost var paid := set k | k in places && s.payments[k].status == Succeeded;
    for k := 0 to |s.payments|
      invariant transactions == |set j | j in places && j < k|
      invariant succeeded == |StatusBefore(s, places, Succeeded, k)| && failed == |StatusBefore(s, places, Failed, k)|
      invariant pending == |StatusBefore(s, places, Pending, k)| && cancelled == |StatusBefore(s, places, Cancelled, k)|
      invariant gross == SumAt(s.payments, paid, k)
    {
      var p := s.payments[k];
      PlacesNext(places, k);
      StatusNext(s, places, Succeeded, k);
      StatusNext(s, places, Failed, k);
      StatusNext(s, places, Pending, k);
      StatusNext(s, places, Cancelled, k);
      if Selected(s, p, company, start, end) {
        transactions := transactions + 1;
        match p.status {
          case Succeeded =>
            succeeded, gross := succeeded + 1, gross + p.amount;
          case Failed => failed := failed + 1;
          case Pending => pending := pending + 1;
          case Cancelled => cancelled := cancelled + 1;
        }
      }
    }
    AllPlaces(s, places);
    return Financial(transactions, succeeded, failed, pending, cancelled, gross);
  }

  /** One group of the second query. */
  method CountMethod(s: Source, company: int, start: Time, end: Time, m: Method) returns (row: MethodRow)
    ensures row.paymentMethod == m && RowShows(s, company, start, end, row)
  {
    var total, succeeded, amount := 0, 0, 0;
    ghost var places := set k | k in Places(s, company, start, end) && s.payments[k].paymentMethod == m;
    ghost var paid := set k | k in places && s.payments[k].status == Succeeded;
    for k := 0 to |s.payments|
      invariant total == |set j | j in places && j < k| && succeeded == |StatusBefore(s, places, Succeeded, k)|
      invariant amount == SumAt(s.payments, paid, k)
    {
      var p := s.payments[k];
      PlacesNext(places, k);
      StatusNext(s, places, Succeeded, k);
      if Selected(s, p, company, start, end) && p.paymentMethod == m {
        total := total + 1;
        if p.status == Succeeded {
          succeeded, amount := succeeded + 1, amount + p.amount;
        }
      }
    }
    AllPlaces(s, places);
    return MethodRow(m, total, succeeded, amount);
  }

  /** The rows of the second query: a group for each method that occurs, by name. */
  method CountMethods(s: Source, company: int, start: Time, end: Time) returns (rows: seq<MethodRow>)
    ensures rows == MethodRows(s, company, start, end)
  {
    rows := [];
    var card := CountMethod(s, company, start, end, Card);
    MethodShows(s, company, start, end, Card);
    if card.total > 0 {
      rows := rows + [card];
    }
    var qr := CountMethod(s, company, start, end, Qr);
    MethodShows(s, company, start, end, Qr);
    if qr.total > 0 {
      rows := rows + [qr];
    }
    var rfCard := CountMethod(s, company, start, end, RfCard);
    MethodShows(s, company, start, end, RfCard);
    if rfCard.total > 0 {
      rows := rows + [rfCard];
    }
  }

  /** The numbers of an answer are those of its own period. */
  ghost predicate AnswerShows(s: Source, company: int, a: Answer) {
    && 1 <= a.start.month <= 12 && 1 <= a.end.month <= 12
    && var from, until := Midnight(a.start), Midnight(a.end);
    && Shows(s, company, from, until, a.financial)
    && RowsShow(s, company, from, until, a.methods)
  }

  lemma OverviewShows(s: Source, company: int, id: string, start: Civil, end: Civil)
    requires 1 <= start.month <= 12 && 1 <= end.month <= 12
    ensures AnswerShows(s, company, OverviewOf(s, company, id, start, end))
  {
    FinancialShows(s, company, Midnight(start), Midnight(end));
    MethodRowsShow(s, company, Midnight(start), Midnight(end));
  }

  /** Whatever either runtime answers, every number of the answer counts, or adds up, exactly the payments it names. */
  lemma AnswersShow(s: Source, company: int, period: Period, today: Civil)
    requires Valid(today)
    ensures PythonOverview(s, company, period, today).Success? ==> AnswerShows(s, company, PythonOverview(s, company, period, today).value)
    ensures GoOverview(s, company, period, today).Success? ==> AnswerShows(s, company, GoOverview(s, company, period, today).value)
  {
    NowIsInThePeriod(period, today, 0);
    if GoBounds(period, today).Success? {
      var (start, end) := GoBounds(period, today).value;
      OverviewShows(s, company, Str(company), start, end);
      OverviewShows(s, company, if company < 0 then "" else Decimal(company), start, end);
    }
  }

  /** The queries over one period, and the loop over the rows of the second one. */
  method Queried(s: Source, company: int, id: string, start: Civil, end: Civil) returns (a: Answer)
    requires 1 <= start.month <= 12 && 1 <= end.month <= 12
    ensures a == OverviewOf(s, company, id, start, end)
  {
    var from, until := Midnight(start), Midnight(end);
    var financial := CountPayments(s, company, from, until);
    FinancialShows(s, company, from, until);
    var rows := CountMethods(s, company, from, until);
    var methods: seq<MethodRow> := [];
    for k := 0 to |rows|
      invariant methods == rows[..k]
    {
      methods := methods + [MethodRow(rows[k].paymentMethod, rows[k].total, rows[k].succeeded, rows[k].amount)];
    }
    assert methods == rows;
    return Answer(id, start, end, financial, methods);
  }

  /** The Go overview, its id printed by FormatID. */
  method Overview(s: Source, company: int, period: Period, today: Civil) returns (r: Result<Answer, Problem>)
    requires Valid(today) && -0x8000_0000_0000_0000 <= company < 0x8000_0000_0000_0000
    ensures r == GoOverview(s, company, period, today)
    ensures r.Success? ==> AnswerShows(s, company, r.value)
  {
    var bounds := GoBounds(period, today);
    NowIsInThePeriod(period, today, 0);
    AnswersShow(s, company, period, today);
    if bounds.Failure? {
      return Failure(BadPeriod(bounds.error));
    }
    var (start, end) := bounds.value;
    if company !in s.companies {
      return Failure(CompanyNotFound);
    }
    var id := FormatID(company);
    var answer := Queried(s, company, id, start, end);
    return Success(answer);
  }

  // ---- formatID

  lemma TenTo19()
    ensures Power(Ten, 19) == 10_000_000_000_000_000_000
  {
    assert Power(Ten, 12) == 1_000_000_000_000;
    assert Power(Ten, 15) == 1_000_000_000_000_000;
    assert Power(Ten, 18) == 1_000_000_000_000_000_000;
  }

  /** One more digit in front of the text written so far. */
  lemma DigitStep(rest: nat, tail: string)
    requires rest > 0
    ensures Decimal(rest) + tail == (if rest / 10 > 0 then Decimal(rest / 10) else "") + ([Digit(rest % 10)] + tail)
  {
    var front := if rest / 10 > 0 then Decimal(rest / 10) else "";
    assert Decimal(rest) == front + [Digit(rest % 10)];
    assert front + [Digit(rest % 10)] + tail == front + ([Digit(rest % 10)] + tail);
  }

  function Front(rest: int): string {
    if rest > 0 then Decimal(rest) else ""
  }

  /** Fills a 20-byte buffer from its end; the same text as Python's exactly when the id is not negative. */
  method FormatID(v: int) returns (text: string)
    requires -0x8000_0000_0000_0000 <= v < 0x8000_0000_0000_0000
    ensures text == if v < 0 then "" else Decimal(v)
    ensures text == Str(v) <==> v >= 0
  {
    if v == 0 {
      return "0";
    }
    var b := new char[20];
    var i, rest := 20, v;
    TenTo19();
    while rest > 0
      invariant 1 <= i <= 20
      invariant v < 0 ==> rest == v && i == 20
      invariant v > 0 ==> rest >= 0
      invariant rest > 0 ==> rest < Power(Ten, i - 1)
      invariant v > 0 ==> Decimal(v) == Front(rest) + b[i..]
    {
      ghost var tail := b[i..];
      DigitStep(rest, tail);
      i := i - 1;
      b[i] := Digit(rest % 10);
      assert b[i..] == [Digit(rest % 10)] + tail;
      rest := rest / 10;
    }
    return b[i..];
  }
}
