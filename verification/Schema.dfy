/** The rows and requests both runtimes share.

    A table is a map from the column its lookups use (a primary key or a UNIQUE column) to the row.
    Dependent payment rows, which are only ever appended, are one sequence in commit order.  */
module Schema {

  datatype Option<+T> = None | Some(value: T) {
    function GetOr(default: T): T {
      match this
      case None => default
      case Some(v) => v
    }
  }

  datatype Result<+T, +E> = Success(value: T) | Failure(error: E)

  /** Microseconds, the resolution of TIMESTAMPTZ. */
  type Time = int

  const SECOND: Time := 1_000_000
  const OFFLINE_AFTER: Time := 120 * SECOND

  /** A keyed digest, known only by what was hashed: two digests are equal exactly when their inputs are. */
  datatype Digest = Digest(preimage: string)

  /** The digest of a serialised payment body (same convention as Digest), or one the seed computed from another text. */
  datatype BodyDigest = BodyDigest(json: string) | SeededDigest(text: string)

  datatype Runtime = Python | Go

  /** A text that names none of the three methods. */
  type OtherName = s: string | s != "CARD" && s != "QR" && s != "RF_CARD" witness ""

  datatype Method = Card | Qr | RfCard | Other(name: OtherName)

  datatype PaymentStatus = Pending | Succeeded | Failed | Cancelled

  datatype ErrorCode =
    | IdempotencyConflict
    | DeviceNotOperational
    | DeviceOffline
    | DeviceNotAssigned
    | DeviceInMaintenance
    | ConfigurationNotAcknowledged
    | WashBayBusy
    | QrTokenRequired
    | QrNotFound
    | StationProgramRequired
    | ProgramNotAvailable
    | EntitlementRequired
    | PaymentMethodNotAvailable
    | ProgramPriceChanged
    | InvalidTestScenario
    | InvalidRfUid
    | UnsupportedPaymentMethod
    | CardDeclined
    | CardCancelled
    | InsufficientFunds
    | ProviderError
    | QrInvalid
    | RfCardInvalid
    | RfInsufficientBalance

  // ---- requests

  datatype Device = Device(id: int, station: int, active: bool)

  datatype Body = Body(
    program: Option<int>,
    paymentMethod: Method,
    configurationVersion: int,
    displayedPrice: Option<int>,
    qrToken: Option<string>,
    rfUid: Option<string>,
    testScenario: Option<string>)

  /** One authenticated request, and the runtime serving it. */
  datatype Call = Call(runtime: Runtime, device: Device, key: string, body: Body)

  // ---- tables a payment only reads

  datatype DeviceState = DeviceState(lastSeen: Option<Time>, acknowledgedVersion: Option<int>)

  datatype WindowStatus = Scheduled | WindowActive | WindowCompleted | WindowCancelled
  datatype Window = Window(device: Option<int>, startsAt: Time, endsAt: Time, status: WindowStatus)

  datatype ExecutionStatus = Created | CommandSent | Running | ExecSucceeded | ExecFailed | ExecTimeout | ExecCancelled
  datatype Execution = Execution(
    device: int,
    bay: Option<int>,
    status: ExecutionStatus,
    createdAt: Time,
    startedAt: Option<Time>,
    completedAt: Option<Time>)

  datatype Program = Program(company: int, price: int, active: bool)

  datatype RfCardRow = RfCardRow(id: int, company: int, active: bool, expiresAt: Option<Time>)

  datatype Env = Env(
    stations: map<int, int>,                // station -> company
    deviceStates: map<int, DeviceState>,
    bays: map<int, int>,                    // device -> wash bay
    windows: seq<Window>,
    published: map<int, int>,               // device -> version of its PUBLISHED configuration
    executions: map<int, Execution>,
    programs: map<int, Program>,
    entitled: set<(int, int)>,              // enabled (device, program)
    enabled: set<(int, Method)>,            // enabled (program, method)
    cards: map<Digest, RfCardRow>)          // uid_hash -> card

  // ---- tables a payment writes

  datatype QrStatus = QrActive | QrUsed | QrExpired
  datatype QrCode = QrCode(
    id: int,
    company: int,
    station: int,
    program: int,
    amount: int,
    usageLimit: int,
    usageCount: int,
    status: QrStatus,
    startsAt: Time,
    expiresAt: Time)

  datatype Wallet = Wallet(id: int, balance: int, version: int, updatedAt: Time)

  datatype Payment = Payment(
    device: int,
    station: int,
    key: string,
    requestHash: BodyDigest,
    paymentMethod: Method,
    amount: int,
    status: PaymentStatus,
    error: Option<ErrorCode>,
    program: int,
    qrCode: Option<int>,
    wallet: Option<int>,
    createdAt: Time,
    completedAt: Option<Time>)

  /** One row of payment_attempts, provider_transactions, rf_wallet_ledger, start_rights, events or audit_entries. */
  datatype Row =
    | Attempt(payment: int, attemptNo: int, status: PaymentStatus, at: Time)
    | Provider(payment: int, status: PaymentStatus, at: Time)
    | Debit(payment: int, wallet: int, amount: int, at: Time)
    | StartRight(payment: int, device: int, bay: int, program: int, at: Time)
    | PaymentEvent(payment: int, device: int, status: PaymentStatus, paymentMethod: Method, error: Option<ErrorCode>, at: Time)
    | Audit(payment: int, status: PaymentStatus, at: Time)

  datatype Table = Attempts | Providers | Ledger | StartRights | Events | AuditEntries

  function TableOf(r: Row): Table {
    match r
    case Attempt(_, _, _, _) => Attempts
    case Provider(_, _, _) => Providers
    case Debit(_, _, _, _) => Ledger
    case StartRight(_, _, _, _, _) => StartRights
    case PaymentEvent(_, _, _, _, _, _) => Events
    case Audit(_, _, _) => AuditEntries
  }

  datatype Tables = Tables(
    qrs: map<Digest, QrCode>,               // token_hash -> code
    wallets: map<int, Wallet>,              // rf_card_id -> wallet
    payments: map<int, Payment>,
    rows: seq<Row>)

  // ---- the constraints of the schema

  ghost predicate QrRowOk(q: QrCode) {
    q.amount >= 0 && q.usageLimit > 0 && 0 <= q.usageCount <= q.usageLimit
  }

  ghost predicate WalletRowOk(w: Wallet) {
    w.balance >= 0 && w.version >= 0
  }

  /** Two rows that a UNIQUE constraint forbids to coexist. */
  predicate Clash(r: Row, r': Row) {
    match (r, r')
    case (Attempt(p, n, _, _), Attempt(p', n', _, _)) => p == p' && n == n'
    case (Provider(p, _, _), Provider(p', _, _)) => p == p'
    case (Debit(p, _, _, _), Debit(p', _, _, _)) => p == p'
    case (StartRight(p, _, _, _, _), StartRight(p', _, _, _, _)) => p == p'
    case _ => false
  }

  predicate RowCheckOk(r: Row) {
    match r
    case Attempt(_, n, _, _) => n > 0
    case Debit(_, _, amount, _) => amount > 0
    case _ => true
  }

  predicate SameKey(p: Payment, device: int, key: string) {
    p.device == device && p.key == key
  }

  ghost predicate KeysUnique(payments: map<int, Payment>) {
    forall p, q | p in payments && q in payments && SameKey(payments[p], payments[q].device, payments[q].key) :: p == q
  }

  ghost predicate IdsUnique(qrs: map<Digest, QrCode>, wallets: map<int, Wallet>) {
    && (forall h, h' | h in qrs && h' in qrs && qrs[h].id == qrs[h'].id :: h == h')
    && (forall c, c' | c in wallets && c' in wallets && wallets[c].id == wallets[c'].id :: c == c')
  }

  ghost predicate RowsOk(rows: seq<Row>) {
    && (forall k | 0 <= k < |rows| :: RowCheckOk(rows[k]))
    && (forall j, k | 0 <= j < k < |rows| :: !Clash(rows[j], rows[k]))
  }

  /** Every CHECK, UNIQUE and foreign-key constraint on the tables payments write. */
  ghost predicate TablesOk(t: Tables) {
    && (forall h | h in t.qrs :: QrRowOk(t.qrs[h]))
    && (forall c | c in t.wallets :: WalletRowOk(t.wallets[c]))
    && IdsUnique(t.qrs, t.wallets)
    && KeysUnique(t.payments)
    && (forall p | p in t.payments :: t.payments[p].amount >= 0)
    && RowsOk(t.rows)
    && (forall k | 0 <= k < |t.rows| :: t.rows[k].payment in t.payments)
  }
}
