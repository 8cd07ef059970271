/** The three state machines over one database: interleaved payments and command handlers, sweeps one at a time. */
module MixedRuns {
  import opened Schema
  import opened CommandLifecycle
  import opened Monitoring
  import opened SeedTexts
  import opened SeededDatabase
  import CK = Checkout
  import P = PaymentMachine
  import PI = PaymentInvariant
  import PR = PaymentRows
  import C = CommandMachine
  import CS = CommandSafety
  import CH = CommandHistory
  import CO = CommandOrder
  import SH = SweepHistory
  import F = SeedFormulas

  datatype State = State(pay: P.State, cmd: C.State, board: Board, base: Env)

  /** One statement of a payment or of a command handler, a failure, a whole sweep, or a heartbeat. The rows a sweep's
      queries return are part of the event: they may have changed between its statements.  */
  datatype Event =
    | PaymentStatement(txn: nat, now: Time)
    | PaymentFault(txn: nat)
    | HandlerEvent(e: C.Event)
    | Sweep(r: Readings)
    | Heartbeat(device: int, state: DeviceState)

  /** What a payment statement reads now: executions as the handlers committed them, windows as the sweeps left them. */
  function EnvNow(s: State): Env {
    s.base.(executions := s.cmd.book.executions, windows := s.board.windows)
  }

  function PaymentEventOf(s: State, e: Event): P.Event
    requires e.PaymentStatement? || e.PaymentFault?
  {
    if e.PaymentStatement? then P.Exec(e.txn, EnvNow(s), e.now) else P.Fault(e.txn)
  }

  ghost function Apply(order: seq<int>, s: State, e: Event): State {
    match e
    case PaymentStatement(_, _) => s.(pay := P.Apply(s.pay, PaymentEventOf(s, e)))
    case PaymentFault(_) => s.(pay := P.Apply(s.pay, PaymentEventOf(s, e)))
    case HandlerEvent(c) => s.(cmd := C.Apply(order, s.cmd, c))
    case Sweep(r) => s.(board := Swept(s.board, r))
    case Heartbeat(device, state) => s.(base := s.base.(deviceStates := s.base.deviceStates[device := state]))
  }

  ghost function Run(order: seq<int>, s: State, events: seq<Event>): State {
    if events == [] then s else Apply(order, Run(order, s, events[..|events| - 1]), events[|events| - 1])
  }

  /** The queries of every sweep return each device once. */
  ghost predicate SweepsOk(events: seq<Event>) {
    forall k | 0 <= k < |events| && events[k].Sweep? ::
      Monitoring.Distinct(events[k].r.devices) && DistinctIds(events[k].r.failing)
  }

  // ---- the fresh seed

  function SeededCommand(p: F.Profile, g: int): Command
    requires F.Fits(p)
  {
    Command(F.DeviceOfPayment(p, g), g, Waiting, SEEDED_AT + (g % 3600) * SECOND, None, None, None, None)
  }

  function SeededBook(p: F.Profile): Book
    requires F.Fits(p)
  {
    Book(map g | 1 <= g <= ExecutionCount(p) :: SeededCommand(p, g), SeededExecutions(p), map[], [])
  }

  function Fresh(p: F.Profile, calls: seq<Call>, jobs: seq<Job>): State
    requires F.Fits(p)
  {
    State(P.State(SeededTables(p), seq(|calls|, i requires 0 <= i < |calls| => P.Begin(calls[i])), map[], SeededSequence(p), []),
          C.Start(SeededBook(p), jobs), Board([], []), SeededEnv(p))
  }

  /** The commands by (created_at, id). */
  function SeededOrder(p: F.Profile): seq<int>
    requires F.Fits(p)
  {
    CO.OrderUpTo(SeededBook(p).commands, ExecutionCount(p))
  }

  lemma SeededBookIsReady(p: F.Profile)
    requires F.Fits(p)
    ensures CS.Ready(SeededOrder(p), SeededBook(p)) && InStep(SeededBook(p))
  {
    var b := SeededBook(p);
    CO.OrderUpToSorts(b.commands, ExecutionCount(p));
    forall g | g in b.commands
      ensures g in b.executions && b.executions[g].status.Created? && b.commands[g].execution == g
      ensures b.commands[g].status.Waiting? && b.commands[g].acknowledgedAt.None?
    {
      assert b.commands[g] == SeededCommand(p, g) && b.executions[g] == SeededExecution(p, g);
    }
    UntouchedIsReady(SeededOrder(p), b);
  }

  lemma UntouchedIsReady(order: seq<int>, b: Book)
    requires OrderOk(order, b.commands) && b.results == map[]
    requires forall g | g in b.commands ::
               && b.commands[g].execution == g && g in b.executions && b.executions[g].status.Created?
               && b.commands[g].status.Waiting? && b.commands[g].acknowledgedAt.None?
    ensures CS.Ready(order, b) && InStep(b)
  {
  }

  // ---- each machine runs as if the others were its environment

  /** The payment events of a run, each with the tables it read. */
  ghost function PaymentTrace(order: seq<int>, s: State, events: seq<Event>): seq<P.Event> {
    if events == [] then []
    else
      var before, e := events[..|events| - 1], events[|events| - 1];
      PaymentTrace(order, s, before)
      + if e.PaymentStatement? || e.PaymentFault? then [PaymentEventOf(Run(order, s, before), e)] else []
  }

  function HandlerTrace(events: seq<Event>): seq<C.Event> {
    if events == [] then []
    else
      var e := events[|events| - 1];
      HandlerTrace(events[..|events| - 1]) + if e.HandlerEvent? then [e.e] else []
  }

  function SweepTrace(events: seq<Event>): seq<Readings> {
    if events == [] then []
    else
      var e := events[|events| - 1];
      SweepTrace(events[..|events| - 1]) + if e.Sweep? then [e.r] else []
  }

  lemma {:induction false} PaymentsProject(order: seq<int>, s: State, events: seq<Event>)
    ensures Run(order, s, events).pay == P.Run(s.pay, PaymentTrace(order, s, events))
  {
    if events != [] {
      var before, e := events[..|events| - 1], events[|events| - 1];
      PaymentsProject(order, s, before);
      if e.PaymentStatement? || e.PaymentFault? {
        P.RunSnoc(s.pay, PaymentTrace(order, s, before), PaymentEventOf(Run(order, s, before), e));
      } else {
        assert PaymentTrace(order, s, events) == PaymentTrace(order, s, before);
      }
    }
  }

  lemma {:induction false} HandlersProject(order: seq<int>, s: State, events: seq<Event>)
    ensures Run(order, s, events).cmd == C.Run(order, s.cmd, HandlerTrace(events))
  {
    if events != [] {
      var before, e := events[..|events| - 1], events[|events| - 1];
      HandlersProject(order, s, before);
      if e.HandlerEvent? {
        CH.RunSnoc(order, s.cmd, HandlerTrace(before), e.e);
      } else {
        assert HandlerTrace(events) == HandlerTrace(before);
      }
    }
  }

  lemma {:induction false} SweepsProject(order: seq<int>, s: State, events: seq<Event>)
    ensures Run(order, s, events).board == SH.SweepAll(s.board, SweepTrace(events))
  {
    if events != [] {
      var before, e := events[..|events| - 1], events[|events| - 1];
      SweepsProject(order, s, before);
      if e.Sweep? {
        SweepSnoc(s.board, SweepTrace(before), e.r);
      } else {
        assert SweepTrace(events) == SweepTrace(before);
      }
    }
  }

  /** A mixed run is, for each machine, one of its own runs; so everything proved about those holds here. */
  lemma MixedRunProjects(order: seq<int>, s: State, events: seq<Event>)
    ensures var s' := Run(order, s, events);
            && s'.pay == P.Run(s.pay, PaymentTrace(order, s, events))
            && s'.cmd == C.Run(order, s.cmd, HandlerTrace(events))
            && s'.board == SH.SweepAll(s.board, SweepTrace(events))
  {
    PaymentsProject(order, s, events);
    HandlersProject(order, s, events);
    SweepsProject(order, s, events);
  }

  lemma SweepSnoc(b: Board, rs: seq<Readings>, r: Readings)
    ensures SH.SweepAll(b, rs + [r]) == Swept(SH.SweepAll(b, rs), r)
  {
    assert (rs + [r])[..|rs|] == rs;
  }

  // ---- the invariant file, query by query

  ghost predicate NoDuplicateKey(t: Tables) {
    forall p, q | p in t.payments && q in t.payments && SameKey(t.payments[p], t.payments[q].device, t.payments[q].key) :: p == q
  }

  ghost predicate NoNegativeBalance(t: Tables) {
    forall c | c in t.wallets :: t.wallets[c].balance >= 0
  }

  ghost predicate NoOverconsumption(t: Tables) {
    forall h | h in t.qrs :: t.qrs[h].usageCount <= t.qrs[h].usageLimit
  }

  ghost predicate AtMostOneRow(t: Tables, table: Table) {
    forall j, k | 0 <= j < k < |t.rows| && TableOf(t.rows[j]) == table && TableOf(t.rows[k]) == table ::
      t.rows[j].payment != t.rows[k].payment
  }

  /** command_results is a map on its UNIQUE column; no handler was aborted by it. */
  ghost predicate OneResultPerCommand(s: C.State) {
    forall i | 0 <= i < |s.handlers| :: !s.handlers[i].pc.Violated?
  }

  ghost predicate TerminalWasAcknowledged(b: Book) {
    forall c | c in b.commands && Terminal(b.commands[c]) :: b.commands[c].acknowledgedAt.Some?
  }

  ghost predicate OneHashPerKey(t: Tables) {
    forall p, q | p in t.payments && q in t.payments && SameKey(t.payments[p], t.payments[q].device, t.payments[q].key) ::
      t.payments[p].requestHash == t.payments[q].requestHash
  }

  ghost predicate TerminalStatesAgree(b: Book) {
    forall c | c in b.commands && Terminal(b.commands[c]) ::
      b.commands[c].execution in b.executions
      && b.executions[b.commands[c].execution].status == if b.commands[c].status.Done? then ExecSucceeded else ExecFailed
  }

  predicate CorrectnessKey(key: string) {
    |key| >= 5 && key[..5] == "corr-"
  }

  ghost predicate FullyCommitted(t: Tables) {
    forall p | p in t.payments && CorrectnessKey(t.payments[p].key) && t.payments[p].status.Succeeded? ::
      && (exists r :: r in t.rows && r.StartRight? && r.payment == p)
      && (t.payments[p].paymentMethod.RfCard? ==> exists r :: r in t.rows && r.Debit? && r.payment == p)
  }

  /** Every query of the invariant file returns no row. */
  ghost predicate EveryQueryIsEmpty(s: State) {
    && NoDuplicateKey(s.pay.tables)
    && NoNegativeBalance(s.pay.tables)
    && NoOverconsumption(s.pay.tables)
    && AtMostOneRow(s.pay.tables, StartRights)
    && AtMostOneRow(s.pay.tables, Ledger)
    && OneResultPerCommand(s.cmd)
    && TerminalWasAcknowledged(s.cmd.book)
    && OneOpen(s.board.alarms)
    && OneHashPerKey(s.pay.tables)
    && TerminalStatesAgree(s.cmd.book)
    && FullyCommitted(s.pay.tables)
  }

  lemma PaymentQueries(t: Tables)
    requires TablesOk(t)
    ensures NoDuplicateKey(t) && NoNegativeBalance(t) && NoOverconsumption(t)
    ensures AtMostOneRow(t, StartRights) && AtMostOneRow(t, Ledger) && OneHashPerKey(t)
  {
    assert forall h | h in t.qrs :: QrRowOk(t.qrs[h]);
    assert forall c | c in t.wallets :: WalletRowOk(t.wallets[c]);
    forall j, k | 0 <= j < k < |t.rows| && TableOf(t.rows[j]) == TableOf(t.rows[k])
      ensures TableOf(t.rows[j]) == StartRights || TableOf(t.rows[j]) == Ledger ==> t.rows[j].payment != t.rows[k].payment
    {
      assert !Clash(t.rows[j], t.rows[k]);
    }
  }

  lemma CommandQueries(order: seq<int>, s: C.State)
    requires C.Inv(order, s)
    ensures OneResultPerCommand(s) && TerminalWasAcknowledged(s.book) && TerminalStatesAgree(s.book)
  {
    assert forall c | c in s.book.commands :: CommandOk(s.book, c);
    assert forall i | 0 <= i < |s.handlers| :: C.HandlerOk(s.book, s.handlers[i]);
  }

  lemma {:induction false} RowsOfMember(rows: seq<Row>, table: Table, id: int) returns (r: Row)
    requires PR.RowsOf(rows, table, id) != []
    ensures r in rows && TableOf(r) == table && r.payment == id
  {
    var last := |rows| - 1;
    if TableOf(rows[last]) == table && rows[last].payment == id {
      r := rows[last];
    } else {
      r := RowsOfMember(rows[..last], table, id);
    }
  }

  lemma SeededKeysAreOther(p: F.Profile, g: int)
    requires F.Fits(p) && g in SeededTables(p).payments
    ensures !CorrectnessKey(SeededTables(p).payments[g].key)
  {
    assert SeededKey(g)[0] == 'i' && "corr-"[0] == 'c';
  }

  lemma NewPaymentsFullyCommitted(p: F.Profile, t: Tables)
    requires F.Fits(p) && PR.NewPaymentsComplete(SeededTables(p), t)
    ensures FullyCommitted(t)
  {
    forall g | g in t.payments && CorrectnessKey(t.payments[g].key) && t.payments[g].status.Succeeded?
      ensures exists r :: r in t.rows && r.StartRight? && r.payment == g
      ensures t.payments[g].paymentMethod.RfCard? ==> exists r :: r in t.rows && r.Debit? && r.payment == g
    {
      if g in SeededTables(p).payments {
        SeededKeysAreOther(p, g);
      }
      assert PR.ArtefactsMatch(t.rows, g, t.payments[g]);
      var right := RowsOfMember(t.rows, StartRights, g);
      if t.payments[g].paymentMethod.RfCard? {
        var debit := RowsOfMember(t.rows, Ledger, g);
      }
    }
  }

  lemma {:induction false} SweepsKeepOneOpen(b: Board, rs: seq<Readings>)
    requires OneOpen(b.alarms)
    requires forall k | 0 <= k < |rs| :: Monitoring.Distinct(rs[k].devices) && DistinctIds(rs[k].failing)
    ensures OneOpen(SH.SweepAll(b, rs).alarms)
  {
    if rs != [] {
      SweepsKeepOneOpen(b, rs[..|rs| - 1]);
      SH.SweptKeepsOneOpen(SH.SweepAll(b, rs[..|rs| - 1]), rs[|rs| - 1]);
    }
  }

  lemma {:induction false} SweepTraceOk(events: seq<Event>)
    requires SweepsOk(events)
    ensures var rs := SweepTrace(events);
            forall k | 0 <= k < |rs| :: Monitoring.Distinct(rs[k].devices) && DistinctIds(rs[k].failing)
  {
    if events != [] {
      var before, e := events[..|events| - 1], events[|events| - 1];
      SweepTraceOk(before);
      var rs := SweepTrace(events);
      forall k | 0 <= k < |rs|
        ensures Monitoring.Distinct(rs[k].devices) && DistinctIds(rs[k].failing)
      {
        if k < |SweepTrace(before)| {
          assert rs[k] == SweepTrace(before)[k];
        } else {
          assert e.Sweep? && rs[k] == e.r;
        }
      }
    }
  }

  /** From a fresh seed, every run mixing interleaved payments, polls, acknowledges, results and failures with sweeps run
      one at a time and heartbeats leaves every query of the invariant file empty.  */
  lemma EveryMixedRunIsClean(p: F.Profile, calls: seq<Call>, jobs: seq<Job>, events: seq<Event>)
    requires F.Fits(p) && Textual(p) && SweepsOk(events)
    ensures EveryQueryIsEmpty(Run(SeededOrder(p), Fresh(p, calls, jobs), events))
  {
    var order, s0 := SeededOrder(p), Fresh(p, calls, jobs);
    var s := Run(order, s0, events);
    MixedRunProjects(order, s0, events);
    PaymentsClean(p, calls, PaymentTrace(order, s0, events));
    SeededBookIsReady(p);
    CS.RunKeepsInv(order, SeededBook(p), jobs, HandlerTrace(events));
    CommandQueries(order, s.cmd);
    SweepTraceOk(events);
    SweepsKeepOneOpen(s0.board, SweepTrace(events));
  }

  lemma PaymentsClean(p: F.Profile, calls: seq<Call>, events: seq<P.Event>)
    requires F.Fits(p) && Textual(p)
    ensures var t := P.Run(P.Start(SeededTables(p), SeededSequence(p), calls), events).tables;
            && NoDuplicateKey(t) && NoNegativeBalance(t) && NoOverconsumption(t)
            && AtMostOneRow(t, StartRights) && AtMostOneRow(t, Ledger) && OneHashPerKey(t) && FullyCommitted(t)
  {
    SeedIsReady(p);
    PI.RunKeepsInv(SeededTables(p), SeededSequence(p), calls, events);
    PaymentQueries(P.Run(P.Start(SeededTables(p), SeededSequence(p), calls), events).tables);
    PR.CommittedPaymentsAreComplete(SeededTables(p), SeededSequence(p), calls, events);
    NewPaymentsFullyCommitted(p, P.Run(P.Start(SeededTables(p), SeededSequence(p), calls), events).tables);
  }

  // ---- handlers free bays for payments

  /** No handler moves an execution to another bay. */
  ghost predicate SameBays(b: Book, b': Book) {
    && b.executions.Keys == b'.executions.Keys && b.commands.Keys == b'.commands.Keys
    && (forall e | e in b.executions :: b'.executions[e].bay == b.executions[e].bay)
    && (forall c | c in b.commands :: b'.commands[c].execution == b.commands[c].execution)
  }

  lemma CommitKeepsBays(b: Book, h: C.Handler)
    requires BookOk(b) && C.HandlerOk(b, h) && h.pc.Committing?
    ensures SameBays(b, CS.Committed(b, h))
  {
    CS.CommitIsHandler(b, h);
  }

  lemma {:induction false} BaysStay(order: seq<int>, b: Book, jobs: seq<Job>, events: seq<C.Event>)
    requires CS.Ready(order, b)
    ensures SameBays(b, C.Run(order, C.Start(b, jobs), events).book)
  {
    if events != [] {
      var before, e := events[..|events| - 1], events[|events| - 1];
      var s := C.Run(order, C.Start(b, jobs), before);
      BaysStay(order, b, jobs, before);
      CS.RunKeepsInv(order, b, jobs, before);
      CH.BookChanges(order, s, e);
      if C.Apply(order, s, e).book != s.book {
        CommitKeepsBays(s.book, s.handlers[e.handler]);
      }
    }
  }

  /** Execution, command, device and bay of the seed share one number. */
  lemma SeededBays(p: F.Profile)
    requires F.Fits(p)
    ensures var b := SeededBook(p);
            && (forall e | e in b.executions :: b.executions[e].bay == Some(e))
            && (forall c | c in b.commands :: b.commands[c].execution == c)
  {
    var b := SeededBook(p);
    forall e | e in b.executions
      ensures b.executions[e].bay == Some(e)
    {
      F.BusyPrefix(p, e);
    }
  }

  lemma TerminalFrees(origin: Book, b: Book, g: int)
    requires forall e | e in origin.executions :: origin.executions[e].bay == Some(e)
    requires forall c | c in origin.commands :: origin.commands[c].execution == c
    requires SameBays(origin, b) && TerminalStatesAgree(b)
    requires g in b.commands && Terminal(b.commands[g])
    ensures !CK.Busy(b.executions, g)
  {
  }

  lemma TerminalFreesSeeded(p: F.Profile, jobs: seq<Job>, events: seq<C.Event>, g: int)
    requires F.Fits(p)
    requires var b := C.Run(SeededOrder(p), C.Start(SeededBook(p), jobs), events).book;
             g in b.commands && Terminal(b.commands[g])
    ensures !CK.Busy(C.Run(SeededOrder(p), C.Start(SeededBook(p), jobs), events).book.executions, g)
  {
    var s := C.Run(SeededOrder(p), C.Start(SeededBook(p), jobs), events);
    SeededBookIsReady(p);
    BaysStay(SeededOrder(p), SeededBook(p), jobs, events);
    CS.RunKeepsInv(SeededOrder(p), SeededBook(p), jobs, events);
    CommandQueries(SeededOrder(p), s);
    SeededBays(p);
    TerminalFrees(SeededBook(p), s.book, g);
  }

  /** In every mixed run, once the command of a busy bay is terminal, payments at that bay pass the busy check. */
  lemma AResultFreesItsBay(p: F.Profile, calls: seq<Call>, jobs: seq<Job>, events: seq<Event>, g: int,
                           call: Call, now: Time, t: CK.Terms)
    requires F.Fits(p) && t.bay == g
    requires var b := Run(SeededOrder(p), Fresh(p, calls, jobs), events).cmd.book;
             g in b.commands && Terminal(b.commands[g])
    ensures var s := Run(SeededOrder(p), Fresh(p, calls, jobs), events);
            CK.Check(CK.BayBusy, EnvNow(s), s.pay.tables.qrs, call, now, t) == Success(t)
  {
    HandlersProject(SeededOrder(p), Fresh(p, calls, jobs), events);
    TerminalFreesSeeded(p, jobs, HandlerTrace(events), g);
  }
}
