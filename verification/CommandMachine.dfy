/** Command handlers interleaved statement by statement, under READ COMMITTED.

    Acknowledge and result lock their command row first. Poll reads without a lock and then updates the rows it
    read as PENDING; each UPDATE waits for its row and writes to the latest committed version.  */
module CommandMachine {
  import opened Schema
  import opened CommandLifecycle

  datatype Lock = CommandRow(id: int) | ExecutionRow(id: int)

  datatype Pc =
    | Reading
    | SendingCommand(next: nat)
    | SendingExecution(next: nat)
    | Locking
    | ReadingResult
    | InsertingResult
    | UpdatingCommand
    | UpdatingExecution
    | InsertingEvent
    | Committing
    | Finished(reply: CommandReply)
    | RolledBack
    | Violated

  datatype Handler = Handler(
    job: Job,
    pc: Pc,
    now: Time,
    items: seq<Item>,                 // a poll's answer
    stale: seq<int>,                  // the commands a poll read as PENDING
    // writes not yet committed
    cmds: map<int, Command>,
    execs: map<int, Execution>,
    result: Option<StoredResult>,
    events: seq<ExecutionEvent>)

  datatype State = State(book: Book, handlers: seq<Handler>, locks: map<Lock, nat>)

  datatype Event = Exec(handler: nat, now: Time) | Fault(handler: nat)

  function Begin(job: Job): Handler {
    Handler(job, if job.PollJob? then Reading else Locking, 0, [], [], map[], map[], None, [])
  }

  predicate Ended(h: Handler) {
    h.pc.Finished? || h.pc.RolledBack? || h.pc.Violated?
  }

  function Put(s: State, i: nat, h: Handler): State
    requires i < |s.handlers|
  {
    s.(handlers := s.handlers[i := h])
  }

  function Release(locks: map<Lock, nat>, i: nat): map<Lock, nat> {
    map r | r in locks && locks[r] != i :: locks[r]
  }

  function End(s: State, i: nat, pc: Pc): State
    requires i < |s.handlers|
  {
    Put(s, i, s.handlers[i].(pc := pc, cmds := map[], execs := map[], result := None, events := []))
    .(locks := Release(s.locks, i))
  }

  predicate Blocked(s: State, i: nat, r: Lock) {
    r in s.locks && s.locks[r] != i
  }

  // ---- poll

  function ReadStep(order: seq<int>, s: State, i: nat, clock: Time): State
    requires i < |s.handlers| && s.handlers[i].job.PollJob?
  {
    var h := s.handlers[i];
    var ids := FirstOpen(order, s.book.commands, h.job.device, h.job.limit);
    Put(s, i, h.(
      pc := SendingCommand(0),
      now := clock,
      items := ItemsOf(ids, s.book.commands, clock),
      stale := WaitingOf(ids, s.book.commands)))
  }

  /** UPDATE commands SET status='SENT' WHERE id=...: no guard on the status. */
  function SendCommandStep(s: State, i: nat, next: nat): State
    requires i < |s.handlers|
  {
    var h := s.handlers[i];
    if next >= |h.stale| then Put(s, i, h.(pc := Committing))
    else
      var c := h.stale[next];
      if c !in s.book.commands then Put(s, i, h.(pc := SendingExecution(next)))
      else if Blocked(s, i, CommandRow(c)) then s
      else
        Put(s, i, h.(pc := SendingExecution(next), cmds := h.cmds[c := SentCommand(s.book.commands[c], h.now)]))
        .(locks := s.locks[CommandRow(c) := i])
  }

  /** UPDATE program_executions SET status='COMMAND_SENT' WHERE id=... AND status='CREATED'. */
  function SendExecutionStep(s: State, i: nat, next: nat): State
    requires i < |s.handlers|
  {
    var h := s.handlers[i];
    if next >= |h.stale| || h.stale[next] !in s.book.commands then Put(s, i, h.(pc := SendingCommand(next + 1)))
    else
      var e := s.book.commands[h.stale[next]].execution;
      if e !in s.book.executions || e in h.execs || !s.book.executions[e].status.Created?
      then Put(s, i, h.(pc := SendingCommand(next + 1)))
      else if Blocked(s, i, ExecutionRow(e)) then s
      else
        Put(s, i, h.(pc := SendingCommand(next + 1), execs := h.execs[e := s.book.executions[e].(status := CommandSent)]))
        .(locks := s.locks[ExecutionRow(e) := i])
  }

  // ---- acknowledge and result

  function LockStep(s: State, i: nat, clock: Time): State
    requires i < |s.handlers| && !s.handlers[i].job.PollJob?
  {
    var h := s.handlers[i];
    var c := h.job.command;
    if h.job.ResultJob? && !ValidResult(h.job.report) then End(s, i, Finished(Refusal(InvalidCommandResult)))
    else if !Found(s.book, h.job.device, c) then End(s, i, Finished(Refusal(CommandNotFound)))
    else if Blocked(s, i, CommandRow(c)) then s
    else
      var row := s.book.commands[c];
      if h.job.AckJob? && Open(row) && row.createdAt <= clock - ACKNOWLEDGE_WITHIN then End(s, i, Finished(Refusal(CommandExpired)))
      else if h.job.AckJob? && !Open(row) then End(s, i, Finished(AckReply(row.status)))
      else
        Put(s, i, h.(pc := if h.job.AckJob? then UpdatingCommand else ReadingResult, now := clock))
        .(locks := s.locks[CommandRow(c) := i])
  }

  function ReadResultStep(s: State, i: nat, clock: Time): State
    requires i < |s.handlers| && s.handlers[i].job.ResultJob?
  {
    var h := s.handlers[i];
    var c, r := h.job.command, h.job.report;
    if c in s.book.results then
      var stored := s.book.results[c];
      if stored.key != r.key || stored.requestHash != ResultDigest(r) then End(s, i, Finished(Refusal(ResultConflict)))
      else End(s, i, Finished(ResultReply(stored.status, stored.code)))
    else if c !in s.book.commands || !s.book.commands[c].status.Acknowledged? then End(s, i, Finished(Refusal(CommandNotRunning)))
    else if ResultExpired(s.book.commands[c], clock) then End(s, i, Finished(Refusal(CommandResultExpired)))
    else Put(s, i, h.(pc := InsertingResult, now := clock))
  }

  /** The INSERT meets UNIQUE (command_id), against stored rows and other handlers' pending rows. */
  function InsertResultStep(s: State, i: nat): State
    requires i < |s.handlers| && s.handlers[i].job.ResultJob?
  {
    var h := s.handlers[i];
    var c, r := h.job.command, h.job.report;
    if c in s.book.results
       || exists j | 0 <= j < |s.handlers| ::
         j != i && s.handlers[j].job.ResultJob? && s.handlers[j].job.command == c && s.handlers[j].result.Some?
    then End(s, i, Violated)
    else Put(s, i, h.(pc := UpdatingCommand, result := Some(StoredResult(r.key, ResultDigest(r), StatusOf(r), r.code, r.message, h.now))))
  }

  function UpdatedCommand(job: Job, c: Command, now: Time): Command
    requires !job.PollJob?
  {
    match job
    case AckJob(_, _) => c.(status := Acknowledged, acknowledgedAt := Some(now))
    case ResultJob(_, _, r) => c.(status := StatusOf(r), completedAt := Some(now), resultCode := r.code)
  }

  function UpdatedExecution(job: Job, e: Execution, now: Time): Execution
    requires !job.PollJob?
  {
    match job
    case AckJob(_, _) => e.(status := Running, startedAt := Some(now))
    case ResultJob(_, _, r) => e.(status := ExecutionOutcome(StatusOf(r)), completedAt := Some(now))
  }

  function UpdateCommandStep(s: State, i: nat): State
    requires i < |s.handlers| && !s.handlers[i].job.PollJob?
  {
    var h := s.handlers[i];
    var c := h.job.command;
    if c in s.book.commands
    then Put(s, i, h.(pc := UpdatingExecution, cmds := map[c := UpdatedCommand(h.job, s.book.commands[c], h.now)]))
    else Put(s, i, h.(pc := UpdatingExecution))
  }

  function UpdateExecutionStep(s: State, i: nat): State
    requires i < |s.handlers| && !s.handlers[i].job.PollJob?
  {
    var h := s.handlers[i];
    var next := if h.job.AckJob? then Committing else InsertingEvent;
    if h.job.command !in s.book.commands || s.book.commands[h.job.command].execution !in s.book.executions
    then Put(s, i, h.(pc := next))
    else
      var e := s.book.commands[h.job.command].execution;
      if Blocked(s, i, ExecutionRow(e)) then s
      else
        Put(s, i, h.(pc := next, execs := map[e := UpdatedExecution(h.job, s.book.executions[e], h.now)]))
        .(locks := s.locks[ExecutionRow(e) := i])
  }

  function InsertEventStep(s: State, i: nat): State
    requires i < |s.handlers| && s.handlers[i].job.ResultJob?
  {
    var h := s.handlers[i];
    var r := h.job.report;
    Put(s, i, h.(pc := Committing, events := [ExecutionEvent(h.job.device, h.job.command, StatusOf(r), r.code, h.now)]))
  }

  function Applied(b: Book, h: Handler): Book {
    Book(
      b.commands + h.cmds,
      b.executions + h.execs,
      if h.result.Some? && h.job.ResultJob? then b.results[h.job.command := h.result.value] else b.results,
      b.events + h.events)
  }

  function CommitReply(h: Handler): CommandReply {
    match h.job
    case PollJob(_, _) => Items(h.items)
    case AckJob(_, _) => AckReply(Acknowledged)
    case ResultJob(_, _, r) => ResultReply(StatusOf(r), r.code)
  }

  function Step(order: seq<int>, s: State, i: nat, clock: Time): State
    requires i < |s.handlers|
  {
    var h := s.handlers[i];
    match h.pc
    case Reading => if h.job.PollJob? then ReadStep(order, s, i, clock) else s
    case SendingCommand(next) => SendCommandStep(s, i, next)
    case SendingExecution(next) => SendExecutionStep(s, i, next)
    case Locking => if h.job.PollJob? then s else LockStep(s, i, clock)
    case ReadingResult => if h.job.ResultJob? then ReadResultStep(s, i, clock) else s
    case InsertingResult => if h.job.ResultJob? then InsertResultStep(s, i) else s
    case UpdatingCommand => if h.job.PollJob? then s else UpdateCommandStep(s, i)
    case UpdatingExecution => if h.job.PollJob? then s else UpdateExecutionStep(s, i)
    case InsertingEvent => if h.job.ResultJob? then InsertEventStep(s, i) else s
    case Committing => End(s.(book := Applied(s.book, h)), i, Finished(CommitReply(h)))
    case _ => s
  }

  function Apply(order: seq<int>, s: State, e: Event): State {
    if e.handler >= |s.handlers| then s
    else match e
      case Exec(i, now) => Step(order, s, i, now)
      case Fault(i) => if Ended(s.handlers[i]) then s else End(s, i, RolledBack)
  }

  function Run(order: seq<int>, s: State, events: seq<Event>): State {
    if events == [] then s else Apply(order, Run(order, s, events[..|events| - 1]), events[|events| - 1])
  }

  function Start(b: Book, jobs: seq<Job>): State {
    State(b, seq(|jobs|, i requires 0 <= i < |jobs| => Begin(jobs[i])), map[])
  }

  // ---- the invariant

  function Owned(h: Handler): set<Lock> {
    (set c | c in h.cmds :: CommandRow(c))
    + (set e | e in h.execs :: ExecutionRow(e))
    + (if h.job.PollJob? || h.pc.Locking? || Ended(h) then {} else {CommandRow(h.job.command)})
  }

  /** How many stale commands a poll has updated, and how many executions it has looked at. */
  function SentSoFar(h: Handler): nat {
    match h.pc
    case SendingCommand(k) => k
    case SendingExecution(k) => k + 1
    case Committing => |h.stale|
    case _ => 0
  }

  function TouchedSoFar(h: Handler): nat {
    match h.pc
    case SendingCommand(k) => k
    case SendingExecution(k) => k
    case Committing => |h.stale|
    case _ => 0
  }

  function CreatedOf(b: Book, ids: set<int>): set<int> {
    set c | c in ids && c in b.commands && b.commands[c].execution in b.executions
            && b.executions[b.commands[c].execution].status.Created? :: b.commands[c].execution
  }

  ghost predicate PollOk(b: Book, h: Handler) {
    && (h.pc.Reading? || h.pc.SendingCommand? || h.pc.SendingExecution? || h.pc.Committing?)
    && Sorted(b.commands, h.stale)
    && SentSoFar(h) <= |h.stale|
    && h.cmds.Keys == Ids(h.stale[..SentSoFar(h)])
    && (forall c | c in h.cmds :: h.cmds[c] == SentCommand(b.commands[c], h.now))
    && h.execs.Keys == CreatedOf(b, Ids(h.stale[..TouchedSoFar(h)]))
    && (forall e | e in h.execs :: h.execs[e] == b.executions[e].(status := CommandSent))
    && h.result.None? && h.events == []
    && AllSent(h.items)
  }

  ghost predicate AckOk(b: Book, h: Handler)
    requires h.job.AckJob?
  {
    var c := h.job.command;
    && (h.pc.Locking? || h.pc.UpdatingCommand? || h.pc.UpdatingExecution? || h.pc.Committing?)
    && (!h.pc.Locking? ==>
          Found(b, h.job.device, c) && Open(b.commands[c]) && b.commands[c].createdAt > h.now - ACKNOWLEDGE_WITHIN)
    && WritesOk(b, h)
    && h.result.None? && h.events == []
  }

  ghost predicate WritesOk(b: Book, h: Handler)
    requires !h.job.PollJob?
  {
    var c := h.job.command;
    var updated := h.pc.UpdatingExecution? || h.pc.InsertingEvent? || h.pc.Committing?;
    var executed := h.pc.InsertingEvent? || h.pc.Committing?;
    && (updated ==> c in b.commands && h.cmds == map[c := UpdatedCommand(h.job, b.commands[c], h.now)])
    && (!updated ==> h.cmds == map[])
    && (executed ==> c in b.commands && b.commands[c].execution in b.executions
                     && h.execs == map[b.commands[c].execution := UpdatedExecution(h.job, b.executions[b.commands[c].execution], h.now)])
    && (!executed ==> h.execs == map[])
  }

  ghost predicate ResultOk(b: Book, h: Handler)
    requires h.job.ResultJob?
  {
    var c, r := h.job.command, h.job.report;
    && (h.pc.Locking? || h.pc.ReadingResult? || h.pc.InsertingResult? || h.pc.UpdatingCommand? || h.pc.UpdatingExecution?
        || h.pc.InsertingEvent? || h.pc.Committing?)
    && (!h.pc.Locking? ==> ValidResult(r) && Found(b, h.job.device, c))
    && (!h.pc.Locking? && !h.pc.ReadingResult? ==>
          b.commands[c].status.Acknowledged? && !ResultExpired(b.commands[c], h.now) && c !in b.results)
    && WritesOk(b, h)
    && h.result == (if h.pc.Locking? || h.pc.ReadingResult? || h.pc.InsertingResult? then None
                    else Some(StoredResult(r.key, ResultDigest(r), StatusOf(r), r.code, r.message, h.now)))
    && h.events == (if h.pc.Committing? then [ExecutionEvent(h.job.device, c, StatusOf(r), r.code, h.now)] else [])
  }

  /** The status a report of `result` leads to. */
  predicate Means(result: string, status: CommandStatus) {
    (result == "SUCCESS" && status == Done) || (result == "FAILED" && status == Broken)
  }

  /** An accepted result carries the status the caller asked for, and status and code are the stored ones, under the
      caller's key. An acknowledgement shows a command that is no longer open, a poll only SENT ones.  */
  ghost predicate AnswerOk(b: Book, h: Handler) {
    h.pc.Finished? ==>
      var job, reply := h.job, h.pc.reply;
      && (reply.ResultReply? ==>
            && job.ResultJob? && Means(job.report.result, reply.status)
            && job.command in b.results
            && b.results[job.command].status == reply.status && b.results[job.command].code == reply.code
            && b.results[job.command].key == job.report.key)
      && (reply.AckReply? ==> job.AckJob? && reply.status in {Acknowledged, Done, Broken})
      && (reply.Items? ==> job.PollJob? && AllSent(reply.items))
  }

  ghost predicate AllSent(items: seq<Item>) {
    forall k | 0 <= k < |items| :: items[k].status == Sent
  }

  ghost predicate HandlerOk(b: Book, h: Handler) {
    if Ended(h) then
      && !h.pc.Violated?
      && h.cmds == map[] && h.execs == map[] && h.result.None? && h.events == []
      && AnswerOk(b, h)
    else match h.job
      case PollJob(_, _) => PollOk(b, h)
      case AckJob(_, _) => AckOk(b, h)
      case ResultJob(_, _, _) => ResultOk(b, h)
  }

  ghost predicate LocksOk(s: State) {
    && (forall r | r in s.locks :: s.locks[r] < |s.handlers| && r in Owned(s.handlers[s.locks[r]]))
    && (forall i, r | 0 <= i < |s.handlers| && r in Owned(s.handlers[i]) :: r in s.locks && s.locks[r] == i)
  }

  /** A stored result is what some report said. */
  ghost predicate StoredAs(stored: StoredResult, r: Report) {
    && Means(r.result, stored.status) && stored.code == r.code && stored.message == r.message && stored.key == r.key
    && stored.requestHash == ResultDigest(r)
  }

  ghost predicate DigestsOk(b: Book) {
    forall c | c in b.results :: exists r: Report :: StoredAs(b.results[c], r)
  }

  ghost predicate Inv(order: seq<int>, s: State) {
    && BookOk(s.book) && DigestsOk(s.book)
    && OrderOk(order, s.book.commands)
    && LocksOk(s)
    && forall i | 0 <= i < |s.handlers| :: HandlerOk(s.book, s.handlers[i])
  }
}
