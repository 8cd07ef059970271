/** The three command handlers, each running alone: poll, acknowledge, result. */
module CommandLifecycle {
  import opened Schema

  const ACKNOWLEDGE_WITHIN: Time := 30 * SECOND
  const RESULT_WITHIN: Time := 120 * SECOND

  datatype CommandStatus = Waiting | Sent | Acknowledged | Done | Broken   // PENDING, SENT, ACKNOWLEDGED, SUCCESS, FAILED

  datatype Command = Command(
    device: int,
    execution: int,
    status: CommandStatus,
    createdAt: Time,
    sentAt: Option<Time>,
    acknowledgedAt: Option<Time>,
    completedAt: Option<Time>,
    resultCode: Option<string>)

  datatype StoredResult = StoredResult(
    key: string,
    requestHash: Digest,
    status: CommandStatus,
    code: Option<string>,
    message: Option<string>,
    at: Time)

  datatype ExecutionEvent = ExecutionEvent(device: int, command: int, status: CommandStatus, code: Option<string>, at: Time)

  datatype Book = Book(
    commands: map<int, Command>,
    executions: map<int, Execution>,
    results: map<int, StoredResult>,          // command_id (UNIQUE) -> result
    events: seq<ExecutionEvent>)

  datatype CommandError =
    | CommandNotFound
    | CommandExpired
    | InvalidCommandResult
    | ResultConflict
    | CommandNotRunning
    | CommandResultExpired

  datatype Item = Item(command: int, status: CommandStatus, sentAt: Option<Time>)

  datatype CommandReply =
    | Items(items: seq<Item>)
    | AckReply(status: CommandStatus)
    | ResultReply(status: CommandStatus, code: Option<string>)
    | Refusal(error: CommandError)

  /** A result as the device reports it. */
  datatype Report = Report(result: string, code: Option<string>, message: Option<string>, key: string)

  predicate Open(c: Command) {
    c.status.Waiting? || c.status.Sent?
  }

  predicate Terminal(c: Command) {
    c.status.Done? || c.status.Broken?
  }

  // ---- poll

  /** SELECT ... WHERE device_id AND status IN ('PENDING','SENT') ORDER BY created_at, id; `order` is that index. */
  function OpenIds(order: seq<int>, commands: map<int, Command>, device: int): (r: seq<int>)
    ensures forall c | c in r :: c in order && c in commands && commands[c].device == device && Open(commands[c])
  {
    if order == [] then []
    else
      var c := order[0];
      (if c in commands && commands[c].device == device && Open(commands[c]) then [c] else [])
      + OpenIds(order[1..], commands, device)
  }

  function FirstOpen(order: seq<int>, commands: map<int, Command>, device: int, limit: nat): (r: seq<int>)
    ensures forall c | c in r :: c in order && c in commands && commands[c].device == device && Open(commands[c])
  {
    var ids := OpenIds(order, commands, device);
    if |ids| <= limit then ids else ids[..limit]
  }

  function WaitingOf(ids: seq<int>, commands: map<int, Command>): (r: seq<int>)
    ensures forall c | c in r :: c in ids && c in commands && commands[c].status.Waiting?
  {
    if ids == [] then []
    else (if ids[0] in commands && commands[ids[0]].status.Waiting? then [ids[0]] else []) + WaitingOf(ids[1..], commands)
  }

  function SentCommand(c: Command, now: Time): Command {
    c.(status := Sent, sentAt := Some(now))
  }

  /** UPDATE commands SET status='SENT' for each of `ids`, and its execution from CREATED to COMMAND_SENT. */
  function MarkSent(b: Book, ids: set<int>, now: Time): Book {
    var touched := set c | c in ids && c in b.commands :: b.commands[c].execution;
    b.(
    commands := map c | c in b.commands :: if c in ids then SentCommand(b.commands[c], now) else b.commands[c],
    executions := map e | e in b.executions ::
      if e in touched && b.executions[e].status.Created? then b.executions[e].(status := CommandSent) else b.executions[e])
  }

  function Ids(s: seq<int>): set<int> {
    set c | c in s
  }

  function ItemsOf(ids: seq<int>, commands: map<int, Command>, now: Time): seq<Item>
    requires forall k | 0 <= k < |ids| :: ids[k] in commands
  {
    seq(|ids|, k requires 0 <= k < |ids| => ItemOf(ids[k], commands[ids[k]], now))
  }

  function ItemOf(id: int, c: Command, now: Time): Item {
    if c.status.Waiting? then Item(id, Sent, Some(now)) else Item(id, c.status, c.sentAt)
  }

  function Poll(order: seq<int>, b: Book, device: int, limit: nat, now: Time): (Book, CommandReply) {
    var ids := FirstOpen(order, b.commands, device, limit);
    (MarkSent(b, Ids(WaitingOf(ids, b.commands)), now), Items(ItemsOf(ids, b.commands, now)))
  }

  // ---- acknowledge

  predicate Found(b: Book, device: int, command: int) {
    command in b.commands && b.commands[command].device == device
  }

  /** The two updates of an acknowledgement. */
  function MarkAcknowledged(b: Book, command: int, now: Time): Book
    requires command in b.commands
  {
    var e := b.commands[command].execution;
    b.(
    commands := b.commands[command := b.commands[command].(status := Acknowledged, acknowledgedAt := Some(now))],
    executions := if e in b.executions then b.executions[e := b.executions[e].(status := Running, startedAt := Some(now))]
      else b.executions)
  }

  function Acknowledge(b: Book, device: int, command: int, now: Time): (Book, CommandReply) {
    if !Found(b, device, command) then (b, Refusal(CommandNotFound))
    else
      var c := b.commands[command];
      if Open(c) && c.createdAt <= now - ACKNOWLEDGE_WITHIN then (b, Refusal(CommandExpired))
      else if Open(c) then (MarkAcknowledged(b, command, now), AckReply(Acknowledged))
      else (b, AckReply(c.status))
  }

  // ---- result

  function Shown(text: Option<string>): string {
    text.GetOr("None")
  }

  function ResultDigest(r: Report): Digest {
    Digest(r.result + ":" + Shown(r.code) + ":" + Shown(r.message))
  }

  predicate ValidResult(r: Report) {
    r.result == "SUCCESS" || r.result == "FAILED"
  }

  function StatusOf(r: Report): CommandStatus {
    if r.result == "SUCCESS" then Done else Broken
  }

  function ExecutionOutcome(status: CommandStatus): ExecutionStatus {
    if status.Done? then ExecSucceeded else ExecFailed
  }

  function MarkCompleted(b: Book, device: int, command: int, r: Report, now: Time): Book
    requires command in b.commands
  {
    var e := b.commands[command].execution;
    var status := StatusOf(r);
    Book(
      b.commands[command := b.commands[command].(status := status, completedAt := Some(now), resultCode := r.code)],
      if e in b.executions
      then b.executions[e := b.executions[e].(status := ExecutionOutcome(status), completedAt := Some(now))]
      else b.executions,
      b.results[command := StoredResult(r.key, ResultDigest(r), status, r.code, r.message, now)],
      b.events + [ExecutionEvent(device, command, status, r.code, now)])
  }

  predicate ResultExpired(c: Command, now: Time) {
    c.acknowledgedAt.Some? && c.acknowledgedAt.value <= now - RESULT_WITHIN
  }

  function ApplyResult(b: Book, device: int, command: int, r: Report, now: Time): (Book, CommandReply) {
    if !ValidResult(r) then (b, Refusal(InvalidCommandResult))
    else if !Found(b, device, command) then (b, Refusal(CommandNotFound))
    else if command in b.results then
      var stored := b.results[command];
      if stored.key != r.key || stored.requestHash != ResultDigest(r) then (b, Refusal(ResultConflict))
      else (b, ResultReply(stored.status, stored.code))
    else if !b.commands[command].status.Acknowledged? then (b, Refusal(CommandNotRunning))
    else if ResultExpired(b.commands[command], now) then (b, Refusal(CommandResultExpired))
    else (MarkCompleted(b, device, command, r, now), ResultReply(StatusOf(r), r.code))
  }

  /** Equal digests come from equal outcomes: SUCCESS and FAILED differ in their first character. For code
      and message see DigestRecoversExactly.  */
  lemma DigestFixesResult(r: Report, r': Report)
    requires ValidResult(r) && ValidResult(r') && ResultDigest(r) == ResultDigest(r')
    ensures r.result == r'.result
  {
    var raw, raw' := ResultDigest(r).preimage, ResultDigest(r').preimage;
    assert raw[0] == r.result[0] && raw'[0] == r'.result[0];
  }

  /** The text after the result: code and message as they are shown, joined by a colon. */
  function Joined(r: Report): string {
    Shown(r.code) + ":" + Shown(r.message)
  }

  /** Valid reports have one digest exactly when they agree on the result and on the joined text. */
  lemma SameDigestExactly(r: Report, r': Report)
    requires ValidResult(r) && ValidResult(r')
    ensures ResultDigest(r) == ResultDigest(r') <==> r.result == r'.result && Joined(r) == Joined(r')
  {
    Regroup(r.result, Shown(r.code), Shown(r.message));
    Regroup(r'.result, Shown(r'.code), Shown(r'.message));
    if ResultDigest(r) == ResultDigest(r') {
      DigestFixesResult(r, r');
      var head := r.result + ":";
      assert (head + Joined(r))[|head|..] == Joined(r) && (head + Joined(r'))[|head|..] == Joined(r');
    }
  }

  lemma Regroup(result: string, code: string, message: string)
    ensures result + ":" + code + ":" + message == result + ":" + (code + ":" + message)
  {
  }

  /** The shown text has no colon and is not the text that stands for a missing one. */
  predicate Clear(text: Option<string>) {
    Shown(text) != "None" && ':' !in Shown(text)
  }

  predicate Recoverable(r: Report) {
    Clear(r.code) && Clear(r.message)
  }

  lemma ColonPlace(a: string, b: string, p: nat)
    requires ':' !in a && ':' !in b && p < |a + ":" + b|
    ensures (a + ":" + b)[p] == ':' ==> p == |a|
  {
    if p < |a| {
      assert (a + ":" + b)[p] == a[p] && a[p] in a;
    } else if p > |a| {
      assert (a + ":" + b)[p] == b[p - |a| - 1] && b[p - |a| - 1] in b;
    }
  }

  /** Two texts around the only colon are fixed by the whole. */
  lemma OneColon(a: string, b: string, c: string, d: string)
    requires a + ":" + b == c + ":" + d && ':' !in a && ':' !in b
    ensures a == c && b == d
  {
    var whole := a + ":" + b;
    assert (c + ":" + d)[|c|] == ':';
    ColonPlace(a, b, |c|);
    assert whole[..|a|] == a && (c + ":" + d)[..|a|] == c;
    assert whole[|a| + 1..] == b && (c + ":" + d)[|a| + 1..] == d;
  }

  lemma ClearIsFixed(r: Report, r': Report)
    requires Recoverable(r) && Joined(r) == Joined(r')
    ensures r.code == r'.code && r.message == r'.message
  {
    OneColon(Shown(r.code), Shown(r.message), Shown(r'.code), Shown(r'.message));
  }

  /** The report with a missing text spelt out, or the spelt-out text missing. */
  function Respelt(text: Option<string>): (other: Option<string>)
    requires Shown(text) == "None"
    ensures Shown(other) == "None" && other != text && |Shown(other)| == 4
  {
    if text.None? then Some("None") else None
  }

  /** A report that is not recoverable shares its digest with one that has another code or message. */
  lemma AnotherReading(r: Report) returns (other: Report)
    requires ValidResult(r) && !Recoverable(r)
    ensures ValidResult(other) && other.key == r.key && other.result == r.result && Joined(other) == Joined(r)
    ensures other.code != r.code || other.message != r.message
  {
    var code, message := Shown(r.code), Shown(r.message);
    if code == "None" {
      return r.(code := Respelt(r.code));
    }
    if message == "None" {
      return r.(message := Respelt(r.message));
    }
    if ':' in code {
      var j :| 0 <= j < |code| && code[j] == ':';
      other := r.(code := Some(code[..j]), message := Some(code[j + 1..] + ":" + message));
      assert code == code[..j] + ":" + code[j + 1..];
      Resplit(code[..j], code[j + 1..], message);
    } else {
      var j :| 0 <= j < |message| && message[j] == ':';
      other := r.(code := Some(code + ":" + message[..j]), message := Some(message[j + 1..]));
      assert message == message[..j] + ":" + message[j + 1..];
      Resplit(code, message[..j], message[j + 1..]);
    }
  }

  lemma Resplit(a: string, b: string, c: string)
    ensures a + ":" + (b + ":" + c) == (a + ":" + b) + ":" + c
  {
  }

  /** The digest of a report fixes its code and message exactly when both are present, neither is the text "None", and
      neither holds a colon.  */
  lemma DigestRecoversExactly(r: Report)
    requires ValidResult(r)
    ensures (forall r': Report | ValidResult(r') && ResultDigest(r') == ResultDigest(r) :: r'.code == r.code && r'.message == r.message)
            <==> Recoverable(r)
  {
    if Recoverable(r) {
      forall r': Report | ValidResult(r') && ResultDigest(r') == ResultDigest(r)
        ensures r'.code == r.code && r'.message == r.message
      {
        SameDigestExactly(r, r');
        ClearIsFixed(r, r');
      }
    } else {
      var other := AnotherReading(r);
      SameDigestExactly(r, other);
    }
  }

  // ---- the same among reports whose texts are limited, as Python's endpoint limits them

  predicate Fits(text: Option<string>, limit: nat) {
    text.Some? ==> |text.value| <= limit
  }

  predicate FitsLimits(r: Report, codeLimit: nat, messageLimit: nat) {
    Fits(r.code, codeLimit) && Fits(r.message, messageLimit)
  }

  /** A colon of the joined text that could be the one between code and message. */
  predicate Divides(joined: string, p: int, codeLimit: nat, messageLimit: nat) {
    0 <= p < |joined| && joined[p] == ':' && p <= codeLimit && |joined| - p - 1 <= messageLimit
  }

  /** Both texts spelt out, and only the separator itself divides them within the limits. */
  predicate RecoverableWithin(r: Report, codeLimit: nat, messageLimit: nat) {
    && Shown(r.code) != "None" && Shown(r.message) != "None"
    && forall p | 0 <= p < |Joined(r)| && Divides(Joined(r), p, codeLimit, messageLimit) :: p == |Shown(r.code)|
  }

  lemma DivideParts(r: Report)
    ensures var j, p := Joined(r), |Shown(r.code)|;
            p < |j| && j[p] == ':' && j[..p] == Shown(r.code) && j[p + 1..] == Shown(r.message)
  {
  }

  /** Among the valid reports within limits of at least four characters (Python: 64 and 500), the digest of one fixes its
      code and message exactly when neither text is "None" and no other colon divides the joined text within them.  */
  lemma DigestRecoversWithin(r: Report, codeLimit: nat, messageLimit: nat)
    requires ValidResult(r) && FitsLimits(r, codeLimit, messageLimit) && codeLimit >= 4 && messageLimit >= 4
    ensures (forall r': Report | ValidResult(r') && FitsLimits(r', codeLimit, messageLimit) && ResultDigest(r') == ResultDigest(r) ::
               r'.code == r.code && r'.message == r.message)
            <==> RecoverableWithin(r, codeLimit, messageLimit)
  {
    DivideParts(r);
    if RecoverableWithin(r, codeLimit, messageLimit) {
      forall r': Report | ValidResult(r') && FitsLimits(r', codeLimit, messageLimit) && ResultDigest(r') == ResultDigest(r)
        ensures r'.code == r.code && r'.message == r.message
      {
        SameDigestExactly(r, r');
        DivideParts(r');
        assert Divides(Joined(r), |Shown(r'.code)|, codeLimit, messageLimit);
      }
    } else {
      var other := AnotherFittingReading(r, codeLimit, messageLimit);
      SameDigestExactly(r, other);
    }
  }

  lemma AnotherFittingReading(r: Report, codeLimit: nat, messageLimit: nat) returns (other: Report)
    requires ValidResult(r) && FitsLimits(r, codeLimit, messageLimit) && codeLimit >= 4 && messageLimit >= 4
    requires !RecoverableWithin(r, codeLimit, messageLimit)
    ensures ValidResult(other) && FitsLimits(other, codeLimit, messageLimit)
    ensures other.result == r.result && Joined(other) == Joined(r) && (other.code != r.code || other.message != r.message)
  {
    if Shown(r.code) == "None" {
      return r.(code := Respelt(r.code));
    }
    if Shown(r.message) == "None" {
      return r.(message := Respelt(r.message));
    }
    var joined := Joined(r);
    var p :| 0 <= p < |joined| && Divides(joined, p, codeLimit, messageLimit) && p != |Shown(r.code)|;
    other := r.(code := Some(joined[..p]), message := Some(joined[p + 1..]));
    assert joined == joined[..p] + ":" + joined[p + 1..];
  }

  /** `b` holds the result of `command` as report `r` brought it. */
  ghost predicate StoredFrom(b: Book, device: int, command: int, r: Report) {
    && ValidResult(r) && Found(b, device, command) && command in b.results
    && b.results[command].key == r.key && b.results[command].requestHash == ResultDigest(r)
  }

  /** Once a result is stored, another report is answered as its replay exactly when key, result and joined text agree;
      every other valid report is a conflict.  */
  lemma ReplayedExactly(b: Book, device: int, command: int, r: Report, r': Report, now: Time)
    requires StoredFrom(b, device, command, r) && ValidResult(r')
    ensures ApplyResult(b, device, command, r', now) ==
            (b, if r'.key == r.key && r'.result == r.result && Joined(r') == Joined(r)
                then ResultReply(b.results[command].status, b.results[command].code)
                else Refusal(ResultConflict))
  {
    SameDigestExactly(r, r');
  }

  /** So a stored result is replayed to no report but its own exactly when that report is recoverable: otherwise one with
      another code or message is answered with success and the stored code, not with a conflict.  */
  lemma OnlyItselfIsReplayedExactly(b: Book, device: int, command: int, r: Report, now: Time)
    requires StoredFrom(b, device, command, r)
    ensures (forall r': Report | ValidResult(r') && ApplyResult(b, device, command, r', now).1.ResultReply? :: r' == r)
            <==> Recoverable(r)
  {
    if Recoverable(r) {
      forall r': Report | ValidResult(r') && ApplyResult(b, device, command, r', now).1.ResultReply?
        ensures r' == r
      {
        ReplayedExactly(b, device, command, r, r', now);
        ClearIsFixed(r, r');
      }
    } else {
      var other := AnotherReading(r);
      ReplayedExactly(b, device, command, r, other, now);
    }
  }

  // ---- what the stored rows always satisfy

  ghost predicate OneCommandPerExecution(b: Book) {
    && (forall c | c in b.commands :: b.commands[c].execution in b.executions)
    && (forall c, c' | c in b.commands && c' in b.commands && b.commands[c].execution == b.commands[c'].execution :: c == c')
  }

  ghost predicate CommandOk(b: Book, id: int)
    requires id in b.commands
  {
    var c := b.commands[id];
    && (c.acknowledgedAt.Some? ==> c.acknowledgedAt.value < c.createdAt + ACKNOWLEDGE_WITHIN)
    && (c.status.Acknowledged? ==> c.acknowledgedAt.Some?)
    && (Terminal(c) ==>
          && c.acknowledgedAt.Some?
          && c.execution in b.executions
          && b.executions[c.execution].status == (if c.status == Done then ExecSucceeded else ExecFailed)
          && id in b.results && b.results[id].status == c.status
          && c.completedAt.Some? && c.completedAt.value < c.createdAt + ACKNOWLEDGE_WITHIN + RESULT_WITHIN)
  }

  ghost predicate BookOk(b: Book) {
    && OneCommandPerExecution(b)
    && (forall id | id in b.commands :: CommandOk(b, id))
    && (forall id | id in b.results :: id in b.commands && (b.results[id].status.Done? || b.results[id].status.Broken?))
  }

  lemma MarkSentKeepsBook(b: Book, ids: set<int>, now: Time)
    requires BookOk(b)
    ensures BookOk(MarkSent(b, ids, now))
  {
    var b' := MarkSent(b, ids, now);
    forall id | id in b'.commands
      ensures CommandOk(b', id)
    {
      assert CommandOk(b, id);
    }
  }

  lemma MarkAcknowledgedKeepsBook(b: Book, command: int, now: Time)
    requires BookOk(b) && command in b.commands && Open(b.commands[command])
    requires b.commands[command].createdAt > now - ACKNOWLEDGE_WITHIN
    ensures BookOk(MarkAcknowledged(b, command, now))
  {
    var b' := MarkAcknowledged(b, command, now);
    forall id | id in b'.commands
      ensures CommandOk(b', id)
    {
      assert CommandOk(b, id);
    }
  }

  lemma MarkCompletedKeepsBook(b: Book, device: int, command: int, r: Report, now: Time)
    requires BookOk(b) && command in b.commands && b.commands[command].status.Acknowledged?
    requires !ResultExpired(b.commands[command], now)
    ensures BookOk(MarkCompleted(b, device, command, r, now))
  {
    var b' := MarkCompleted(b, device, command, r, now);
    forall id | id in b'.commands
      ensures CommandOk(b', id)
    {
      assert CommandOk(b, id);
    }
  }

  // ---- handlers one at a time

  datatype Job =
    | PollJob(device: int, limit: nat)
    | AckJob(device: int, command: int)
    | ResultJob(device: int, command: int, report: Report)

  function Handle(order: seq<int>, b: Book, job: Job, now: Time): (Book, CommandReply) {
    match job
    case PollJob(device, limit) => Poll(order, b, device, limit, now)
    case AckJob(device, command) => Acknowledge(b, device, command, now)
    case ResultJob(device, command, report) => ApplyResult(b, device, command, report, now)
  }

  /** The only (command, execution) pairs a run of whole handlers reaches. */
  predicate PairOk(c: CommandStatus, e: ExecutionStatus) {
    match c
    case Waiting => e.Created?
    case Sent => e.CommandSent?
    case Acknowledged => e.Running?
    case Done => e.ExecSucceeded?
    case Broken => e.ExecFailed?
  }

  ghost predicate InStep(b: Book) {
    && BookOk(b)
    && (forall id | id in b.commands :: PairOk(b.commands[id].status, b.executions[b.commands[id].execution].status))
    && (forall id | id in b.results :: Terminal(b.commands[id]))
  }

  function Stage(status: CommandStatus): nat {
    match status
    case Waiting => 0
    case Sent => 1
    case Acknowledged => 2
    case _ => 3
  }

  ghost predicate Forward(b: Book, b': Book) {
    && b.commands.Keys == b'.commands.Keys
    && forall id | id in b.commands :: b'.commands[id].status == b.commands[id].status
                                       || Stage(b.commands[id].status) < Stage(b'.commands[id].status)
  }

  lemma PollKeepsInStep(order: seq<int>, b: Book, device: int, limit: nat, now: Time)
    requires InStep(b)
    ensures InStep(Poll(order, b, device, limit, now).0) && Forward(b, Poll(order, b, device, limit, now).0)
  {
    var ids := Ids(WaitingOf(FirstOpen(order, b.commands, device, limit), b.commands));
    MarkSentKeepsBook(b, ids, now);
    var b' := MarkSent(b, ids, now);
    forall id | id in b'.commands
      ensures PairOk(b'.commands[id].status, b'.executions[b'.commands[id].execution].status)
    {
      assert PairOk(b.commands[id].status, b.executions[b.commands[id].execution].status);
    }
  }

  lemma AcknowledgeKeepsInStep(b: Book, device: int, command: int, now: Time)
    requires InStep(b)
    ensures InStep(Acknowledge(b, device, command, now).0) && Forward(b, Acknowledge(b, device, command, now).0)
  {
    if Found(b, device, command) && Open(b.commands[command]) && b.commands[command].createdAt > now - ACKNOWLEDGE_WITHIN {
      MarkAcknowledgedKeepsBook(b, command, now);
    }
  }

  lemma ResultKeepsInStep(b: Book, device: int, command: int, r: Report, now: Time)
    requires InStep(b)
    ensures InStep(ApplyResult(b, device, command, r, now).0) && Forward(b, ApplyResult(b, device, command, r, now).0)
  {
    if Found(b, device, command) && b.commands[command].status.Acknowledged? && !ResultExpired(b.commands[command], now) {
      MarkCompletedKeepsBook(b, device, command, r, now);
    }
  }

  lemma HandleKeepsInStep(order: seq<int>, b: Book, job: Job, now: Time)
    requires InStep(b)
    ensures InStep(Handle(order, b, job, now).0) && Forward(b, Handle(order, b, job, now).0)
  {
    match job
    case PollJob(device, limit) => PollKeepsInStep(order, b, device, limit, now);
    case AckJob(device, command) => AcknowledgeKeepsInStep(b, device, command, now);
    case ResultJob(device, command, report) => ResultKeepsInStep(b, device, command, report, now);
  }

  ghost function HandleAll(order: seq<int>, b: Book, jobs: seq<(Job, Time)>): Book {
    if jobs == [] then b
    else
      var (job, now) := jobs[|jobs| - 1];
      Handle(order, HandleAll(order, b, jobs[..|jobs| - 1]), job, now).0
  }

  lemma {:induction false} StaysInStep(order: seq<int>, b: Book, jobs: seq<(Job, Time)>)
    requires InStep(b)
    ensures InStep(HandleAll(order, b, jobs))
  {
    if jobs != [] {
      var last := |jobs| - 1;
      StaysInStep(order, b, jobs[..last]);
      HandleKeepsInStep(order, HandleAll(order, b, jobs[..last]), jobs[last].0, jobs[last].1);
    }
  }

  /** One at a time: command and execution stay in step, no status goes back, and a terminal command was completed
      less than 150 s after its creation.  */
  lemma {:induction false} OneAtATime(order: seq<int>, b: Book, past: seq<(Job, Time)>, future: seq<(Job, Time)>)
    requires InStep(b)
    ensures var b1, b2 := HandleAll(order, b, past), HandleAll(order, b, past + future);
            && InStep(b2) && Forward(b1, b2)
            && forall id | id in b2.commands && Terminal(b2.commands[id]) ::
                 b2.commands[id].completedAt.Some? && b2.commands[id].completedAt.value < b2.commands[id].createdAt + 150 * SECOND
  {
    StaysInStep(order, b, past + future);
    if future == [] {
      assert past + future == past;
    } else {
      var last := |future| - 1;
      assert (past + future)[..|past| + last] == past + future[..last];
      OneAtATime(order, b, past, future[..last]);
      HandleKeepsInStep(order, HandleAll(order, b, past + future[..last]), future[last].0, future[last].1);
    }
    var b2 := HandleAll(order, b, past + future);
    assert forall id | id in b2.commands :: CommandOk(b2, id);
  }

  /** A poll moves exactly the PENDING commands among the first `limit` open ones of its device. */
  lemma PollSendsExactly(order: seq<int>, b: Book, device: int, limit: nat, now: Time, id: int)
    requires id in b.commands
    ensures var b' := Poll(order, b, device, limit, now).0;
            var sent := id in FirstOpen(order, b.commands, device, limit) && b.commands[id].status.Waiting?;
            b'.commands[id] == if sent then SentCommand(b.commands[id], now) else b.commands[id]
  {
    WaitingOfExactly(FirstOpen(order, b.commands, device, limit), b.commands, id);
  }

  lemma {:induction false} WaitingOfExactly(ids: seq<int>, commands: map<int, Command>, id: int)
    ensures id in WaitingOf(ids, commands) <==> id in ids && id in commands && commands[id].status.Waiting?
  {
    if ids != [] {
      WaitingOfExactly(ids[1..], commands, id);
    }
  }

  // ---- the ORDER BY

  /** The key (created_at, id). */
  predicate Before(commands: map<int, Command>, c: int, c': int)
    requires c in commands && c' in commands
  {
    commands[c].createdAt < commands[c'].createdAt || (commands[c].createdAt == commands[c'].createdAt && c < c')
  }

  ghost predicate Sorted(commands: map<int, Command>, ids: seq<int>) {
    && (forall c | c in ids :: c in commands)
    && forall j, k | 0 <= j < k < |ids| :: Before(commands, ids[j], ids[k])
  }

  /** `order` lists every command once, by (created_at, id). */
  ghost predicate OrderOk(order: seq<int>, commands: map<int, Command>) {
    Sorted(commands, order) && forall c | c in commands :: c in order
  }

  lemma {:induction false} OpenIdsExactly(order: seq<int>, commands: map<int, Command>, device: int)
    requires Sorted(commands, order)
    ensures Sorted(commands, OpenIds(order, commands, device))
    ensures forall c | c in order && commands[c].device == device && Open(commands[c]) :: c in OpenIds(order, commands, device)
  {
    if order != [] {
      assert forall c | c in order[1..] :: c in order;
      OpenIdsExactly(order[1..], commands, device);
      var rest := OpenIds(order[1..], commands, device);
      forall k | 0 <= k < |rest|
        ensures Before(commands, order[0], rest[k])
      {
        assert rest[k] in rest && rest[k] in order[1..];
        var j :| 0 <= j < |order[1..]| && order[1..][j] == rest[k];
        assert order[j + 1] == rest[k];
      }
    }
  }

  /** A poll's list is the first `limit` open commands of the device in (created_at, id) order: it is sorted, and an
      open command that is left out comes after every listed one, in a list that is already full.  */
  lemma FirstOpenExactly(order: seq<int>, commands: map<int, Command>, device: int, limit: nat)
    requires OrderOk(order, commands)
    ensures var ids := FirstOpen(order, commands, device, limit);
            && Sorted(commands, ids) && |ids| <= limit
            && forall c | c in commands && commands[c].device == device && Open(commands[c]) && c !in ids ::
                 |ids| == limit && forall k | 0 <= k < |ids| :: Before(commands, ids[k], c)
  {
    OpenIdsExactly(order, commands, device);
    var all := OpenIds(order, commands, device);
    var ids := FirstOpen(order, commands, device, limit);
    forall c | c in commands && commands[c].device == device && Open(commands[c]) && c !in ids
      ensures |ids| == limit && forall k | 0 <= k < |ids| :: Before(commands, ids[k], c)
    {
      assert forall k | 0 <= k < |ids| :: ids[k] == all[k] && ids[k] in ids;
      var m :| 0 <= m < |all| && all[m] == c;
    }
  }

  lemma {:induction false} WaitingOfSorted(ids: seq<int>, commands: map<int, Command>)
    requires Sorted(commands, ids)
    ensures Sorted(commands, WaitingOf(ids, commands))
  {
    if ids != [] {
      assert forall c | c in ids[1..] :: c in ids;
      WaitingOfSorted(ids[1..], commands);
      var rest := WaitingOf(ids[1..], commands);
      forall k | 0 <= k < |rest|
        ensures Before(commands, ids[0], rest[k])
      {
        assert rest[k] in rest && rest[k] in ids[1..];
        var j :| 0 <= j < |ids[1..]| && ids[1..][j] == rest[k];
        assert ids[j + 1] == rest[k];
      }
    }
  }
}

/** The handlers as they update the tables, row by row. */
module CommandHandlers {
  import opened Schema
  import opened CommandLifecycle

  class CommandStore {
    const order: seq<int>
    var commands: map<int, Command>
    var executions: map<int, Execution>
    var results: map<int, StoredResult>
    var events: seq<ExecutionEvent>

    constructor (order: seq<int>, b: Book)
      ensures this.order == order && Contents() == b
    {
      this.order := order;
      commands, executions, results, events := b.commands, b.executions, b.results, b.events;
    }

    function Contents(): Book
      reads this
    {
      Book(commands, executions, results, events)
    }

    /** The two UPDATE statements of the loop: the second has the guard status='CREATED'. */
    method UpdateSent(id: int, execution: int, now: Time)
      requires id in commands
      modifies this`commands, this`executions
      ensures commands == old(commands)[id := SentCommand(old(commands)[id], now)]
      ensures executions == if execution in old(executions) && old(executions)[execution].status.Created?
                            then old(executions)[execution := old(executions)[execution].(status := CommandSent)] else old(executions)
    {
      commands := commands[id := commands[id].(status := Sent, sentAt := Some(now))];
      if execution in executions && executions[execution].status.Created? {
        executions := executions[execution := executions[execution].(status := CommandSent)];
      }
    }

    /** One turn of the loop. */
    method SendRow(ghost before: Book, ghost rows: seq<int>, ghost k: nat, id: int, now: Time) returns (item: Item)
      requires OneCommandPerExecution(before) && Sorted(before.commands, rows) && k < |rows| && rows[k] == id
      requires Contents() == Marked(before, rows, k, now)
      modifies this`commands, this`executions
      ensures Contents() == Marked(before, rows, k + 1, now)
      ensures item == ItemOf(id, before.commands[id], now)
    {
      MarkNext(before, rows, k, now);
      var row := commands[id];
      if row.status.Waiting? {
        UpdateSent(id, row.execution, now);
        row := row.(status := Sent, sentAt := Some(now));
      }
      return Item(id, row.status, row.sentAt);
    }

    method PendingCommands(device: int, limit: nat, now: Time) returns (reply: CommandReply)
      requires OneCommandPerExecution(Contents()) && OrderOk(order, commands)
      modifies this
      ensures (Contents(), reply) == Poll(order, old(Contents()), device, limit, now)
    {
      var rows := FirstOpen(order, commands, device, limit);
      FirstOpenExactly(order, commands, device, limit);
      ghost var before := Contents();
      var items: seq<Item> := [];
      MarkedNone(before, rows, now);
      for k := 0 to |rows|
        invariant Contents() == Marked(before, rows, k, now)
        invariant |items| == k && forall j | 0 <= j < k :: items[j] == ItemOf(rows[j], before.commands[rows[j]], now)
      {
        var item := SendRow(before, rows, k, rows[k], now);
        items := items + [item];
      }
      PollAssembled(order, before, device, limit, now, items);
      return Items(items);
    }

    method AcknowledgeCommand(device: int, command: int, now: Time) returns (reply: CommandReply)
      modifies this
      ensures (Contents(), reply) == Acknowledge(old(Contents()), device, command, now)
    {
      if command !in commands || commands[command].device != device {
        return Refusal(CommandNotFound);
      }
      var row := commands[command];
      if Open(row) && row.createdAt <= now - ACKNOWLEDGE_WITHIN {
        return Refusal(CommandExpired);
      }
      if Open(row) {
        commands := commands[command := row.(status := Acknowledged, acknowledgedAt := Some(now))];
        if row.execution in executions {
          executions := executions[row.execution := executions[row.execution].(status := Running, startedAt := Some(now))];
        }
        row := row.(status := Acknowledged, acknowledgedAt := Some(now));
      }
      return AckReply(row.status);
    }

    method ApplyCommandResult(device: int, command: int, r: Report, now: Time) returns (reply: CommandReply)
      modifies this
      ensures (Contents(), reply) == ApplyResult(old(Contents()), device, command, r, now)
    {
      if r.result != "SUCCESS" && r.result != "FAILED" {
        return Refusal(InvalidCommandResult);
      }
      if command !in commands || commands[command].device != device {
        return Refusal(CommandNotFound);
      }
      var row := commands[command];
      var requestHash := ResultDigest(r);
      if command in results {
        if results[command].key != r.key || results[command].requestHash != requestHash {
          return Refusal(ResultConflict);
        }
        return ResultReply(results[command].status, results[command].code);
      }
      if row.status != Acknowledged {
        return Refusal(CommandNotRunning);
      }
      if row.acknowledgedAt.Some? && row.acknowledgedAt.value <= now - RESULT_WITHIN {
        return Refusal(CommandResultExpired);
      }
      var status := if r.result == "SUCCESS" then Done else Broken;
      results := results[command := StoredResult(r.key, requestHash, status, r.code, r.message, now)];
      commands := commands[command := row.(status := status, completedAt := Some(now), resultCode := r.code)];
      if row.execution in executions {
        executions := executions[row.execution :=
          executions[row.execution].(status := ExecutionOutcome(status), completedAt := Some(now))];
      }
      events := events + [ExecutionEvent(device, command, status, r.code, now)];
      return ResultReply(status, r.code);
    }
  }

  lemma {:induction false} WaitingOfSnoc(ids: seq<int>, id: int, commands: map<int, Command>)
    ensures WaitingOf(ids + [id], commands) ==
            WaitingOf(ids, commands) + if id in commands && commands[id].status.Waiting? then [id] else []
  {
    if ids == [] {
      assert ids + [id] == [id] && [id][1..] == [];
    } else {
      assert (ids + [id])[1..] == ids[1..] + [id];
      WaitingOfSnoc(ids[1..], id, commands);
    }
  }

  /** The rows of a poll are distinct, so the next one is still as it was read. */
  lemma RowUntouched(b: Book, rows: seq<int>, k: nat, now: Time)
    requires OneCommandPerExecution(b) && Sorted(b.commands, rows) && k < |rows|
    ensures var b' := MarkSent(b, Ids(WaitingOf(rows[..k], b.commands)), now);
            && b'.commands[rows[k]] == b.commands[rows[k]]
            && b'.executions[b.commands[rows[k]].execution] == b.executions[b.commands[rows[k]].execution]
  {
    forall c | c in WaitingOf(rows[..k], b.commands)
      ensures c != rows[k]
    {
      var j :| 0 <= j < k && rows[j] == c;
      assert Before(b.commands, rows[j], rows[k]);
    }
  }

  /** The book after the loop has passed the first `k` rows. */
  ghost function Marked(b: Book, rows: seq<int>, k: nat, now: Time): Book
    requires k <= |rows|
  {
    MarkSent(b, Ids(WaitingOf(rows[..k], b.commands)), now)
  }

  lemma PollAssembled(order: seq<int>, b: Book, device: int, limit: nat, now: Time, items: seq<Item>)
    requires var rows := FirstOpen(order, b.commands, device, limit);
             |items| == |rows| && forall j | 0 <= j < |rows| :: items[j] == ItemOf(rows[j], b.commands[rows[j]], now)
    ensures var rows := FirstOpen(order, b.commands, device, limit);
            (Marked(b, rows, |rows|, now), Items(items)) == Poll(order, b, device, limit, now)
  {
    var rows := FirstOpen(order, b.commands, device, limit);
    assert rows[..|rows|] == rows;
    assert items == ItemsOf(rows, b.commands, now);
  }

  lemma MarkedNone(b: Book, rows: seq<int>, now: Time)
    ensures Marked(b, rows, 0, now) == b
  {
  }

  /** The effect of the loop body. */
  lemma MarkNext(b: Book, rows: seq<int>, k: nat, now: Time)
    requires OneCommandPerExecution(b) && Sorted(b.commands, rows) && k < |rows|
    ensures var b', c := Marked(b, rows, k, now), b.commands[rows[k]];
            && b'.commands[rows[k]] == c
            && Marked(b, rows, k + 1, now) ==
               if !c.status.Waiting? then b'
               else b'.(
               commands := b'.commands[rows[k] := SentCommand(c, now)],
               executions := if b'.executions[c.execution].status.Created?
                 then b'.executions[c.execution := b'.executions[c.execution].(status := CommandSent)] else b'.executions)
  {
    WaitingOfSnoc(rows[..k], rows[k], b.commands);
    assert rows[..k] + [rows[k]] == rows[..k + 1];
    RowUntouched(b, rows, k, now);
    if b.commands[rows[k]].status.Waiting? {
      MarkOneMore(b, WaitingOf(rows[..k], b.commands), rows[k], now);
    } else {
      assert WaitingOf(rows[..k + 1], b.commands) == WaitingOf(rows[..k], b.commands);
    }
  }

  lemma MarkOneMore(b: Book, ids: seq<int>, id: int, now: Time)
    requires OneCommandPerExecution(b) && id in b.commands && id !in ids
    requires forall c | c in ids :: c in b.commands
    ensures var b', e := MarkSent(b, Ids(ids), now), b.commands[id].execution;
            MarkSent(b, Ids(ids + [id]), now) == b'.(
            commands := b'.commands[id := SentCommand(b.commands[id], now)],
            executions := if b.executions[e].status.Created?
              then b'.executions[e := b'.executions[e].(status := CommandSent)] else b'.executions)
  {
    assert Ids(ids + [id]) == Ids(ids) + {id};
  }
}
