/** What the three command handlers answer and write, over the rows they read; and that interleaved handlers answer as
    they would alone.  */
module CommandAnswers {
  import opened Schema
  import opened CommandLifecycle
  import opened CommandMachine
  import opened CommandSafety

  ghost predicate IsFor(b: Book, device: int, command: int) {
    command in b.commands && b.commands[command].device == device
  }

  ghost predicate StillOpen(b: Book, command: int)
    requires command in b.commands
  {
    b.commands[command].status == Waiting || b.commands[command].status == Sent
  }

  // ---- acknowledge

  /** Which answer an acknowledgement gets: of the commands of the device, exactly an open one that is 30 s old is expired;
      any other is answered with the status it has afterwards.  */
  lemma AcknowledgeAnswers(b: Book, device: int, command: int, now: Time)
    ensures var (after, reply) := Acknowledge(b, device, command, now);
            var tooLate := IsFor(b, device, command) && StillOpen(b, command) && now - b.commands[command].createdAt >= 30_000_000;
            && (reply == Refusal(CommandNotFound) <==> !IsFor(b, device, command))
            && (reply == Refusal(CommandExpired) <==> tooLate)
            && (reply.AckReply? <==> IsFor(b, device, command) && !tooLate)
            && (reply.AckReply? ==>
                  && command in after.commands && reply.status == after.commands[command].status
                  && reply.status in {Acknowledged, Done, Broken})
  {
  }

  /** What it writes: the command and its execution, when the command was open and young; otherwise nothing. */
  lemma AcknowledgeWrites(b: Book, device: int, command: int, now: Time)
    ensures var after := Acknowledge(b, device, command, now).0;
            if IsFor(b, device, command) && StillOpen(b, command) && now - b.commands[command].createdAt < 30_000_000 then
              var row := b.commands[command];
              && after.commands == b.commands[command := row.(status := Acknowledged, acknowledgedAt := Some(now))]
              && after.executions.Keys == b.executions.Keys
              && (forall e | e in b.executions ::
                    after.executions[e] == if e == row.execution then b.executions[e].(status := Running, startedAt := Some(now))
                                           else b.executions[e])
              && after.results == b.results && after.events == b.events
            else after == b
  {
  }

  // ---- result

  /** The report is new and in time. */
  ghost predicate TakesResult(b: Book, device: int, command: int, r: Report, now: Time) {
    && r.result in {"SUCCESS", "FAILED"} && IsFor(b, device, command) && command !in b.results
    && var row := b.commands[command];
    && row.status == Acknowledged
    && (row.acknowledgedAt.Some? ==> now - row.acknowledgedAt.value < 120_000_000)
  }

  function DigestOf(r: Report): Digest {
    Digest(r.result + ":" + (if r.code.Some? then r.code.value else "None") + ":" + (if r.message.Some? then r.message.value else "None"))
  }

  ghost predicate Replays(b: Book, command: int, r: Report) {
    && command in b.results && b.results[command].key == r.key
    && b.results[command].requestHash == DigestOf(r)
  }

  /** Which answer a report gets. */
  lemma ResultAnswers(b: Book, device: int, command: int, r: Report, now: Time)
    ensures var reply := ApplyResult(b, device, command, r, now).1;
            var valid, mine, stored := r.result in {"SUCCESS", "FAILED"}, IsFor(b, device, command), command in b.results;
            && (reply == Refusal(InvalidCommandResult) <==> !valid)
            && (reply == Refusal(CommandNotFound) <==> valid && !mine)
            && (reply == Refusal(ResultConflict) <==> valid && mine && stored && !Replays(b, command, r))
            && (reply == Refusal(CommandNotRunning) <==> valid && mine && !stored && b.commands[command].status != Acknowledged)
            && (reply == Refusal(CommandResultExpired) <==>
                valid && mine && !stored && b.commands[command].status == Acknowledged && !TakesResult(b, device, command, r, now))
            && (reply.ResultReply? <==> TakesResult(b, device, command, r, now) || (valid && mine && Replays(b, command, r)))
            && (valid && mine && Replays(b, command, r) ==> reply == ResultReply(b.results[command].status, b.results[command].code))
  {
  }

  /** A report taken as new: SUCCESS completes command and execution as successful, FAILED as failed, in the answer and in
      every row written; nothing else changes.  */
  lemma ResultWrites(b: Book, device: int, command: int, r: Report, now: Time)
    requires TakesResult(b, device, command, r, now)
    ensures var (after, reply) := ApplyResult(b, device, command, r, now);
            && (r.result == "SUCCESS" <==>
                reply == ResultReply(Done, r.code) && Completed(b, after, device, command, r, now, Done, ExecSucceeded))
            && (r.result == "FAILED" <==>
                reply == ResultReply(Broken, r.code) && Completed(b, after, device, command, r, now, Broken, ExecFailed))
  {
  }

  ghost predicate Completed(b: Book, after: Book, device: int, command: int, r: Report, now: Time,
                            status: CommandStatus, ended: ExecutionStatus) {
    && command in b.commands
    && var row := b.commands[command];
    && after.commands == b.commands[command := row.(status := status, completedAt := Some(now), resultCode := r.code)]
    && after.executions.Keys == b.executions.Keys
    && (forall e | e in b.executions ::
          after.executions[e] == if e == row.execution then b.executions[e].(status := ended, completedAt := Some(now)) else b.executions[e])
    && after.results.Keys == b.results.Keys + {command}
    && (forall c | c in b.results && c != command :: after.results[c] == b.results[c])
    && after.results[command] == StoredResult(r.key, DigestOf(r), status, r.code, r.message, now)
    && after.events == b.events + [ExecutionEvent(device, command, status, r.code, now)]
  }

  /** In any other case nothing is written. */
  lemma NoResultWritesNothing(b: Book, device: int, command: int, r: Report, now: Time)
    requires !TakesResult(b, device, command, r, now)
    ensures ApplyResult(b, device, command, r, now).0 == b
  {
  }

  // ---- poll

  /** Which commands a poll lists: of its device's open commands, by creation time and then id, the first `limit`. */
  lemma PollLists(order: seq<int>, b: Book, device: int, limit: nat)
    requires OrderOk(order, b.commands)
    ensures var ids, cs := FirstOpen(order, b.commands, device, limit), b.commands;
            && |ids| <= limit
            && (forall k | 0 <= k < |ids| :: IsFor(b, device, ids[k]) && StillOpen(b, ids[k]))
            && (forall j, k | 0 <= j < k < |ids| :: cs[ids[j]].createdAt < cs[ids[k]].createdAt
                                                    || (cs[ids[j]].createdAt == cs[ids[k]].createdAt && ids[j] < ids[k]))
            && forall c | IsFor(b, device, c) && StillOpen(b, c) && c !in ids ::
                 && |ids| == limit
                 && forall k | 0 <= k < |ids| :: cs[ids[k]].createdAt < cs[c].createdAt
                                                 || (cs[ids[k]].createdAt == cs[c].createdAt && ids[k] < c)
  {
    FirstOpenExactly(order, b.commands, device, limit);
    var ids := FirstOpen(order, b.commands, device, limit);
    forall k | 0 <= k < |ids|
      ensures IsFor(b, device, ids[k]) && StillOpen(b, ids[k])
    {
      assert ids[k] in ids;
    }
    forall c | IsFor(b, device, c) && StillOpen(b, c) && c !in ids
      ensures |ids| == limit && forall k | 0 <= k < |ids| :: Before(b.commands, ids[k], c)
    {
      assert Open(b.commands[c]);
    }
  }

  /** A poll answers with its listed commands in order, each as SENT: now if it was PENDING, at its old time if it was
      already SENT.  */
  lemma PollAnswers(order: seq<int>, b: Book, device: int, limit: nat, now: Time)
    ensures var reply := Poll(order, b, device, limit, now).1;
            var ids := FirstOpen(order, b.commands, device, limit);
            && reply.Items? && |reply.items| == |ids|
            && forall k | 0 <= k < |ids| ::
                 reply.items[k] == Item(ids[k], Sent, if b.commands[ids[k]].status == Waiting then Some(now) else b.commands[ids[k]].sentAt)
  {
    var ids := FirstOpen(order, b.commands, device, limit);
    forall k | 0 <= k < |ids|
      ensures Open(b.commands[ids[k]])
    {
      assert ids[k] in ids;
    }
  }

  /** What it writes: each listed PENDING command becomes SENT now, and its execution COMMAND_SENT if it was CREATED. */
  lemma PollWrites(order: seq<int>, b: Book, device: int, limit: nat, now: Time)
    ensures var after := Poll(order, b, device, limit, now).0;
            var ids := FirstOpen(order, b.commands, device, limit);
            && after.commands.Keys == b.commands.Keys && after.executions.Keys == b.executions.Keys
            && (forall c | c in b.commands ::
                  after.commands[c] == if c in ids && b.commands[c].status == Waiting
                                       then b.commands[c].(status := Sent, sentAt := Some(now)) else b.commands[c])
            && (forall e | e in b.executions ::
                  after.executions[e] ==
                  if b.executions[e].status == Created
                     && (exists c | c in b.commands :: c in ids && b.commands[c].status == Waiting && b.commands[c].execution == e)
                  then b.executions[e].(status := CommandSent) else b.executions[e])
            && after.results == b.results && after.events == b.events
  {
    var ids := FirstOpen(order, b.commands, device, limit);
    forall c
      ensures c in WaitingOf(ids, b.commands) <==> c in ids && c in b.commands && b.commands[c].status == Waiting
    {
      WaitingOfExactly(ids, b.commands, c);
    }
  }

  // ---- interleaved handlers

  /** A statement that ends an acknowledgement or a result leaves the book, and gives the answer, of the whole handler
      run alone on the book committed just before.  */
  lemma AnsweredAsAlone(order: seq<int>, s: State, i: nat, clock: Time)
    requires Inv(order, s) && i < |s.handlers| && !Ended(s.handlers[i]) && !s.handlers[i].job.PollJob?
    requires i < |Step(order, s, i, clock).handlers| && Step(order, s, i, clock).handlers[i].pc.Finished?
    ensures var h, s' := s.handlers[i], Step(order, s, i, clock);
            (s'.book, s'.handlers[i].pc.reply) == Handle(order, s.book, h.job, if h.pc.Committing? then h.now else clock)
  {
    var h := s.handlers[i];
    assert HandlerOk(s.book, h);
    match h.pc
    case Committing =>
      CommitIsHandler(s.book, h);
      assert Step(order, s, i, clock).book == Applied(s.book, h);
    case Locking => EarlyAnswer(order, s, i, clock);
    case ReadingResult => EarlyAnswer(order, s, i, clock);
    case _ => RowStepKeepsGoing(order, s, i, clock);
  }

  lemma EarlyAnswer(order: seq<int>, s: State, i: nat, clock: Time)
    requires i < |s.handlers| && !s.handlers[i].job.PollJob? && HandlerOk(s.book, s.handlers[i])
    requires s.handlers[i].pc.Locking? || s.handlers[i].pc.ReadingResult?
    ensures i < |Step(order, s, i, clock).handlers|
    ensures var h, s' := s.handlers[i], Step(order, s, i, clock);
            s'.handlers[i].pc.Finished? ==> (s'.book, s'.handlers[i].pc.reply) == Handle(order, s.book, h.job, clock)
  {
  }

  lemma RowStepKeepsGoing(order: seq<int>, s: State, i: nat, clock: Time)
    requires i < |s.handlers| && !s.handlers[i].job.PollJob? && !Ended(s.handlers[i])
    requires !s.handlers[i].pc.Committing? && !s.handlers[i].pc.Locking? && !s.handlers[i].pc.ReadingResult?
    ensures i < |Step(order, s, i, clock).handlers| && !Step(order, s, i, clock).handlers[i].pc.Finished?
  {
  }

  /** A poll's answer is put together when it reads, and given unchanged when it commits. */
  lemma PollAnsweredAsRead(order: seq<int>, s: State, i: nat, clock: Time)
    requires i < |s.handlers| && !Ended(s.handlers[i]) && s.handlers[i].job.PollJob?
    ensures i < |Step(order, s, i, clock).handlers|
    ensures var h, h' := s.handlers[i], Step(order, s, i, clock).handlers[i];
            && h'.job == h.job
            && (h.pc.Reading? ==> !Ended(h') && Items(h'.items) == Poll(order, s.book, h.job.device, h.job.limit, clock).1)
            && (!h.pc.Reading? ==> h'.items == h.items && !h'.pc.Reading?)
            && (h'.pc.Finished? ==> h.pc.Committing? && h'.pc.reply == Items(h.items))
  {
  }

  /** The answer of `job` had it run alone on the book after the first `k` events. */
  ghost predicate GivenAt(order: seq<int>, b: Book, jobs: seq<Job>, events: seq<Event>, job: Job, reply: CommandReply, k: nat, now: Time) {
    k <= |events| && Handle(order, Run(order, Start(b, jobs), events[..k]).book, job, now).1 == reply
  }

  ghost predicate Given(order: seq<int>, b: Book, jobs: seq<Job>, events: seq<Event>, job: Job, reply: CommandReply) {
    exists k: nat, now: Time :: GivenAt(order, b, jobs, events, job, reply, k, now)
  }

  ghost predicate AnswersGiven(order: seq<int>, b: Book, jobs: seq<Job>, events: seq<Event>, h: Handler) {
    && (h.pc.Finished? ==> Given(order, b, jobs, events, h.job, h.pc.reply))
    && (h.job.PollJob? && !Ended(h) && !h.pc.Reading? ==> Given(order, b, jobs, events, h.job, Items(h.items)))
  }

  lemma GivenStays(order: seq<int>, b: Book, jobs: seq<Job>, events: seq<Event>, e: Event, job: Job, reply: CommandReply)
    requires Given(order, b, jobs, events, job, reply)
    ensures Given(order, b, jobs, events + [e], job, reply)
  {
    var k: nat, now: Time :| GivenAt(order, b, jobs, events, job, reply, k, now);
    assert (events + [e])[..k] == events[..k];
    assert GivenAt(order, b, jobs, events + [e], job, reply, k, now);
  }

  lemma GivenNow(order: seq<int>, b: Book, jobs: seq<Job>, events: seq<Event>, e: Event, job: Job, now: Time)
    ensures Given(order, b, jobs, events + [e], job, Handle(order, Run(order, Start(b, jobs), events).book, job, now).1)
  {
    assert (events + [e])[..|events|] == events;
    assert GivenAt(order, b, jobs, events + [e], job, Handle(order, Run(order, Start(b, jobs), events).book, job, now).1, |events|, now);
  }

  lemma StepKeepsGiven(order: seq<int>, b: Book, jobs: seq<Job>, events: seq<Event>, s: State, i: nat, clock: Time)
    requires s == Run(order, Start(b, jobs), events) && Inv(order, s) && i < |s.handlers|
    requires AnswersGiven(order, b, jobs, events, s.handlers[i])
    ensures i < |Step(order, s, i, clock).handlers|
    ensures AnswersGiven(order, b, jobs, events + [Exec(i, clock)], Step(order, s, i, clock).handlers[i])
  {
    var h, e := s.handlers[i], Exec(i, clock);
    StepKeepsJob(order, s, i, clock);
    if Ended(h) {
      assert Step(order, s, i, clock) == s;
      AnswersStay(order, b, jobs, events, e, h);
    } else if h.job.PollJob? {
      PollKeepsGiven(order, b, jobs, events, s, i, clock);
    } else if Step(order, s, i, clock).handlers[i].pc.Finished? {
      AnsweredAsAlone(order, s, i, clock);
      GivenNow(order, b, jobs, events, e, h.job, if h.pc.Committing? then h.now else clock);
    }
  }

  lemma PollKeepsGiven(order: seq<int>, b: Book, jobs: seq<Job>, events: seq<Event>, s: State, i: nat, clock: Time)
    requires s == Run(order, Start(b, jobs), events) && i < |s.handlers|
    requires s.handlers[i].job.PollJob? && !Ended(s.handlers[i]) && AnswersGiven(order, b, jobs, events, s.handlers[i])
    ensures i < |Step(order, s, i, clock).handlers|
    ensures AnswersGiven(order, b, jobs, events + [Exec(i, clock)], Step(order, s, i, clock).handlers[i])
  {
    var h, e := s.handlers[i], Exec(i, clock);
    PollAnsweredAsRead(order, s, i, clock);
    if h.pc.Reading? {
      GivenNow(order, b, jobs, events, e, h.job, clock);
    } else {
      GivenStays(order, b, jobs, events, e, h.job, Items(h.items));
    }
  }

  /** Only handler `i` changes, and it keeps its job. */
  ghost predicate OnlyMoves(s: State, s': State, i: nat) {
    && i < |s.handlers| && |s'.handlers| == |s.handlers|
    && s'.handlers == s.handlers[i := s'.handlers[i]] && s'.handlers[i].job == s.handlers[i].job
  }

  lemma PollStepKeepsJob(order: seq<int>, s: State, i: nat, clock: Time)
    requires i < |s.handlers|
    requires var pc := s.handlers[i].pc; pc.Reading? || pc.SendingCommand? || pc.SendingExecution? || pc.Committing? || Ended(s.handlers[i])
    ensures OnlyMoves(s, Step(order, s, i, clock), i)
  {
  }

  lemma RowStepKeepsJob(order: seq<int>, s: State, i: nat, clock: Time)
    requires i < |s.handlers|
    requires var pc := s.handlers[i].pc; pc.InsertingResult? || pc.UpdatingCommand? || pc.UpdatingExecution? || pc.InsertingEvent?
    ensures OnlyMoves(s, Step(order, s, i, clock), i)
  {
  }

  lemma LockStepKeepsJob(order: seq<int>, s: State, i: nat, clock: Time)
    requires i < |s.handlers| && (s.handlers[i].pc.Locking? || s.handlers[i].pc.ReadingResult?)
    ensures OnlyMoves(s, Step(order, s, i, clock), i)
  {
  }

  lemma StepKeepsJob(order: seq<int>, s: State, i: nat, clock: Time)
    requires i < |s.handlers|
    ensures OnlyMoves(s, Step(order, s, i, clock), i)
  {
    match s.handlers[i].pc
    case Locking => LockStepKeepsJob(order, s, i, clock);
    case ReadingResult => LockStepKeepsJob(order, s, i, clock);
    case InsertingResult => RowStepKeepsJob(order, s, i, clock);
    case UpdatingCommand => RowStepKeepsJob(order, s, i, clock);
    case UpdatingExecution => RowStepKeepsJob(order, s, i, clock);
    case InsertingEvent => RowStepKeepsJob(order, s, i, clock);
    case _ => PollStepKeepsJob(order, s, i, clock);
  }

  lemma AnswersStay(order: seq<int>, b: Book, jobs: seq<Job>, events: seq<Event>, e: Event, h: Handler)
    requires AnswersGiven(order, b, jobs, events, h)
    ensures AnswersGiven(order, b, jobs, events + [e], h)
  {
    if h.pc.Finished? {
      GivenStays(order, b, jobs, events, e, h.job, h.pc.reply);
    } else if h.job.PollJob? && !Ended(h) && !h.pc.Reading? {
      GivenStays(order, b, jobs, events, e, h.job, Items(h.items));
    }
  }

  /** In every run, with any interleaving and rollbacks: whatever a handler has answered is what it would have answered run
      alone on the book as it was committed at some moment of the run.  */
  lemma {:induction false} EveryAnswerIsAtomic(order: seq<int>, b: Book, jobs: seq<Job>, events: seq<Event>, i: nat)
    requires Ready(order, b) && i < |jobs|
    ensures var s := Run(order, Start(b, jobs), events);
            && |s.handlers| == |jobs| && s.handlers[i].job == jobs[i]
            && AnswersGiven(order, b, jobs, events, s.handlers[i])
  {
    if events != [] {
      var before, e := events[..|events| - 1], events[|events| - 1];
      var s := Run(order, Start(b, jobs), before);
      EveryAnswerIsAtomic(order, b, jobs, before, i);
      RunKeepsInv(order, b, jobs, before);
      assert events == before + [e];
      EventKeepsGiven(order, b, jobs, before, s, e, i);
    }
  }

  lemma EventKeepsGiven(order: seq<int>, b: Book, jobs: seq<Job>, events: seq<Event>, s: State, e: Event, i: nat)
    requires s == Run(order, Start(b, jobs), events) && Inv(order, s) && i < |s.handlers|
    requires AnswersGiven(order, b, jobs, events, s.handlers[i])
    ensures var s' := Apply(order, s, e);
            && |s'.handlers| == |s.handlers| && s'.handlers[i].job == s.handlers[i].job
            && AnswersGiven(order, b, jobs, events + [e], s'.handlers[i])
  {
    if e.Exec? && e.handler < |s.handlers| {
      StepKeepsJob(order, s, e.handler, e.now);
      if e.handler == i {
        StepKeepsGiven(order, b, jobs, events, s, i, e.now);
      } else {
        AnswersStay(order, b, jobs, events, e, s.handlers[i]);
      }
    } else {
      AnswersStay(order, b, jobs, events, e, s.handlers[i]);
    }
  }
}
