/** What every run of interleaved command handlers guarantees. */
module CommandSafety {
  import opened Schema
  import opened CommandLifecycle
  import opened CommandMachine

  // ---- a commit is the atomic update

  /** The columns no handler writes. */
  ghost predicate SameFrame(b: Book, b': Book) {
    && b.commands.Keys == b'.commands.Keys
    && b.executions.Keys == b'.executions.Keys
    && forall c | c in b.commands ::
         b'.commands[c].createdAt == b.commands[c].createdAt && b'.commands[c].execution == b.commands[c].execution
         && b'.commands[c].device == b.commands[c].device
  }

  lemma PollCommit(b: Book, h: Handler)
    requires BookOk(b) && h.job.PollJob? && PollOk(b, h) && h.pc.Committing?
    ensures Applied(b, h) == MarkSent(b, Ids(h.stale), h.now)
  {
    assert h.stale[..|h.stale|] == h.stale;
    PollCommitCommands(b, h);
    PollCommitExecutions(b, h);
    assert Applied(b, h).events == b.events;
  }

  lemma PollCommitCommands(b: Book, h: Handler)
    requires BookOk(b) && h.job.PollJob? && PollOk(b, h) && h.pc.Committing? && h.cmds.Keys == Ids(h.stale)
    ensures Applied(b, h).commands == MarkSent(b, Ids(h.stale), h.now).commands
  {
    assert Applied(b, h).commands.Keys == b.commands.Keys;
  }

  lemma PollCommitExecutions(b: Book, h: Handler)
    requires BookOk(b) && h.job.PollJob? && PollOk(b, h) && h.pc.Committing? && h.execs.Keys == CreatedOf(b, Ids(h.stale))
    ensures Applied(b, h).executions == MarkSent(b, Ids(h.stale), h.now).executions
  {
    assert Applied(b, h).executions.Keys == b.executions.Keys;
  }

  lemma AckCommit(b: Book, h: Handler)
    requires h.job.AckJob? && AckOk(b, h) && h.pc.Committing?
    ensures Applied(b, h) == MarkAcknowledged(b, h.job.command, h.now)
  {
    assert Applied(b, h).events == b.events;
  }

  lemma ResultCommit(b: Book, h: Handler)
    requires h.job.ResultJob? && ResultOk(b, h) && h.pc.Committing?
    ensures Applied(b, h) == MarkCompleted(b, h.job.device, h.job.command, h.job.report, h.now)
  {
  }

  /** The book after a commit: for acknowledge and result exactly what the whole handler does to the book committed
      just before; for poll the marking of what it had read.  */
  ghost function Committed(b: Book, h: Handler): Book
    requires h.pc.Committing? && HandlerOk(b, h)
  {
    match h.job
    case PollJob(_, _) => MarkSent(b, Ids(h.stale), h.now)
    case AckJob(device, command) => Acknowledge(b, device, command, h.now).0
    case ResultJob(device, command, r) => ApplyResult(b, device, command, r, h.now).0
  }

  lemma CommitIsHandler(b: Book, h: Handler)
    requires BookOk(b) && HandlerOk(b, h) && h.pc.Committing?
    ensures Applied(b, h) == Committed(b, h)
    ensures h.job.AckJob? ==> CommitReply(h) == Acknowledge(b, h.job.device, h.job.command, h.now).1
    ensures h.job.ResultJob? ==> CommitReply(h) == ApplyResult(b, h.job.device, h.job.command, h.job.report, h.now).1
    ensures BookOk(Applied(b, h)) && SameFrame(b, Applied(b, h))
  {
    match h.job
    case PollJob(_, _) =>
      PollCommit(b, h);
      MarkSentKeepsBook(b, Ids(h.stale), h.now);
    case AckJob(_, command) =>
      AckCommit(b, h);
      MarkAcknowledgedKeepsBook(b, command, h.now);
    case ResultJob(device, command, r) =>
      ResultCommit(b, h);
      MarkCompletedKeepsBook(b, device, command, r, h.now);
  }

  // ---- a commit does not disturb the other handlers

  /** What a commit may touch: rows its handler owns, and executions of commands it owns. */
  ghost predicate TouchesOnly(b: Book, b': Book, h: Handler) {
    && SameFrame(b, b')
    && (forall c | c in b.commands && CommandRow(c) !in Owned(h) :: b'.commands[c] == b.commands[c])
    && (forall c | c in b.commands && CommandRow(c) !in Owned(h) && b.commands[c].execution in b.executions ::
          b'.executions[b.commands[c].execution] == b.executions[b.commands[c].execution])
    && (forall c | c in b.results :: c in b'.results && b'.results[c] == b.results[c])
    && (forall c | c in b'.results && CommandRow(c) !in Owned(h) :: c in b.results)
  }

  lemma CommitTouchesOnly(b: Book, h: Handler)
    requires BookOk(b) && HandlerOk(b, h) && h.pc.Committing?
    ensures TouchesOnly(b, Applied(b, h), h)
  {
    CommitIsHandler(b, h);
    match h.job
    case PollJob(_, _) => assert h.stale[..|h.stale|] == h.stale;
    case AckJob(_, _) =>
    case ResultJob(_, _, _) =>
  }

  lemma PollUndisturbed(b: Book, b': Book, h: Handler, g: Handler)
    requires BookOk(b) && TouchesOnly(b, b', h) && Owned(h) !! Owned(g)
    requires g.job.PollJob? && PollOk(b, g)
    ensures PollOk(b', g)
  {
    forall c | c in g.cmds
      ensures b'.commands[c] == b.commands[c] && b'.executions[b.commands[c].execution] == b.executions[b.commands[c].execution]
    {
      assert CommandRow(c) in Owned(g);
    }
    var touched := Ids(g.stale[..TouchedSoFar(g)]);
    assert touched <= g.cmds.Keys;
    assert CreatedOf(b', touched) == CreatedOf(b, touched);
    forall e | e in g.execs
      ensures b'.executions[e] == b.executions[e]
    {
      assert e in CreatedOf(b, touched);
    }
  }

  lemma OneRowUndisturbed(b: Book, b': Book, h: Handler, g: Handler)
    requires BookOk(b) && TouchesOnly(b, b', h) && Owned(h) !! Owned(g)
    requires !g.job.PollJob? && !Ended(g) && HandlerOk(b, g)
    ensures HandlerOk(b', g)
  {
    if !g.pc.Locking? {
      assert CommandRow(g.job.command) in Owned(g);
    }
  }

  lemma Undisturbed(b: Book, h: Handler, g: Handler)
    requires BookOk(b) && HandlerOk(b, h) && h.pc.Committing? && HandlerOk(b, g) && Owned(h) !! Owned(g)
    ensures HandlerOk(Applied(b, h), g)
  {
    CommitTouchesOnly(b, h);
    if !Ended(g) {
      if g.job.PollJob? {
        PollUndisturbed(b, Applied(b, h), h, g);
      } else {
        OneRowUndisturbed(b, Applied(b, h), h, g);
      }
    }
  }

  lemma OwnersAreDisjoint(s: State, i: nat, j: nat)
    requires LocksOk(s) && i < |s.handlers| && j < |s.handlers| && i != j
    ensures Owned(s.handlers[i]) !! Owned(s.handlers[j])
  {
    forall r | r in Owned(s.handlers[i])
      ensures r !in Owned(s.handlers[j])
    {
      assert s.locks[r] == i;
    }
  }

  // ---- statements that leave the committed book alone

  datatype LockMove = Keep | Acquire(r: Lock) | Drop

  ghost predicate Moves(s: State, s': State, i: nat, move: LockMove)
    requires i < |s.handlers| == |s'.handlers|
  {
    match move
    case Keep => s'.locks == s.locks && Owned(s'.handlers[i]) == Owned(s.handlers[i])
    case Acquire(r) =>
      !Blocked(s, i, r) && s'.locks == s.locks[r := i] && Owned(s'.handlers[i]) == Owned(s.handlers[i]) + {r}
    case Drop => s'.locks == Release(s.locks, i) && Owned(s'.handlers[i]) == {}
  }

  lemma LocksFollow(s: State, s': State, i: nat, move: LockMove)
    requires LocksOk(s) && i < |s.handlers| && |s'.handlers| == |s.handlers|
    requires s'.handlers == s.handlers[i := s'.handlers[i]]
    requires Moves(s, s', i, move)
    ensures LocksOk(s')
  {
    forall j, r | 0 <= j < |s'.handlers| && r in Owned(s'.handlers[j])
      ensures r in s'.locks && s'.locks[r] == j
    {
      if j != i {
        assert r in Owned(s.handlers[j]);
      }
    }
    forall r | r in s'.locks
      ensures s'.locks[r] < |s'.handlers| && r in Owned(s'.handlers[s'.locks[r]])
    {
      if r in s.locks && s'.locks[r] == s.locks[r] {
        assert r in Owned(s.handlers[s.locks[r]]);
      }
    }
  }

  lemma LocalStep(order: seq<int>, s: State, s': State, i: nat, move: LockMove)
    requires Inv(order, s) && i < |s.handlers| && |s'.handlers| == |s.handlers|
    requires s'.handlers == s.handlers[i := s'.handlers[i]]
    requires s'.book == s.book
    requires Moves(s, s', i, move)
    requires HandlerOk(s.book, s'.handlers[i])
    ensures Inv(order, s')
  {
    LocksFollow(s, s', i, move);
  }

  lemma EndKeepsInv(order: seq<int>, s: State, i: nat, pc: Pc)
    requires Inv(order, s) && i < |s.handlers|
    requires pc.RolledBack? || (pc.Finished? && AnswerOk(s.book, s.handlers[i].(pc := pc)))
    ensures Inv(order, End(s, i, pc))
  {
    LocalStep(order, s, End(s, i, pc), i, Drop);
  }

  lemma ReadKeepsInv(order: seq<int>, s: State, i: nat, clock: Time)
    requires Inv(order, s) && i < |s.handlers| && s.handlers[i].pc.Reading? && s.handlers[i].job.PollJob?
    ensures Inv(order, ReadStep(order, s, i, clock))
  {
    var h := s.handlers[i];
    assert HandlerOk(s.book, h);
    var s' := ReadStep(order, s, i, clock);
    var h' := s'.handlers[i];
    FirstOpenExactly(order, s.book.commands, h.job.device, h.job.limit);
    WaitingOfSorted(FirstOpen(order, s.book.commands, h.job.device, h.job.limit), s.book.commands);
    assert h'.stale[..0] == [] && Ids([]) == {};
    assert h.cmds.Keys == Ids(h.stale[..0]) == {};
    assert h.execs.Keys == {};
    LocalStep(order, s, s', i, Keep);
  }

  lemma SendCommandKeepsInv(order: seq<int>, s: State, i: nat)
    requires Inv(order, s) && i < |s.handlers| && s.handlers[i].pc.SendingCommand?
    ensures Inv(order, SendCommandStep(s, i, s.handlers[i].pc.next))
  {
    var h, k := s.handlers[i], s.handlers[i].pc.next;
    assert HandlerOk(s.book, h) && h.job.PollJob?;
    var s' := SendCommandStep(s, i, k);
    if k >= |h.stale| {
      assert h.stale[..k] == h.stale;
      LocalStep(order, s, s', i, Keep);
    } else {
      var c := h.stale[k];
      assert c in h.stale;
      if !Blocked(s, i, CommandRow(c)) {
        assert h.stale[..k + 1] == h.stale[..k] + [c];
        assert Ids(h.stale[..k + 1]) == Ids(h.stale[..k]) + {c};
        OwnedGrowsByCommand(h, s'.handlers[i], c);
        LocalStep(order, s, s', i, Acquire(CommandRow(c)));
      }
    }
  }

  lemma OwnedGrowsByCommand(h: Handler, h': Handler, c: int)
    requires h.job.PollJob? && h'.job.PollJob? && h'.cmds.Keys == h.cmds.Keys + {c} && h'.execs.Keys == h.execs.Keys
    ensures Owned(h') == Owned(h) + {CommandRow(c)}
  {
  }

  lemma OwnedGrowsByExecution(h: Handler, h': Handler, e: int)
    requires h'.job == h.job && h'.cmds.Keys == h.cmds.Keys && h'.execs.Keys == h.execs.Keys + {e}
    requires !Ended(h) && !Ended(h') && !h.pc.Locking? && !h'.pc.Locking?
    ensures Owned(h') == Owned(h) + {ExecutionRow(e)}
  {
  }

  /** The execution of the stale command at `k` has not been looked at yet: the commands are distinct. */
  lemma NextCreated(b: Book, stale: seq<int>, k: nat)
    requires BookOk(b) && Sorted(b.commands, stale) && k < |stale| && stale[k] in b.commands
    ensures var e := b.commands[stale[k]].execution;
            && e !in CreatedOf(b, Ids(stale[..k]))
            && CreatedOf(b, Ids(stale[..k + 1])) ==
               CreatedOf(b, Ids(stale[..k])) + if e in b.executions && b.executions[e].status.Created? then {e} else {}
  {
    var c := stale[k];
    assert c in stale;
    assert stale[..k + 1] == stale[..k] + [c];
    assert Ids(stale[..k + 1]) == Ids(stale[..k]) + {c};
    forall d | d in stale[..k]
      ensures d != c
    {
      var j :| 0 <= j < k && stale[j] == d;
      assert Before(b.commands, stale[j], stale[k]);
    }
  }

  lemma SentExecutionOk(b: Book, h: Handler, h': Handler, e: int)
    requires BookOk(b) && h.job.PollJob? && h.pc.SendingExecution? && PollOk(b, h)
    requires h.stale[h.pc.next] in b.commands && e == b.commands[h.stale[h.pc.next]].execution
    requires h' == h.(pc := SendingCommand(h.pc.next + 1), execs :=
                      if e in b.executions && b.executions[e].status.Created? then h.execs[e := b.executions[e].(status := CommandSent)] else h.execs)
    ensures PollOk(b, h') && e !in h.execs
  {
    NextCreated(b, h.stale, h.pc.next);
  }

  lemma SendExecutionKeepsInv(order: seq<int>, s: State, i: nat)
    requires Inv(order, s) && i < |s.handlers| && s.handlers[i].pc.SendingExecution?
    ensures Inv(order, SendExecutionStep(s, i, s.handlers[i].pc.next))
  {
    var h, k := s.handlers[i], s.handlers[i].pc.next;
    assert HandlerOk(s.book, h) && h.job.PollJob?;
    assert h.stale[k] in h.stale;
    var e := s.book.commands[h.stale[k]].execution;
    var h' := h.(pc := SendingCommand(k + 1), execs :=
                 if s.book.executions[e].status.Created? then h.execs[e := s.book.executions[e].(status := CommandSent)] else h.execs);
    SentExecutionOk(s.book, h, h', e);
    var s' := SendExecutionStep(s, i, k);
    if !s.book.executions[e].status.Created? {
      LocalStep(order, s, s', i, Keep);
    } else if !Blocked(s, i, ExecutionRow(e)) {
      OwnedGrowsByExecution(h, h', e);
      LocalStep(order, s, s', i, Acquire(ExecutionRow(e)));
    }
  }

  lemma LockOutcome(s: State, i: nat, clock: Time)
    requires i < |s.handlers| && s.handlers[i].pc.Locking? && !s.handlers[i].job.PollJob? && HandlerOk(s.book, s.handlers[i])
    ensures LocksOrAnswers(s, LockStep(s, i, clock), i)
  {
    if s.handlers[i].job.AckJob? {
      AckLockOutcome(s, i, clock);
    } else {
      ResultLockOutcome(s, i, clock);
    }
  }

  lemma AckLockOutcome(s: State, i: nat, clock: Time)
    requires i < |s.handlers| && s.handlers[i].pc.Locking? && s.handlers[i].job.AckJob? && HandlerOk(s.book, s.handlers[i])
    ensures LocksOrAnswers(s, LockStep(s, i, clock), i)
  {
  }

  lemma ResultLockOutcome(s: State, i: nat, clock: Time)
    requires i < |s.handlers| && s.handlers[i].pc.Locking? && s.handlers[i].job.ResultJob? && HandlerOk(s.book, s.handlers[i])
    ensures LocksOrAnswers(s, LockStep(s, i, clock), i)
  {
  }

  /** The statement waits, answers, or locks the command row. */
  ghost predicate LocksOrAnswers(s: State, s': State, i: nat)
    requires i < |s.handlers| && !s.handlers[i].job.PollJob?
  {
    var h := s.handlers[i];
    || s' == s
    || (exists r: CommandReply :: s' == End(s, i, Finished(r)) && AnswerOk(s.book, h.(pc := Finished(r))))
    || (&& !Blocked(s, i, CommandRow(h.job.command))
        && |s'.handlers| == |s.handlers|
        && s' == Put(s, i, s'.handlers[i]).(locks := s.locks[CommandRow(h.job.command) := i])
        && Owned(s'.handlers[i]) == {CommandRow(h.job.command)} && Owned(h) == {}
        && HandlerOk(s.book, s'.handlers[i]))
  }

  lemma LockKeepsInv(order: seq<int>, s: State, i: nat, clock: Time)
    requires Inv(order, s) && i < |s.handlers| && s.handlers[i].pc.Locking? && !s.handlers[i].job.PollJob?
    ensures Inv(order, LockStep(s, i, clock))
  {
    LockOutcome(s, i, clock);
    var s' := LockStep(s, i, clock);
    if r: CommandReply :| s' == End(s, i, Finished(r)) && AnswerOk(s.book, s.handlers[i].(pc := Finished(r))) {
      EndKeepsInv(order, s, i, Finished(r));
    } else if s' != s {
      LocalStep(order, s, s', i, Acquire(CommandRow(s.handlers[i].job.command)));
    }
  }

  lemma ReplayOk(b: Book, h: Handler)
    requires DigestsOk(b) && h.job.ResultJob? && ValidResult(h.job.report) && h.job.command in b.results
    requires b.results[h.job.command].key == h.job.report.key
    requires b.results[h.job.command].requestHash == ResultDigest(h.job.report)
    ensures Means(h.job.report.result, b.results[h.job.command].status)
  {
    var stored := b.results[h.job.command];
    var r: Report :| StoredAs(stored, r);
    DigestFixesResult(r, h.job.report);
  }

  lemma ReadResultOutcome(s: State, i: nat, clock: Time)
    requires i < |s.handlers| && s.handlers[i].pc.ReadingResult? && DigestsOk(s.book) && HandlerOk(s.book, s.handlers[i])
    ensures s.handlers[i].job.ResultJob?
    ensures var s', h := ReadResultStep(s, i, clock), s.handlers[i];
            || (exists r: CommandReply :: s' == End(s, i, Finished(r)) && AnswerOk(s.book, h.(pc := Finished(r))))
            || (&& |s'.handlers| == |s.handlers| && s' == Put(s, i, s'.handlers[i])
                && Owned(s'.handlers[i]) == Owned(h) && HandlerOk(s.book, s'.handlers[i]))
  {
    var h := s.handlers[i];
    var c, r := h.job.command, h.job.report;
    if c in s.book.results && s.book.results[c].key == r.key && s.book.results[c].requestHash == ResultDigest(r) {
      ReplayOk(s.book, h);
    }
  }

  lemma ReadResultKeepsInv(order: seq<int>, s: State, i: nat, clock: Time)
    requires Inv(order, s) && i < |s.handlers| && s.handlers[i].pc.ReadingResult?
    ensures Inv(order, Step(order, s, i, clock))
  {
    ReadResultOutcome(s, i, clock);
    var s', h := ReadResultStep(s, i, clock), s.handlers[i];
    if r: CommandReply :| s' == End(s, i, Finished(r)) && AnswerOk(s.book, h.(pc := Finished(r))) {
      EndKeepsInv(order, s, i, Finished(r));
    } else {
      LocalStep(order, s, s', i, Keep);
    }
  }

  /** The UNIQUE constraint on command_results never fires: a handler inserts only under the command's lock. */
  lemma InsertResultKeepsInv(order: seq<int>, s: State, i: nat)
    requires Inv(order, s) && i < |s.handlers| && s.handlers[i].pc.InsertingResult?
    ensures Inv(order, Step(order, s, i, 0))
    ensures s.handlers[i].job.ResultJob? && !InsertResultStep(s, i).handlers[i].pc.Violated?
  {
    InsertResultExactly(order, s, i);
    assert HandlerOk(s.book, s.handlers[i]);
    LocalStep(order, s, InsertResultStep(s, i), i, Keep);
  }

  lemma InsertResultExactly(order: seq<int>, s: State, i: nat)
    requires Inv(order, s) && i < |s.handlers| && s.handlers[i].pc.InsertingResult?
    ensures s.handlers[i].job.ResultJob?
    ensures var h, r := s.handlers[i], s.handlers[i].job.report;
            InsertResultStep(s, i) ==
            Put(s, i, h.(pc := UpdatingCommand, result := Some(StoredResult(r.key, ResultDigest(r), StatusOf(r), r.code, r.message, h.now))))
  {
    var h := s.handlers[i];
    assert HandlerOk(s.book, h) && h.job.ResultJob?;
    forall j | 0 <= j < |s.handlers| && j != i && s.handlers[j].job.ResultJob? && s.handlers[j].job.command == h.job.command
      ensures s.handlers[j].result.None?
    {
      NoRivalResult(order, s, i, j);
    }
  }

  lemma NoRivalResult(order: seq<int>, s: State, i: nat, j: nat)
    requires Inv(order, s) && i < |s.handlers| && s.handlers[i].pc.InsertingResult? && s.handlers[i].job.ResultJob?
    requires j < |s.handlers| && j != i && s.handlers[j].job.ResultJob? && s.handlers[j].job.command == s.handlers[i].job.command
    ensures s.handlers[j].result.None?
  {
    assert HandlerOk(s.book, s.handlers[j]);
    OwnersAreDisjoint(s, i, j);
    assert CommandRow(s.handlers[i].job.command) in Owned(s.handlers[i]);
  }

  lemma UpdateCommandKeepsInv(order: seq<int>, s: State, i: nat)
    requires Inv(order, s) && i < |s.handlers| && s.handlers[i].pc.UpdatingCommand? && !s.handlers[i].job.PollJob?
    ensures Inv(order, UpdateCommandStep(s, i))
  {
    assert HandlerOk(s.book, s.handlers[i]);
    LocalStep(order, s, UpdateCommandStep(s, i), i, Keep);
  }

  lemma UpdateExecutionKeepsInv(order: seq<int>, s: State, i: nat)
    requires Inv(order, s) && i < |s.handlers| && s.handlers[i].pc.UpdatingExecution? && !s.handlers[i].job.PollJob?
    ensures Inv(order, UpdateExecutionStep(s, i))
  {
    var h := s.handlers[i];
    assert HandlerOk(s.book, h);
    var e := s.book.commands[h.job.command].execution;
    var s' := UpdateExecutionStep(s, i);
    if !Blocked(s, i, ExecutionRow(e)) {
      OwnedGrowsByExecution(h, s'.handlers[i], e);
      LocalStep(order, s, s', i, Acquire(ExecutionRow(e)));
    }
  }

  lemma InsertEventKeepsInv(order: seq<int>, s: State, i: nat)
    requires Inv(order, s) && i < |s.handlers| && s.handlers[i].pc.InsertingEvent?
    ensures Inv(order, Step(order, s, i, 0))
  {
    assert HandlerOk(s.book, s.handlers[i]);
    LocalStep(order, s, Step(order, s, i, 0), i, Keep);
  }

  // ---- commit

  lemma {:induction false} SortedInFrame(b: Book, b': Book, ids: seq<int>)
    requires SameFrame(b, b') && Sorted(b.commands, ids)
    ensures Sorted(b'.commands, ids)
  {
    assert forall k | 0 <= k < |ids| :: ids[k] in ids;
  }

  lemma CommitKeepsDigests(b: Book, h: Handler)
    requires BookOk(b) && DigestsOk(b) && HandlerOk(b, h) && h.pc.Committing?
    ensures DigestsOk(Applied(b, h))
  {
    CommitIsHandler(b, h);
    if h.job.ResultJob? {
      assert ValidResult(h.job.report);
      var b' := Applied(b, h);
      forall c | c in b'.results
        ensures exists r: Report :: StoredAs(b'.results[c], r)
      {
        if c != h.job.command {
          assert b'.results[c] == b.results[c];
        } else {
          assert StoredAs(b'.results[c], h.job.report);
        }
      }
    }
  }

  lemma CommitAnswers(b: Book, h: Handler)
    requires HandlerOk(b, h) && h.pc.Committing?
    ensures AnswerOk(Applied(b, h), h.(pc := Finished(CommitReply(h))))
  {
  }

  lemma CommitKeepsInv(order: seq<int>, s: State, i: nat)
    requires Inv(order, s) && i < |s.handlers| && s.handlers[i].pc.Committing?
    ensures Inv(order, Step(order, s, i, 0))
    ensures Step(order, s, i, 0).book == Committed(s.book, s.handlers[i])
  {
    var h := s.handlers[i];
    assert HandlerOk(s.book, h);
    var s' := Step(order, s, i, 0);
    CommitStep(order, s, i);
    CommitIsHandler(s.book, h);
    CommitKeepsDigests(s.book, h);
    CommitAnswers(s.book, h);
    SortedInFrame(s.book, s'.book, order);
    OthersStayOk(order, s, i);
  }

  lemma CommitStep(order: seq<int>, s: State, i: nat)
    requires Inv(order, s) && i < |s.handlers| && s.handlers[i].pc.Committing?
    ensures var h, s' := s.handlers[i], Step(order, s, i, 0);
            && s'.book == Applied(s.book, h) && LocksOk(s')
            && s'.handlers == s.handlers[i := h.(pc := Finished(CommitReply(h)), cmds := map[], execs := map[], result := None, events := [])]
  {
    LocksFollow(s, Step(order, s, i, 0), i, Drop);
  }

  lemma OthersStayOk(order: seq<int>, s: State, i: nat)
    requires Inv(order, s) && i < |s.handlers| && s.handlers[i].pc.Committing?
    ensures forall j | 0 <= j < |s.handlers| && j != i :: HandlerOk(Applied(s.book, s.handlers[i]), s.handlers[j])
  {
    forall j | 0 <= j < |s.handlers| && j != i
      ensures HandlerOk(Applied(s.book, s.handlers[i]), s.handlers[j])
    {
      OwnersAreDisjoint(s, i, j);
      Undisturbed(s.book, s.handlers[i], s.handlers[j]);
    }
  }

  // ---- every step, every run

  lemma ApplyKeepsInv(order: seq<int>, s: State, e: Event)
    requires Inv(order, s)
    ensures Inv(order, Apply(order, s, e))
  {
    if e.handler < |s.handlers| {
      var i := e.handler;
      assert HandlerOk(s.book, s.handlers[i]);
      match e
      case Fault(_) =>
        if !Ended(s.handlers[i]) {
          EndKeepsInv(order, s, i, RolledBack);
        }
      case Exec(_, clock) =>
        match s.handlers[i].pc
        case Reading => ReadKeepsInv(order, s, i, clock);
        case SendingCommand(_) => SendCommandKeepsInv(order, s, i);
        case SendingExecution(_) => SendExecutionKeepsInv(order, s, i);
        case Locking => LockKeepsInv(order, s, i, clock);
        case ReadingResult => ReadResultKeepsInv(order, s, i, clock);
        case InsertingResult => InsertResultKeepsInv(order, s, i);
        case UpdatingCommand => UpdateCommandKeepsInv(order, s, i);
        case UpdatingExecution => UpdateExecutionKeepsInv(order, s, i);
        case InsertingEvent => InsertEventKeepsInv(order, s, i);
        case Committing => CommitKeepsInv(order, s, i);
        case _ =>
    }
  }

  /** A database a run may start from. */
  ghost predicate Ready(order: seq<int>, b: Book) {
    BookOk(b) && DigestsOk(b) && OrderOk(order, b.commands)
  }

  /** With polls interleaved anywhere and any rollbacks: a terminal command was acknowledged in time, completed within
      150 s of its creation, has its one result and its execution's status; accepted replies carry the status asked
      for; and the UNIQUE constraint on results never aborts a handler.  */
  lemma {:induction false} RunKeepsInv(order: seq<int>, b: Book, jobs: seq<Job>, events: seq<Event>)
    requires Ready(order, b)
    ensures Inv(order, Run(order, Start(b, jobs), events))
  {
    if events == [] {
      var s := Start(b, jobs);
      forall i | 0 <= i < |s.handlers|
        ensures HandlerOk(b, s.handlers[i])
      {
        assert s.handlers[i] == Begin(jobs[i]);
      }
    } else {
      RunKeepsInv(order, b, jobs, events[..|events| - 1]);
      ApplyKeepsInv(order, Run(order, Start(b, jobs), events[..|events| - 1]), events[|events| - 1]);
    }
  }
}
