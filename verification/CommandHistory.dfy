/** How stored results and command statuses change over a run. */
module CommandHistory {
  import opened Schema
  import opened CommandLifecycle
  import opened CommandMachine
  import opened CommandSafety

  /** Only commits change the book, each by the update of its own handler. */
  lemma BookChanges(order: seq<int>, s: State, e: Event)
    requires Inv(order, s)
    ensures var s' := Apply(order, s, e);
            || s'.book == s.book
            || (&& e.Exec? && e.handler < |s.handlers| && s.handlers[e.handler].pc.Committing?
                && HandlerOk(s.book, s.handlers[e.handler])
                && s'.book == Committed(s.book, s.handlers[e.handler]))
  {
    if e.Exec? && e.handler < |s.handlers| {
      assert HandlerOk(s.book, s.handlers[e.handler]);
      if s.handlers[e.handler].pc.Committing? {
        CommitKeepsInv(order, s, e.handler);
      }
    }
  }

  lemma {:induction false} RunSnoc(order: seq<int>, s: State, events: seq<Event>, e: Event)
    ensures Run(order, s, events + [e]) == Apply(order, Run(order, s, events), e)
  {
    assert (events + [e])[..|events|] == events;
  }

  lemma StepKeepsResult(order: seq<int>, s: State, e: Event, id: int)
    requires Inv(order, s) && id in s.book.results
    ensures var s' := Apply(order, s, e);
            id in s'.book.results && s'.book.results[id] == s.book.results[id]
  {
    BookChanges(order, s, e);
    var s' := Apply(order, s, e);
    if s'.book != s.book {
      CommitKeepsResult(s.book, s.handlers[e.handler], id);
    }
  }

  lemma CommitKeepsResult(b: Book, h: Handler, id: int)
    requires HandlerOk(b, h) && h.pc.Committing? && id in b.results
    ensures id in Committed(b, h).results && Committed(b, h).results[id] == b.results[id]
  {
  }

  lemma {:induction false} RunAppend(order: seq<int>, s: State, past: seq<Event>, future: seq<Event>)
    ensures Run(order, s, past + future) == Run(order, Run(order, s, past), future)
  {
    if future == [] {
      assert past + future == past;
    } else {
      var before, e := future[..|future| - 1], future[|future| - 1];
      RunAppend(order, s, past, before);
      RunSnoc(order, s, past + before, e);
      RunSnoc(order, Run(order, s, past), before, e);
      assert past + before + [e] == past + future && before + [e] == future;
    }
  }

  lemma {:induction false} RunKeepsResult(order: seq<int>, s: State, events: seq<Event>, id: int)
    requires Inv(order, s) && id in s.book.results
    ensures var s' := Run(order, s, events);
            Inv(order, s') && id in s'.book.results && s'.book.results[id] == s.book.results[id]
  {
    if events != [] {
      var before, e := events[..|events| - 1], events[|events| - 1];
      RunKeepsResult(order, s, before, id);
      StepKeepsResult(order, Run(order, s, before), e, id);
      ApplyKeepsInv(order, Run(order, s, before), e);
    }
  }

  /** A stored result is never changed or removed. */
  lemma ResultsAreWrittenOnce(order: seq<int>, b: Book, jobs: seq<Job>, past: seq<Event>, future: seq<Event>, id: int)
    requires Ready(order, b)
    requires id in Run(order, Start(b, jobs), past).book.results
    ensures var s, s' := Run(order, Start(b, jobs), past), Run(order, Start(b, jobs), past + future);
            id in s'.book.results && s'.book.results[id] == s.book.results[id]
  {
    RunKeepsInv(order, b, jobs, past);
    RunKeepsResult(order, Run(order, Start(b, jobs), past), future, id);
    RunAppend(order, Start(b, jobs), past, future);
  }

  /** The one way a status can go back: a poll commits a command that it had read as PENDING and that another handler
      has acknowledged or completed since.  */
  ghost predicate StaleCommit(s: State, e: Event, id: int) {
    && e.Exec? && e.handler < |s.handlers|
    && var h := s.handlers[e.handler];
    h.job.PollJob? && h.pc.Committing? && id in h.stale
    && id in s.book.commands && !Open(s.book.commands[id])
  }

  lemma StatusGoesBackExactlyOnStaleCommit(order: seq<int>, b: Book, jobs: seq<Job>, events: seq<Event>, e: Event, id: int)
    requires Ready(order, b) && id in b.commands
    ensures var s, s' := Run(order, Start(b, jobs), events), Run(order, Start(b, jobs), events + [e]);
            && id in s.book.commands && id in s'.book.commands
            && (Stage(s'.book.commands[id].status) < Stage(s.book.commands[id].status) <==> StaleCommit(s, e, id))
  {
    RunKeepsInv(order, b, jobs, events);
    CommandsStay(order, b, jobs, events);
    var s := Run(order, Start(b, jobs), events);
    RunSnoc(order, Start(b, jobs), events, e);
    BookChanges(order, s, e);
    if e.Exec? && e.handler < |s.handlers| && s.handlers[e.handler].pc.Committing? {
      CommitKeepsInv(order, s, e.handler);
      CommitMoves(s.book, s.handlers[e.handler], id);
    }
  }

  lemma CommitMoves(b: Book, h: Handler, id: int)
    requires BookOk(b) && HandlerOk(b, h) && h.pc.Committing? && id in b.commands
    ensures var b' := Committed(b, h);
            && id in b'.commands
            && (Stage(b'.commands[id].status) < Stage(b.commands[id].status)
                <==> h.job.PollJob? && id in h.stale && !Open(b.commands[id]))
  {
  }

  lemma {:induction false} CommandsStay(order: seq<int>, b: Book, jobs: seq<Job>, events: seq<Event>)
    requires Ready(order, b)
    ensures Run(order, Start(b, jobs), events).book.commands.Keys == b.commands.Keys
  {
    if events != [] {
      var before := events[..|events| - 1];
      CommandsStay(order, b, jobs, before);
      RunKeepsInv(order, b, jobs, before);
      var s, e := Run(order, Start(b, jobs), before), events[|events| - 1];
      BookChanges(order, s, e);
      if e.Exec? && e.handler < |s.handlers| && s.handlers[e.handler].pc.Committing? {
        CommitIsHandler(s.book, s.handlers[e.handler]);
      }
    }
  }

  // ---- it does happen

  function OneCommand(status: CommandStatus, acknowledgedAt: Option<Time>, sentAt: Option<Time>): Command {
    Command(7, 1, status, 0, sentAt, acknowledgedAt, None, None)
  }

  function OneBook(c: Command, e: ExecutionStatus, startedAt: Option<Time>): Book {
    Book(map[1 := c], map[1 := Execution(7, Some(7), e, 0, startedAt, None)], map[], [])
  }

  const STALE_READ := Handler(PollJob(7, 20), SendingCommand(0), 1, [Item(1, Sent, Some(1))], [1], map[], map[], None, [])
  const ACKNOWLEDGER := Handler(AckJob(7, 1), Locking, 0, [], [], map[], map[], None, [])
  const ANSWERED := ACKNOWLEDGER.(pc := Finished(AckReply(Acknowledged)), now := 2)
  const BEFORE := OneBook(OneCommand(Waiting, None, None), Created, None)
  const BETWEEN := OneBook(OneCommand(Acknowledged, Some(2), None), Running, Some(2))
  const AFTER := OneBook(OneCommand(Sent, Some(2), Some(1)), Running, Some(2))

  lemma PollReads()
    ensures Apply([1], Start(BEFORE, [PollJob(7, 20), AckJob(7, 1)]), Exec(0, 1)) == State(BEFORE, [STALE_READ, ACKNOWLEDGER], map[])
  {
    assert [1][1..] == [];
    assert OpenIds([1], BEFORE.commands, 7) == [1];
    assert WaitingOf([1], BEFORE.commands) == [1];
    assert ItemsOf([1], BEFORE.commands, 1) == [Item(1, Sent, Some(1))];
    var s0 := Start(BEFORE, [PollJob(7, 20), AckJob(7, 1)]);
    assert s0.handlers[0] == Begin(PollJob(7, 20)) && s0.handlers[1] == ACKNOWLEDGER;
    var s1 := Apply([1], s0, Exec(0, 1));
    assert s1.handlers == [STALE_READ, ACKNOWLEDGER];
  }

  lemma RunOfTwo(order: seq<int>, s: State, e1: Event, e2: Event)
    ensures Run(order, s, [e1, e2]) == Apply(order, Apply(order, s, e1), e2)
  {
    RunSnoc(order, s, [], e1);
    RunSnoc(order, s, [e1], e2);
    assert [] + [e1] == [e1] && [e1] + [e2] == [e1, e2];
  }

  lemma RunOfFour(order: seq<int>, s: State, e1: Event, e2: Event, e3: Event, e4: Event)
    ensures Run(order, s, [e1, e2, e3, e4]) == Apply(order, Apply(order, Apply(order, Apply(order, s, e1), e2), e3), e4)
  {
    RunOfTwo(order, s, e1, e2);
    RunOfTwo(order, Run(order, s, [e1, e2]), e3, e4);
    RunAppend(order, s, [e1, e2], [e3, e4]);
    assert [e1, e2] + [e3, e4] == [e1, e2, e3, e4];
  }

  const LOCKED := State(BEFORE, [STALE_READ, ACKNOWLEDGER.(pc := UpdatingCommand, now := 2)], map[CommandRow(1) := 1])
  const READY_TO_COMMIT := State(
    BEFORE,
    [STALE_READ, ACKNOWLEDGER.(pc := Committing, now := 2, cmds := map[1 := BETWEEN.commands[1]], execs := map[1 := BETWEEN.executions[1]])],
    map[CommandRow(1) := 1, ExecutionRow(1) := 1])

  lemma AckLocks()
    ensures Apply([1], State(BEFORE, [STALE_READ, ACKNOWLEDGER], map[]), Exec(1, 2)) == LOCKED
  {
    assert Apply([1], State(BEFORE, [STALE_READ, ACKNOWLEDGER], map[]), Exec(1, 2)).handlers == LOCKED.handlers;
  }

  lemma AckWrites()
    ensures Apply([1], Apply([1], LOCKED, Exec(1, 2)), Exec(1, 2)) == READY_TO_COMMIT
  {
    var s := Apply([1], LOCKED, Exec(1, 2));
    assert s.handlers[1].pc == UpdatingExecution && s.handlers[1].cmds == map[1 := BETWEEN.commands[1]];
    assert Apply([1], s, Exec(1, 2)).handlers == READY_TO_COMMIT.handlers;
  }

  lemma AckEnds()
    ensures Apply([1], READY_TO_COMMIT, Exec(1, 2)) == State(BETWEEN, [STALE_READ, ANSWERED], map[])
  {
    var s := Apply([1], READY_TO_COMMIT, Exec(1, 2));
    assert s.book.events == [] && s.book == BETWEEN;
    assert s.handlers == [STALE_READ, ANSWERED];
  }

  lemma AckCommits()
    ensures var s := Run([1], State(BEFORE, [STALE_READ, ACKNOWLEDGER], map[]), [Exec(1, 2), Exec(1, 2), Exec(1, 2), Exec(1, 2)]);
            s == State(BETWEEN, [STALE_READ, ANSWERED], map[])
  {
    RunOfFour([1], State(BEFORE, [STALE_READ, ACKNOWLEDGER], map[]), Exec(1, 2), Exec(1, 2), Exec(1, 2), Exec(1, 2));
    AckLocks();
    AckWrites();
    AckEnds();
  }

  lemma StalePollCommits()
    ensures Run([1], State(BETWEEN, [STALE_READ, ANSWERED], map[]), [Exec(0, 3), Exec(0, 3), Exec(0, 3), Exec(0, 3)]).book == AFTER
  {
    var e := Exec(0, 3);
    var s1 := State(BETWEEN, [STALE_READ, ANSWERED], map[]);
    RunOfFour([1], s1, e, e, e, e);
    var s2 := Apply([1], s1, e);
    assert s2.handlers[0].pc == SendingExecution(0);
    var s3 := Apply([1], s2, e);
    assert s3.handlers[0].pc == SendingCommand(1);
    var s4 := Apply([1], s3, e);
    assert s4.handlers[0].pc == Committing;
    assert Apply([1], s4, e).book.events == [];
  }

  lemma Compose(order: seq<int>, s: State, first: Event, middle: seq<Event>, last: seq<Event>)
    ensures Run(order, s, [first] + middle) == Run(order, Apply(order, s, first), middle)
    ensures Run(order, s, [first] + middle + last) == Run(order, Run(order, Apply(order, s, first), middle), last)
  {
    RunSnoc(order, s, [], first);
    assert [] + [first] == [first];
    RunAppend(order, s, [first], middle);
    RunAppend(order, s, [first] + middle, last);
  }

  lemma BeforeIsReady()
    ensures Ready([1], BEFORE) && !PairOk(AFTER.commands[1].status, AFTER.executions[1].status)
  {
  }

  /** A poll reads command 1 as PENDING, an acknowledgement commits, then the poll writes SENT over it: the command is
      SENT again while its execution is RUNNING, a pair no run of whole handlers reaches.  */
  lemma AStalePollOverwritesAnAcknowledgement() returns (s: State, acknowledged: seq<Event>, polled: seq<Event>)
    ensures Ready([1], BEFORE) && s == Start(BEFORE, [PollJob(7, 20), AckJob(7, 1)])
    ensures Run([1], s, acknowledged).book == BETWEEN
    ensures Run([1], s, acknowledged + polled).book == AFTER
    ensures !PairOk(AFTER.commands[1].status, AFTER.executions[1].status)
  {
    BeforeIsReady();
    s := Start(BEFORE, [PollJob(7, 20), AckJob(7, 1)]);
    var acks := [Exec(1, 2), Exec(1, 2), Exec(1, 2), Exec(1, 2)];
    polled := [Exec(0, 3), Exec(0, 3), Exec(0, 3), Exec(0, 3)];
    PollReads();
    AckCommits();
    StalePollCommits();
    Compose([1], s, Exec(0, 1), acks, polled);
    acknowledged := [Exec(0, 1)] + acks;
  }
}

/** ORDER BY created_at, id of the commands 1..n. */
module CommandOrder {
  import opened Schema
  import opened CommandLifecycle

  function Inserted(commands: map<int, Command>, order: seq<int>, c: int): seq<int>
    requires c in commands && forall d | d in order :: d in commands
  {
    if order == [] then [c]
    else if Before(commands, c, order[0]) then [c] + order
    else [order[0]] + Inserted(commands, order[1..], c)
  }

  lemma {:induction false} InsertedHas(commands: map<int, Command>, order: seq<int>, c: int)
    requires c in commands && forall d | d in order :: d in commands
    ensures forall d :: d in Inserted(commands, order, c) <==> d == c || d in order
  {
    if order != [] {
      InsertedHas(commands, order[1..], c);
      assert order == [order[0]] + order[1..];
    }
  }

  lemma {:induction false} InsertedSorted(commands: map<int, Command>, order: seq<int>, c: int)
    requires c in commands && Sorted(commands, order) && c !in order
    ensures Sorted(commands, Inserted(commands, order, c))
  {
    var r := Inserted(commands, order, c);
    InsertedHas(commands, order, c);
    if order != [] && !Before(commands, c, order[0]) {
      InsertedSorted(commands, order[1..], c);
      InsertedHas(commands, order[1..], c);
      forall k | 0 < k < |r|
        ensures Before(commands, r[0], r[k])
      {
        var rest := Inserted(commands, order[1..], c);
        assert r[k] == rest[k - 1] && rest[k - 1] in rest;
        if r[k] != c {
          var j :| 0 <= j < |order[1..]| && order[1..][j] == r[k];
          assert order[j + 1] == r[k];
        }
      }
    } else if order != [] {
      forall k | 0 < k < |r|
        ensures Before(commands, r[0], r[k])
      {
        assert r[k] == order[k - 1];
      }
    }
  }

  function OrderUpTo(commands: map<int, Command>, n: nat): (order: seq<int>)
    requires forall c | 1 <= c <= n :: c in commands
    ensures forall d | d in order :: d in commands
  {
    if n == 0 then []
    else
      InsertedHas(commands, OrderUpTo(commands, n - 1), n);
      Inserted(commands, OrderUpTo(commands, n - 1), n)
  }

  lemma {:induction false} OrderUpToSorts(commands: map<int, Command>, n: nat)
    requires forall c | 1 <= c <= n :: c in commands
    ensures Sorted(commands, OrderUpTo(commands, n)) && forall c :: c in OrderUpTo(commands, n) <==> 1 <= c <= n
  {
    if n > 0 {
      OrderUpToSorts(commands, n - 1);
      InsertedHas(commands, OrderUpTo(commands, n - 1), n);
      InsertedSorted(commands, OrderUpTo(commands, n - 1), n);
    }
  }
}
