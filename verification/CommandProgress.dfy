/** No reachable state of the command handlers is deadlocked, and every run ends. */
module CommandProgress {
  import opened Schema
  import opened CommandLifecycle
  import opened CommandMachine
  import opened CommandHistory
  import opened CommandSafety
  import opened Sums

  // ---- waiting

  /** The command row whose lock a handler is about to take. */
  function Wants(b: Book, h: Handler): Option<int> {
    match h.pc
    case SendingCommand(k) => if k < |h.stale| then Some(h.stale[k]) else None
    case Locking =>
      if h.job.PollJob? || (h.job.ResultJob? && !ValidResult(h.job.report)) || !Found(b, h.job.device, h.job.command) then None
      else Some(h.job.command)
    case _ => None
  }

  predicate Waiting(s: State, i: nat)
    requires i < |s.handlers|
  {
    Wants(s.book, s.handlers[i]).Some? && Blocked(s, i, CommandRow(Wants(s.book, s.handlers[i]).value))
  }

  ghost predicate AllEnded(s: State) {
    forall i | 0 <= i < |s.handlers| :: Ended(s.handlers[i])
  }

  /** An execution row is only locked by the owner of its command's row, so nobody waits for one. */
  lemma ExecutionsAreUncontended(order: seq<int>, s: State, i: nat, c: int)
    requires Inv(order, s) && i < |s.handlers| && c in s.book.commands && CommandRow(c) in Owned(s.handlers[i])
    ensures !Blocked(s, i, ExecutionRow(s.book.commands[c].execution))
  {
    var e := s.book.commands[c].execution;
    if ExecutionRow(e) in s.locks {
      var j := s.locks[ExecutionRow(e)];
      assert HandlerOk(s.book, s.handlers[j]);
      if j != i {
        OwnersAreDisjoint(s, i, j);
        OwnerOfExecution(s.book, s.handlers[j], e);
      }
    }
  }

  lemma OwnerOfExecution(b: Book, h: Handler, e: int)
    requires BookOk(b) && HandlerOk(b, h) && ExecutionRow(e) in Owned(h)
    ensures exists c :: c in b.commands && CommandRow(c) in Owned(h) && b.commands[c].execution == e
  {
    assert e in h.execs;
    if h.job.PollJob? {
      var touched := Ids(h.stale[..TouchedSoFar(h)]);
      assert e in CreatedOf(b, touched);
      var c :| c in touched && c in b.commands && b.commands[c].execution == e;
      assert c in h.cmds;
      assert CommandRow(c) in Owned(h);
    } else {
      assert CommandRow(h.job.command) in Owned(h);
    }
  }

  // ---- the measure

  /** A bound on the statements a handler still has to run; `n` bounds the rows a poll can list. */
  function Remaining(n: nat, h: Handler): nat {
    match h.pc
    case Reading => 2 * n + 3
    case SendingCommand(k) => if k <= |h.stale| then 2 * (|h.stale| - k) + 2 else 2
    case SendingExecution(k) => if k < |h.stale| then 2 * (|h.stale| - k) + 1 else 3
    case Locking => 7
    case ReadingResult => 6
    case InsertingResult => 5
    case UpdatingCommand => 4
    case UpdatingExecution => 3
    case InsertingEvent => 2
    case Committing => 1
    case _ => 0
  }

  function Total(n: nat, handlers: seq<Handler>): nat {
    Sum(handlers, h => Remaining(n, h))
  }

  lemma {:induction false} OpenIdsShort(order: seq<int>, commands: map<int, Command>, device: int)
    ensures |OpenIds(order, commands, device)| <= |order|
  {
    if order != [] {
      OpenIdsShort(order[1..], commands, device);
    }
  }

  lemma {:induction false} WaitingOfShort(ids: seq<int>, commands: map<int, Command>)
    ensures |WaitingOf(ids, commands)| <= |ids|
  {
    if ids != [] {
      WaitingOfShort(ids[1..], commands);
    }
  }

  ghost predicate MovesOn(n: nat, s: State, s': State, i: nat)
    requires i < |s.handlers|
  {
    && |s'.handlers| == |s.handlers| && s'.handlers == s.handlers[i := s'.handlers[i]]
    && if Waiting(s, i) then s' == s else Remaining(n, s'.handlers[i]) < Remaining(n, s.handlers[i])
  }

  lemma ReadMovesOn(order: seq<int>, s: State, i: nat, clock: Time)
    requires i < |s.handlers| && s.handlers[i].pc.Reading? && s.handlers[i].job.PollJob?
    ensures MovesOn(|order|, s, ReadStep(order, s, i, clock), i)
  {
    var h := s.handlers[i];
    OpenIdsShort(order, s.book.commands, h.job.device);
    WaitingOfShort(FirstOpen(order, s.book.commands, h.job.device, h.job.limit), s.book.commands);
  }

  lemma SendCommandMovesOn(n: nat, s: State, i: nat, k: nat)
    requires i < |s.handlers| && s.handlers[i].pc == SendingCommand(k)
    requires k < |s.handlers[i].stale| ==> s.handlers[i].stale[k] in s.book.commands
    ensures MovesOn(n, s, SendCommandStep(s, i, k), i)
  {
  }

  lemma SendExecutionMovesOn(n: nat, s: State, i: nat, k: nat)
    requires i < |s.handlers| && s.handlers[i].pc == SendingExecution(k)
    requires k < |s.handlers[i].stale| && s.handlers[i].stale[k] in s.book.commands
    requires !Blocked(s, i, ExecutionRow(s.book.commands[s.handlers[i].stale[k]].execution))
    ensures MovesOn(n, s, SendExecutionStep(s, i, k), i)
  {
  }

  lemma SendMovesOn(order: seq<int>, s: State, i: nat, clock: Time)
    requires Inv(order, s) && i < |s.handlers| && (s.handlers[i].pc.SendingCommand? || s.handlers[i].pc.SendingExecution?)
    ensures MovesOn(|order|, s, Step(order, s, i, clock), i)
  {
    var h := s.handlers[i];
    assert HandlerOk(s.book, h) && h.job.PollJob?;
    if h.pc.SendingExecution? {
      var c := h.stale[h.pc.next];
      assert c in h.stale[..h.pc.next + 1];
      assert c in h.cmds && CommandRow(c) in Owned(h);
      ExecutionsAreUncontended(order, s, i, c);
      SendExecutionMovesOn(|order|, s, i, h.pc.next);
    } else {
      if h.pc.next < |h.stale| {
        var c := h.stale[h.pc.next];
        assert Sorted(s.book.commands, h.stale) && c in h.stale;
        assert c in s.book.commands;
      }
      SendCommandMovesOn(|order|, s, i, h.pc.next);
    }
  }

  lemma LockMovesOn(order: seq<int>, s: State, i: nat, clock: Time)
    requires i < |s.handlers| && s.handlers[i].pc.Locking? && !s.handlers[i].job.PollJob?
    ensures MovesOn(|order|, s, LockStep(s, i, clock), i)
  {
  }

  lemma InsertMovesOn(n: nat, s: State, i: nat, clock: Time)
    requires i < |s.handlers| && s.handlers[i].job.ResultJob?
    ensures s.handlers[i].pc.ReadingResult? ==> MovesOn(n, s, ReadResultStep(s, i, clock), i)
    ensures s.handlers[i].pc.InsertingResult? ==> MovesOn(n, s, InsertResultStep(s, i), i)
  {
  }

  lemma WriteMovesOn(n: nat, s: State, i: nat)
    requires i < |s.handlers| && !s.handlers[i].job.PollJob?
    ensures s.handlers[i].pc.UpdatingCommand? ==> MovesOn(n, s, UpdateCommandStep(s, i), i)
    ensures s.handlers[i].pc.InsertingEvent? && s.handlers[i].job.ResultJob? ==> MovesOn(n, s, InsertEventStep(s, i), i)
  {
  }

  lemma CommitMovesOn(n: nat, order: seq<int>, s: State, i: nat, clock: Time)
    requires i < |s.handlers| && s.handlers[i].pc.Committing?
    ensures MovesOn(n, s, Step(order, s, i, clock), i)
  {
  }

  lemma UpdateExecutionMovesOn(n: nat, s: State, i: nat)
    requires i < |s.handlers| && s.handlers[i].pc.UpdatingExecution? && !s.handlers[i].job.PollJob?
    requires s.handlers[i].job.command in s.book.commands
    requires !Blocked(s, i, ExecutionRow(s.book.commands[s.handlers[i].job.command].execution))
    ensures MovesOn(n, s, UpdateExecutionStep(s, i), i)
  {
  }

  lemma StepMovesOn(order: seq<int>, s: State, i: nat, clock: Time)
    requires Inv(order, s) && i < |s.handlers| && !Ended(s.handlers[i])
    ensures MovesOn(|order|, s, Step(order, s, i, clock), i)
  {
    var h := s.handlers[i];
    assert HandlerOk(s.book, h);
    if h.pc.Reading? {
      ReadMovesOn(order, s, i, clock);
    } else if h.pc.SendingCommand? || h.pc.SendingExecution? {
      SendMovesOn(order, s, i, clock);
    } else if h.pc.Locking? {
      LockMovesOn(order, s, i, clock);
    } else if h.pc.UpdatingExecution? {
      assert CommandRow(h.job.command) in Owned(h);
      ExecutionsAreUncontended(order, s, i, h.job.command);
      UpdateExecutionMovesOn(|order|, s, i);
    } else if h.pc.Committing? {
      CommitMovesOn(|order|, order, s, i, clock);
    } else {
      assert !h.job.PollJob?;
      if h.pc.ReadingResult? || h.pc.InsertingResult? {
        InsertMovesOn(|order|, s, i, clock);
      } else {
        WriteMovesOn(|order|, s, i);
      }
    }
  }

  lemma ApplyMovesOn(order: seq<int>, s: State, e: Event)
    requires Inv(order, s)
    ensures var s' := Apply(order, s, e);
            |s'.handlers| == |s.handlers| && (s' == s || Total(|order|, s'.handlers) < Total(|order|, s.handlers))
  {
    if e.handler < |s.handlers| && !Ended(s.handlers[e.handler]) {
      var s' := Apply(order, s, e);
      if e.Exec? {
        StepMovesOn(order, s, e.handler, e.now);
      }
      TotalDrops(|order|, s, s', e.handler);
    }
  }

  lemma TotalDrops(n: nat, s: State, s': State, i: nat)
    requires i < |s.handlers| && |s'.handlers| == |s.handlers| && s'.handlers == s.handlers[i := s'.handlers[i]]
    ensures Total(n, s'.handlers) == Total(n, s.handlers) - Remaining(n, s.handlers[i]) + Remaining(n, s'.handlers[i])
  {
    SumOfUpdate(s.handlers, h => Remaining(n, h), i, s'.handlers[i]);
  }

  /** The number of events that changed something. */
  ghost function Effective(order: seq<int>, s: State, events: seq<Event>): nat {
    if events == [] then 0
    else
      var before := events[..|events| - 1];
      Effective(order, s, before) + if Run(order, s, events) == Run(order, s, before) then 0 else 1
  }

  /** Every run ends: N handlers over M commands take at most N (2 M + 7) effective events. */
  lemma {:induction false} EveryRunEnds(order: seq<int>, b: Book, jobs: seq<Job>, events: seq<Event>)
    requires Ready(order, b)
    ensures var s0 := Start(b, jobs);
            Effective(order, s0, events) + Total(|order|, Run(order, s0, events).handlers) <= (2 * |order| + 7) * |jobs|
  {
    var s0 := Start(b, jobs);
    if events == [] {
      forall i | 0 <= i < |s0.handlers|
        ensures Remaining(|order|, s0.handlers[i]) <= 2 * |order| + 7
      {
        assert s0.handlers[i] == Begin(jobs[i]);
      }
      SumAtMost(s0.handlers, h => Remaining(|order|, h), 2 * |order| + 7);
    } else {
      var before := events[..|events| - 1];
      EveryRunEnds(order, b, jobs, before);
      RunKeepsInv(order, b, jobs, before);
      ApplyMovesOn(order, Run(order, s0, before), events[|events| - 1]);
    }
  }

  // ---- no deadlock

  /** The commands after `c` in (created_at, id) order. */
  ghost function Later(commands: map<int, Command>, c: int): set<int>
    requires c in commands
  {
    set d | d in commands && Before(commands, c, d)
  }

  /** A handler that waits is blocked by one that already passed this row; if that one waits too, it waits for a row
      later in (created_at, id) order, because polls lock in that order and the others lock only one command.  */
  lemma BlockerIsAhead(order: seq<int>, s: State, i: nat) returns (j: nat)
    requires Inv(order, s) && i < |s.handlers| && Waiting(s, i)
    ensures j < |s.handlers| && !Ended(s.handlers[j])
    ensures var c := Wants(s.book, s.handlers[i]).value;
            && c in s.book.commands
            && (Waiting(s, j) ==> Wants(s.book, s.handlers[j]).value in s.book.commands
                                  && Before(s.book.commands, c, Wants(s.book, s.handlers[j]).value))
  {
    var h := s.handlers[i];
    assert HandlerOk(s.book, h);
    var c := Wants(s.book, h).value;
    if h.pc.SendingCommand? {
      assert c in h.stale;
    }
    j := s.locks[CommandRow(c)];
    var g := s.handlers[j];
    assert HandlerOk(s.book, g) && CommandRow(c) in Owned(g);
    if Waiting(s, j) {
      WantsLater(s.book, g, c);
    }
  }

  lemma WantsLater(b: Book, g: Handler, c: int)
    requires HandlerOk(b, g) && CommandRow(c) in Owned(g) && Wants(b, g).Some?
    ensures c in b.commands && Wants(b, g).value in b.commands && Before(b.commands, c, Wants(b, g).value)
  {
    assert g.pc.SendingCommand? && c in g.cmds;
    var m :| 0 <= m < g.pc.next && g.stale[m] == c;
    assert g.stale[g.pc.next] in g.stale && c in g.stale;
  }

  lemma WantedIsStored(b: Book, h: Handler)
    requires HandlerOk(b, h) && Wants(b, h).Some?
    ensures Wants(b, h).value in b.commands
  {
    if h.pc.SendingCommand? {
      var c := h.stale[h.pc.next];
      assert PollOk(b, h) && Sorted(b.commands, h.stale) && c in h.stale;
      assert c in b.commands;
    }
  }

  lemma {:induction false} FollowBlockers(order: seq<int>, s: State, i: nat) returns (j: nat)
    requires Inv(order, s) && i < |s.handlers| && Waiting(s, i) && Wants(s.book, s.handlers[i]).value in s.book.commands
    ensures j < |s.handlers| && !Ended(s.handlers[j]) && !Waiting(s, j)
    decreases |Later(s.book.commands, Wants(s.book, s.handlers[i]).value)|
  {
    var k := BlockerIsAhead(order, s, i);
    if Waiting(s, k) {
      var c, d := Wants(s.book, s.handlers[i]).value, Wants(s.book, s.handlers[k]).value;
      LaterShrinks(s.book.commands, c, d);
      j := FollowBlockers(order, s, k);
    } else {
      j := k;
    }
  }

  lemma LaterShrinks(commands: map<int, Command>, c: int, d: int)
    requires c in commands && d in commands && Before(commands, c, d)
    ensures |Later(commands, d)| < |Later(commands, c)|
  {
    assert d in Later(commands, c) && d !in Later(commands, d);
    assert Later(commands, d) + {d} <= Later(commands, c);
    SubsetSize(Later(commands, d) + {d}, Later(commands, c));
  }

  lemma SubsetSize(a: set<int>, b: set<int>)
    requires a <= b
    ensures |a| <= |b|
  {
    assert b == a + (b - a);
  }

  lemma SomeoneMoves(order: seq<int>, s: State) returns (i: nat)
    requires Inv(order, s) && !AllEnded(s)
    ensures i < |s.handlers| && !Ended(s.handlers[i]) && !Waiting(s, i)
  {
    i :| 0 <= i < |s.handlers| && !Ended(s.handlers[i]);
    if Waiting(s, i) {
      WantedIsStored(s.book, s.handlers[i]);
      i := FollowBlockers(order, s, i);
    }
  }

  lemma RunCons(order: seq<int>, s: State, e: Event, events: seq<Event>)
    ensures Run(order, s, [e] + events) == Run(order, Apply(order, s, e), events)
  {
    RunSnoc(order, s, [], e);
    assert [] + [e] == [e];
    RunAppend(order, s, [e], events);
  }

  /** From every reachable state the open handlers can all be brought to an end without a failure. */
  lemma {:induction false} NeverStuck(order: seq<int>, s: State, clock: Time) returns (future: seq<Event>)
    requires Inv(order, s)
    ensures AllEnded(Run(order, s, future))
    ensures forall k | 0 <= k < |future| :: future[k].Exec? && future[k].now == clock
    decreases Total(|order|, s.handlers)
  {
    if AllEnded(s) {
      return [];
    }
    var i := SomeoneMoves(order, s);
    var e := Exec(i, clock);
    StepMovesOn(order, s, i, clock);
    ApplyKeepsInv(order, s, e);
    ApplyMovesOn(order, s, e);
    var rest := NeverStuck(order, Apply(order, s, e), clock);
    RunCons(order, s, e, rest);
    return [e] + rest;
  }
}
