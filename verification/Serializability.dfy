/** Any interleaving leaves the tables and the replies of a serial execution. */
module Serializability {
  import opened Schema
  import opened Checkout
  import opened PaymentMachine
  import opened PaymentInvariant
  import opened PaymentChange

  /** The requests of a history, one atomic create after the other. */
  ghost function Serial(env: Env, t: Tables, history: seq<Entry>): (Tables, seq<Reply>) {
    if history == [] then (t, [])
    else
      var e := history[|history| - 1];
      var (before, replies) := Serial(env, t, history[..|history| - 1]);
      var (after, reply) := AtomicCreate(env, before, e.call, e.now, e.id);
      (after, replies + [reply])
  }

  function Replies(history: seq<Entry>): seq<Reply> {
    seq(|history|, k requires 0 <= k < |history| => history[k].reply)
  }

  ghost predicate Constantly(env: Env, events: seq<Event>) {
    forall k | 0 <= k < |events| && events[k].Exec? :: events[k].env == env
  }

  /** The columns of a QR code that no payment writes. */
  ghost predicate SameScope(qrs: map<Digest, QrCode>, qrs': map<Digest, QrCode>) {
    && qrs.Keys == qrs'.Keys
    && forall h | h in qrs :: qrs'[h] == qrs[h].(usageCount := qrs'[h].usageCount, status := qrs'[h].status)
  }

  /** The unlocked preflight reads only such columns, so no commit changes what any guard sees. */
  lemma {:induction false} GuardsIgnoreUsage(g: Guard, env: Env, qrs: map<Digest, QrCode>, qrs': map<Digest, QrCode>, call: Call, now: Time)
    requires SameScope(qrs, qrs')
    ensures ArriveAt(g, env, qrs', call, now) == ArriveAt(g, env, qrs, call, now)
    decreases Rank(g)
  {
    if g != Operational {
      GuardsIgnoreUsage(Before(g), env, qrs, qrs', call, now);
    }
  }

  ghost predicate CheckedUnder(env: Env, qrs: map<Digest, QrCode>, x: Txn) {
    && (x.pc.Checking? ==> ArriveAt(x.pc.guard, env, qrs, x.call, x.now) == Success(x.terms))
    && (x.pc.Charging? || Judged(x) ==> Verdict(env, qrs, x.call, x.now) == Success(x.terms))
  }

  ghost predicate SerialSoFar(env: Env, origin: Tables, s: State) {
    && Serial(env, origin, s.history) == (s.tables, Replies(s.history))
    && forall i | 0 <= i < |s.txns| :: CheckedUnder(env, s.tables.qrs, s.txns[i])
  }

  lemma SerialExtends(env: Env, origin: Tables, s: State, e: Entry, after: Tables)
    requires Serial(env, origin, s.history) == (s.tables, Replies(s.history))
    requires AtomicCreate(env, s.tables, e.call, e.now, e.id) == (after, e.reply)
    ensures Serial(env, origin, s.history + [e]) == (after, Replies(s.history + [e]))
  {
    var h := s.history + [e];
    assert h[..|h| - 1] == s.history;
    assert Replies(h) == Replies(s.history) + [e.reply];
  }

  lemma LocalStepStaysChecked(s: State, i: nat, env: Env, clock: Time)
    requires i < |s.txns| && CheckedUnder(env, s.tables.qrs, s.txns[i])
    ensures i < |Step(s, i, env, clock).txns|
    ensures CheckedUnder(env, s.tables.qrs, Step(s, i, env, clock).txns[i])
  {
    var x := s.txns[i];
    match x.pc
    case Checking(g) => CheckAdvances(s, i, env, clock);
    case Lookup =>
    case Finished(_) =>
    case RolledBack =>
    case Committing =>
    case _ => StatementIsLocal(s, i, env, clock);
  }

  lemma CheckAdvances(s: State, i: nat, env: Env, clock: Time)
    requires i < |s.txns| && s.txns[i].pc.Checking? && CheckedUnder(env, s.tables.qrs, s.txns[i])
    ensures CheckedUnder(env, s.tables.qrs, Step(s, i, env, clock).txns[i])
  {
    var x := s.txns[i];
    var g := x.pc.guard;
    CheckStep(s, i, env, clock);
    match Check(g, env, s.tables.qrs, x.call, x.now, x.terms)
    case Failure(_) =>
    case Success(t) =>
      if g != Instrument {
        Passed(g, env, s.tables.qrs, x.call, x.now, x.terms, t);
      }
  }

  lemma CheckStep(s: State, i: nat, env: Env, clock: Time)
    requires i < |s.txns| && s.txns[i].pc.Checking?
    ensures var x, x' := s.txns[i], Step(s, i, env, clock).txns[i];
            var g := x.pc.guard;
            match Check(g, env, s.tables.qrs, x.call, x.now, x.terms)
            case Failure(_) => Ended(x')
            case Success(terms) => x' == x.(terms := terms, pc := if g == Instrument then Charging else Checking(Next(g)))
  {
  }

  lemma CommitKeepsScope(t: Tables, call: Call, now: Time, id: int, terms: Terms)
    ensures SameScope(t.qrs, Settle(t, call, now, id, terms).qrs)
  {
  }

  lemma ApplyKeepsSerial(env: Env, origin: Tables, s: State, e: Event)
    requires Inv(origin, s) && SerialSoFar(env, origin, s)
    requires e.Exec? ==> e.env == env
    ensures SerialSoFar(env, origin, Apply(s, e))
  {
    var s' := Apply(s, e);
    var c := Classify(origin, s, e);
    match c
    case Nothing =>
    case Local =>
      if e.Exec? {
        LocalStepStaysChecked(s, e.txn, env, e.now);
      }
    case Answer(now, reply) => AnswerKeepsSerial(env, origin, s, e, s', now, reply);
    case Commit => CommitKeepsSerial(env, origin, s, e);
  }

  lemma AnswerKeepsSerial(env: Env, origin: Tables, s: State, e: Event, s': State, now: Time, reply: Reply)
    requires Inv(origin, s) && SerialSoFar(env, origin, s)
    requires e.Exec? && e.env == env && Follows(s, e, s', Answer(now, reply))
    ensures SerialSoFar(env, origin, s')
  {
    var x := s.txns[e.txn];
    var entry := Entry(e.txn, x.call, now, x.id, x.terms, false, reply);
    assert s'.history == s.history + [entry];
    AnswerIsAtomic(env, origin, s, e, s', now, reply);
    SerialExtends(env, origin, s, entry, s.tables);
  }

  /** A request answered without a commit is answered as it would be alone on the committed tables. */
  lemma AnswerIsAtomic(env: Env, origin: Tables, s: State, e: Event, s': State, now: Time, reply: Reply)
    requires Inv(origin, s) && SerialSoFar(env, origin, s)
    requires e.Exec? && e.env == env && Follows(s, e, s', Answer(now, reply))
    ensures AtomicCreate(env, s.tables, s.txns[e.txn].call, now, s.txns[e.txn].id) == (s.tables, reply)
  {
    var x := s.txns[e.txn];
    assert TxnOk(s.tables, s.sequence, x) && CheckedUnder(env, s.tables.qrs, x);
    if x.pc.Checking? {
      RefusalIsFinal(x.pc.guard, env, s.tables.qrs, x.call, x.now, x.terms, reply.code);
    }
  }

  lemma CommittedRowsPass(t: Tables, sequence: int, x: Txn)
    requires x.pc.Committing? && InsertsOk(t, sequence, x)
    ensures ChecksHold(x.id, x.call, x.now, x.terms, x.outcome)
  {
  }

  lemma CommitKeepsSerial(env: Env, origin: Tables, s: State, e: Event)
    requires Inv(origin, s) && SerialSoFar(env, origin, s)
    requires e.Exec? && e.env == env && Follows(s, e, Apply(s, e), Commit)
    ensures SerialSoFar(env, origin, Apply(s, e))
  {
    var x, s' := s.txns[e.txn], Apply(s, e);
    assert CheckedUnder(env, s.tables.qrs, x) && TxnOk(s.tables, s.sequence, x);
    CommittedRowsPass(s.tables, s.sequence, x);
    SerialExtends(env, origin, s, Entry(e.txn, x.call, x.now, x.id, x.terms, true, Accepted(Payload(s'.tables, x.id))), s'.tables);
    CommitKeepsScope(s.tables, x.call, x.now, x.id, x.terms);
    forall j | 0 <= j < |s'.txns|
      ensures CheckedUnder(env, s'.tables.qrs, s'.txns[j])
    {
      var y := s'.txns[j];
      if y.pc.Checking? {
        GuardsIgnoreUsage(y.pc.guard, env, s.tables.qrs, s'.tables.qrs, y.call, y.now);
      }
      VerdictIgnoresUsage(env, s.tables.qrs, s'.tables.qrs, y.call, y.now);
    }
  }

  lemma VerdictIgnoresUsage(env: Env, qrs: map<Digest, QrCode>, qrs': map<Digest, QrCode>, call: Call, now: Time)
    requires SameScope(qrs, qrs')
    ensures Verdict(env, qrs', call, now) == Verdict(env, qrs, call, now)
  {
    GuardsIgnoreUsage(Instrument, env, qrs, qrs', call, now);
  }

  /** Any interleaving, with rollbacks anywhere, is a serial execution: running an atomic create for each
      finished request, in the order of commits, replays, refusals and aborts, leaves the same tables and gives every
      request the same reply.  */
  lemma {:induction false} RunIsSerial(env: Env, t: Tables, sequence: int, calls: seq<Call>, events: seq<Event>)
    requires Ready(t, sequence) && Constantly(env, events)
    ensures var s := Run(Start(t, sequence, calls), events);
            && Serial(env, t, s.history) == (s.tables, Replies(s.history))
            && HistoryOk(s)
            && SerialSoFar(env, t, s)
  {
    if events != [] {
      var before := events[..|events| - 1];
      RunIsSerial(env, t, sequence, calls, before);
      RunKeepsInv(t, sequence, calls, before);
      ApplyKeepsSerial(env, t, Run(Start(t, sequence, calls), before), events[|events| - 1]);
    } else {
      assert Replies([]) == [];
    }
    RunKeepsHistory(t, sequence, calls, events);
  }
}
