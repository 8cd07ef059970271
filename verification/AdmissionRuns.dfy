/** Admission over every run: what each stored payment had to satisfy. */
module AdmissionRuns {
  import opened Schema
  import opened Checkout
  import opened PaymentMachine
  import opened PaymentInvariant
  import opened PaymentChange
  import opened Serializability
  import opened Admission
  import Contention

  /** Every commit of a run was admissible on the tables committed just before, and leaves what an accepted payment leaves. */
  lemma CommitsAreAdmitted(env: Env, origin: Tables, s: State, e: Event, s': State)
    requires SerialSoFar(env, origin, s) && Follows(s, e, s', Commit)
    ensures var x := s.txns[e.txn];
            && Admissible(env, s.tables.qrs, x.call, x.now)
            && Leaves(env, s.tables, x.call, x.now, x.id, s'.tables)
            && s'.history == s.history + [Entry(e.txn, x.call, x.now, x.id, x.terms, true, Accepted(Payload(s'.tables, x.id)))]
  {
    var x := s.txns[e.txn];
    assert CheckedUnder(env, s.tables.qrs, x);
    VerdictExactly(env, s.tables.qrs, x.call, x.now);
    SettledLeaves(env, s.tables, x.call, x.now, x.id);
  }

  /** Entry `k` of the history stored payment `p`, for a request that met every rule. */
  ghost predicate AdmittedBy(env: Env, qrs: map<Digest, QrCode>, s: State, p: int, k: nat)
    requires p in s.tables.payments
  {
    && k < |s.history| && s.history[k].committed && s.history[k].id == p
    && var call, row := s.history[k].call, s.tables.payments[p];
    && Admissible(env, qrs, call, s.history[k].now)
    && row.device == call.device.id && row.station == call.device.station && row.key == call.key && row.paymentMethod == call.body.paymentMethod
    && ProgramAsked(qrs, call.body) == Some(row.program)
  }

  ghost predicate AllAdmitted(env: Env, t: Tables, s: State) {
    forall p | p in s.tables.payments && p !in t.payments :: exists k :: AdmittedBy(env, t.qrs, s, p, k)
  }

  lemma SameRequirements(env: Env, qrs: map<Digest, QrCode>, qrs': map<Digest, QrCode>, call: Call, now: Time)
    requires SameScope(qrs, qrs')
    ensures Admissible(env, qrs, call, now) <==> Admissible(env, qrs', call, now)
    ensures ProgramAsked(qrs, call.body) == ProgramAsked(qrs', call.body)
  {
    VerdictIgnoresUsage(env, qrs, qrs', call, now);
    VerdictExactly(env, qrs, call, now);
    VerdictExactly(env, qrs', call, now);
  }

  lemma CommitIsAdmitted(env: Env, t: Tables, s: State, e: Event, s': State)
    requires SerialSoFar(env, t, s) && SameScope(t.qrs, s.tables.qrs) && Follows(s, e, s', Commit)
    ensures var p := s.txns[e.txn].id;
            && p in s'.tables.payments && AdmittedBy(env, t.qrs, s', p, |s.history|)
            && s'.tables.payments == s.tables.payments[p := s'.tables.payments[p]]
  {
    var x := s.txns[e.txn];
    CommitsAreAdmitted(env, t, s, e, s');
    SameRequirements(env, t.qrs, s.tables.qrs, x.call, x.now);
  }

  lemma StaysAdmitted(env: Env, t: Tables, s: State, e: Event, s': State, c: Change, p: int)
    requires AllAdmitted(env, t, s) && Follows(s, e, s', c)
    requires p in s.tables.payments && p !in t.payments && p in s'.tables.payments && s'.tables.payments[p] == s.tables.payments[p]
    ensures exists k :: AdmittedBy(env, t.qrs, s', p, k)
  {
    var k :| AdmittedBy(env, t.qrs, s, p, k);
    assert AdmittedBy(env, t.qrs, s', p, k);
  }

  lemma FollowKeepsAdmitted(env: Env, t: Tables, s: State, e: Event, s': State, c: Change)
    requires SerialSoFar(env, t, s) && SameScope(t.qrs, s.tables.qrs) && AllAdmitted(env, t, s) && Follows(s, e, s', c)
    ensures AllAdmitted(env, t, s')
  {
    if c.Commit? {
      CommitIsAdmitted(env, t, s, e, s');
    }
    forall p | p in s'.tables.payments && p !in t.payments
      ensures exists k :: AdmittedBy(env, t.qrs, s', p, k)
    {
      if !(c.Commit? && p == s.txns[e.txn].id) {
        StaysAdmitted(env, t, s, e, s', c, p);
      }
    }
  }

  lemma {:induction false} RunKeepsAdmitted(env: Env, t: Tables, sequence: int, calls: seq<Call>, events: seq<Event>)
    requires Ready(t, sequence) && Constantly(env, events)
    ensures AllAdmitted(env, t, Run(Start(t, sequence, calls), events))
  {
    if events != [] {
      var before := events[..|events| - 1];
      var s, e := Run(Start(t, sequence, calls), before), events[|events| - 1];
      RunKeepsAdmitted(env, t, sequence, calls, before);
      RunIsSerial(env, t, sequence, calls, before);
      RunKeepsInv(t, sequence, calls, before);
      Contention.ScopeNeverChanges(t, sequence, calls, before);
      var c := Classify(t, s, e);
      FollowKeepsAdmitted(env, t, s, e, Apply(s, e), c);
    }
  }

  ghost predicate Permitted(env: Env, row: Payment) {
    && (row.device, row.program) in env.entitled
    && (row.program, row.paymentMethod) in env.enabled
    && row.program in env.programs && row.station in env.stations
    && env.programs[row.program].active && env.programs[row.program].company == env.stations[row.station]
  }

  lemma AdmittedIsPermitted(env: Env, qrs: map<Digest, QrCode>, s: State, p: int, k: nat)
    requires p in s.tables.payments && AdmittedBy(env, qrs, s, p, k)
    ensures Permitted(env, s.tables.payments[p])
  {
    var call, now := s.history[k].call, s.history[k].now;
    assert Holds(Entitled, env, qrs, call, now);
    assert Holds(MethodOpen, env, qrs, call, now);
    assert Holds(ProgramOnSale, env, qrs, call, now);
  }

  /** In any run under constant tables, whatever the schedule and the mix of runtimes: a payment the run has stored is for
      an active program of its station's company, which its device is entitled to, by a method open for it, through a
      request that met every rule when it looked.  */
  lemma StoredPaymentsWereAdmitted(env: Env, t: Tables, sequence: int, calls: seq<Call>, events: seq<Event>, p: int) returns (k: nat)
    requires Ready(t, sequence) && Constantly(env, events)
    requires p in Run(Start(t, sequence, calls), events).tables.payments && p !in t.payments
    ensures var s := Run(Start(t, sequence, calls), events);
            AdmittedBy(env, t.qrs, s, p, k) && Permitted(env, s.tables.payments[p])
  {
    RunKeepsAdmitted(env, t, sequence, calls, events);
    var s := Run(Start(t, sequence, calls), events);
    k := Admitter(env, t, s, p);
    AdmittedIsPermitted(env, t.qrs, s, p, k);
  }

  lemma Admitter(env: Env, t: Tables, s: State, p: int) returns (k: nat)
    requires AllAdmitted(env, t, s) && p in s.tables.payments && p !in t.payments
    ensures AdmittedBy(env, t.qrs, s, p, k)
  {
    var n: nat :| AdmittedBy(env, t.qrs, s, p, n);
    k := n;
  }
}
