/** One payment per (device, key), over every run. */
module Idempotency {
  import opened Schema
  import opened Json
  import opened Checkout
  import opened PaymentMachine
  import opened PaymentInvariant
  import opened PaymentChange

  /** Two requests that hash to the same digest: the same body, serialised to the same text. */
  predicate SameRequest(c: Call, d: Call) {
    c.body == d.body && (c.runtime == d.runtime || Plain(c.body))
  }

  lemma SameHashExactly(c: Call, d: Call)
    ensures BodyHash(c) == BodyHash(d) <==> SameRequest(c, d)
  {
    SameTextExactly(c.runtime, c.body, d.runtime, d.body);
  }

  /** All accepted replies for one (device, key) are the same reply and answer the same request; at most one payment is
      stored under it.  */
  lemma OnePaymentPerKey(t: Tables, sequence: int, calls: seq<Call>, events: seq<Event>, i: nat, j: nat)
    requires Ready(t, sequence)
    requires var s := Run(Start(t, sequence, calls), events);
             && i < |s.txns| && j < |s.txns|
             && s.txns[i].pc.Finished? && s.txns[i].pc.reply.Accepted?
             && s.txns[j].pc.Finished? && s.txns[j].pc.reply.Accepted?
             && KeyOf(s.txns[i]) == KeyOf(s.txns[j])
    ensures var s := Run(Start(t, sequence, calls), events);
            && s.txns[i].pc.reply == s.txns[j].pc.reply
            && SameRequest(s.txns[i].call, s.txns[j].call)
            && KeysUnique(s.tables.payments)
  {
    RunKeepsInv(t, sequence, calls, events);
    var s := Run(Start(t, sequence, calls), events);
    SamePayment(s.tables, s.sequence, s.txns[i], s.txns[j]);
  }

  lemma SamePayment(t: Tables, sequence: int, x: Txn, y: Txn)
    requires KeysUnique(t.payments) && TxnOk(t, sequence, x) && TxnOk(t, sequence, y)
    requires x.pc.Finished? && x.pc.reply.Accepted? && y.pc.Finished? && y.pc.reply.Accepted? && KeyOf(x) == KeyOf(y)
    ensures x.pc.reply == y.pc.reply && SameRequest(x.call, y.call)
  {
    SameHashExactly(x.call, y.call);
  }

  /** A request that had not yet looked its key up when the payment `row` was stored under it as `p`. */
  ghost predicate BoundTo(t: Tables, x: Txn, p: int, row: Payment) {
    && p in t.payments && t.payments[p] == row
    && SameKey(row, x.call.device.id, x.call.key)
    && match x.pc
       case AwaitKey => true
       case Lookup => true
       case RolledBack => true
       case Finished(reply) =>
         if row.requestHash == BodyHash(x.call) then reply == Accepted(Payload(t, p))
         else reply == Refused(IdempotencyConflict)
       case _ => false
  }

  lemma LocalKeepsBound(s: State, e: Event, i: nat, p: int, row: Payment)
    requires i < |s.txns| && BoundTo(s.tables, s.txns[i], p, row) && Follows(s, e, Apply(s, e), Local)
    ensures i < |Apply(s, e).txns| && BoundTo(Apply(s, e).tables, Apply(s, e).txns[i], p, row)
  {
  }

  lemma AnswerKeepsBound(s: State, e: Event, s': State, now: Time, reply: Reply, i: nat, p: int, row: Payment)
    requires KeysUnique(s.tables.payments)
    requires i < |s.txns| && BoundTo(s.tables, s.txns[i], p, row) && Follows(s, e, s', Answer(now, reply))
    ensures i < |s'.txns| && BoundTo(s'.tables, s'.txns[i], p, row)
  {
    if e.txn == i {
      assert Existing(s.tables.payments, s.txns[i].call) == p;
    }
  }

  lemma CommitKeepsBound(s: State, e: Event, s': State, i: nat, p: int, row: Payment)
    requires i < |s.txns| && BoundTo(s.tables, s.txns[i], p, row) && Follows(s, e, s', Commit)
    ensures i < |s'.txns| && BoundTo(s'.tables, s'.txns[i], p, row)
  {
    var y := s.txns[e.txn];
    SettledPayload(s.tables, y.call, y.now, y.id, y.terms, p);
  }

  lemma ApplyKeepsBound(origin: Tables, s: State, e: Event, i: nat, p: int, row: Payment)
    requires Inv(origin, s) && i < |s.txns| && BoundTo(s.tables, s.txns[i], p, row)
    ensures i < |Apply(s, e).txns| && BoundTo(Apply(s, e).tables, Apply(s, e).txns[i], p, row)
  {
    var c := Classify(origin, s, e);
    match c
    case Nothing =>
    case Local => LocalKeepsBound(s, e, i, p, row);
    case Answer(now, reply) => AnswerKeepsBound(s, e, Apply(s, e), now, reply, i, p, row);
    case Commit => CommitKeepsBound(s, e, Apply(s, e), i, p, row);
  }

  lemma {:induction false} RunKeepsBound(t: Tables, sequence: int, calls: seq<Call>, past: seq<Event>, future: seq<Event>,
                                         i: nat, p: int, row: Payment)
    requires Ready(t, sequence)
    requires var s := Run(Start(t, sequence, calls), past); i < |s.txns| && BoundTo(s.tables, s.txns[i], p, row)
    ensures var s := Run(Start(t, sequence, calls), past + future); i < |s.txns| && BoundTo(s.tables, s.txns[i], p, row)
  {
    if future == [] {
      assert past + future == past;
    } else {
      var before, e := future[..|future| - 1], future[|future| - 1];
      RunKeepsBound(t, sequence, calls, past, before, i, p, row);
      RunKeepsInv(t, sequence, calls, past + before);
      ApplyKeepsBound(t, Run(Start(t, sequence, calls), past + before), e, i, p, row);
      RunSnoc(Start(t, sequence, calls), past + before, e);
      assert past + before + [e] == past + future;
    }
  }

  /** Once a payment is stored, every later lookup under its key answers with it, or with a conflict when the digest
      differs: no request that had not looked up yet can end in any other way.  */
  lemma StoredKeyDecides(t: Tables, sequence: int, calls: seq<Call>, past: seq<Event>, future: seq<Event>, i: nat, p: int, row: Payment)
    requires Ready(t, sequence)
    requires var s := Run(Start(t, sequence, calls), past);
             && i < |s.txns| && (s.txns[i].pc.AwaitKey? || s.txns[i].pc.Lookup?)
             && p in s.tables.payments && s.tables.payments[p] == row
             && SameKey(row, s.txns[i].call.device.id, s.txns[i].call.key)
    ensures var s := Run(Start(t, sequence, calls), past + future); i < |s.txns| && BoundTo(s.tables, s.txns[i], p, row)
  {
    RunKeepsBound(t, sequence, calls, past, future, i, p, row);
  }

  /** In terms of the request that was stored: a later request under its key that finishes is answered with the payment
      exactly when it is the same request, and with a conflict otherwise. The same body is a different request when the
      other runtime serves it and a text in it holds a character that only Go escapes.  */
  lemma StoredRequestDecides(t: Tables, sequence: int, calls: seq<Call>, past: seq<Event>, future: seq<Event>, i: nat, p: int, first: Call)
    requires Ready(t, sequence)
    requires var s := Run(Start(t, sequence, calls), past);
             && i < |s.txns| && (s.txns[i].pc.AwaitKey? || s.txns[i].pc.Lookup?)
             && p in s.tables.payments && SameKey(s.tables.payments[p], s.txns[i].call.device.id, s.txns[i].call.key)
             && s.tables.payments[p].requestHash == BodyHash(first)
    ensures var s := Run(Start(t, sequence, calls), past + future);
            && i < |s.txns|
            && (s.txns[i].pc.Finished? ==>
                  && p in s.tables.payments
                  && s.txns[i].pc.reply == if SameRequest(first, s.txns[i].call) then Accepted(Payload(s.tables, p))
                                           else Refused(IdempotencyConflict))
  {
    var row := Run(Start(t, sequence, calls), past).tables.payments[p];
    StoredKeyDecides(t, sequence, calls, past, future, i, p, row);
    var s := Run(Start(t, sequence, calls), past + future);
    BoundAnswer(s.tables, s.txns[i], p, row, first);
  }

  lemma BoundAnswer(t: Tables, x: Txn, p: int, row: Payment, first: Call)
    requires BoundTo(t, x, p, row) && row.requestHash == BodyHash(first)
    ensures x.pc.Finished? ==>
              x.pc.reply == if SameRequest(first, x.call) then Accepted(Payload(t, p)) else Refused(IdempotencyConflict)
  {
    SameHashExactly(first, x.call);
  }
}
