/** The retransmission queue and its ledger as objects (bundle/retransmit/queue.go and ledger.go). */
module Retransmit {
  import opened Ordering
  import Sorting
  import opened Delivery

  class Ledger {
    var applied: map<string, Entry>

    constructor ()
      ensures applied == map[]
    {
      applied := map[];
    }

    /** Applies a transaction id once; later ones get the first result back, marked as not applied. */
    method Apply(tx: Payment) returns (r: Entry)
      modifies this
      ensures old(tx.id in applied) ==> applied == old(applied) && r == old(applied[tx.id]).(applied := false, message := DEDUPLICATED)
      ensures old(tx.id !in applied) ==> applied == old(applied)[tx.id := NewEntry(tx)] && r == NewEntry(tx)
    {
      if tx.id in applied {
        r := applied[tx.id];
        r := r.(applied := false, message := DEDUPLICATED);
        return;
      }
      r := Entry(tx.id, tx.sequence, true, tx, APPLIED);
      applied := applied[tx.id := r];
    }
  }

  class Queue {
    const ledger: Ledger
    var nextSeq: map<string, nat>
    var gapPending: map<string, Envelope>
    var unconfirmed: map<string, Envelope>

    ghost function State(): (q: Buffer)
      reads this, ledger
    {
      Buffer(nextSeq, gapPending, unconfirmed, ledger.applied)
    }

    constructor (ledger: Ledger)
      ensures this.ledger == ledger && State() == Buffer(map[], map[], map[], ledger.applied)
    {
      this.ledger := ledger;
      nextSeq, gapPending, unconfirmed := map[], map[], map[];
    }

    method Await(key: string) returns (expected: nat)
      modifies this`nextSeq
      ensures expected == old(Expected(State(), key)) && State() == old(Seen(State(), key))
    {
      if key in nextSeq && nextSeq[key] > 0 {
        assert nextSeq == nextSeq[key := nextSeq[key]];
        return nextSeq[key];
      }
      nextSeq := nextSeq[key := 1];
      return 1;
    }

    /** Some held bundle whose turn it is; "" if there is none, or if its id is "". */
    method FindReady(key: string, expected: nat) returns (id: string)
      requires expected == Expected(State(), key)
      ensures id != "" ==> Ready(State(), key, id)
      ensures id == "" ==> Quiet(State(), key)
    {
      var rest := gapPending.Keys;
      while rest != {}
        invariant rest <= gapPending.Keys && forall k :: k in gapPending && k !in rest ==> !Ready(State(), key, k)
        decreases rest
      {
        var k :| k in rest;
        if gapPending[k].Stream() == key && gapPending[k].sequence == expected { return k; }
        rest := rest - {k};
      }
      return "";
    }

    /** Releases held bundles until none is ready; `picks` are the ones it released, in order. */
    method DrainReady(key: string, now: nat) returns (ghost picks: seq<string>)
      requires key in nextSeq && nextSeq[key] > 0
      modifies this, ledger
      ensures State() == DrainAlong(old(State()), key, now, picks) && Quiet(State(), key)
    {
      picks := [];
      ghost var start, q := State(), State();
      while true
        invariant key in nextSeq && nextSeq[key] > 0 && q == State() && q == DrainAlong(start, key, now, picks)
        decreases |gapPending|
      {
        SeenAgain(q, key);
        var expected := Await(key);
        var id := FindReady(key, expected);
        if id == "" { return; }
        DrainMore(start, key, now, picks, id);
        Release(key, now, id);
        q := DrainOne(q, key, now, id);
        picks := picks + [id];
      }
    }

    method Release(key: string, now: nat, id: string)
      requires key in nextSeq && nextSeq[key] > 0 && Ready(State(), key, id) && id != ""
      modifies this, ledger
      ensures State() == old(DrainOne(State(), key, now, id)) && |gapPending| < old(|gapPending|)
      ensures key in nextSeq && nextSeq[key] > 0
    {
      var expected, ready := nextSeq[key], gapPending[id];
      gapPending := gapPending - {id};
      if ready.Validates(now) {
        var r := ledger.Apply(Payment(ready.transactionId, ready.sequence, ready.payload));
        if r.applied {
          unconfirmed := unconfirmed[ready.bundleId := ready];
          nextSeq := nextSeq[key := expected + 1];
        }
      }
    }

    /** A submission; `picks` are the held bundles it released. */
    method Submit(env: Envelope, now: nat) returns (r: Response, ghost picks: seq<string>)
      modifies this, ledger
      ensures State() == Submitted(old(State()), env, now, picks) && Complete(old(State()), env, now, picks)
      ensures r == old(Answer(State(), env, now))
    {
      picks := [];
      if !env.Validates(now) { return Refused, picks; }
      var key := env.Stream();
      var expected := Await(key);
      if env.sequence > expected {
        gapPending := gapPending[env.bundleId := env];
        return Held(expected), picks;
      }
      var entry := ledger.Apply(Payment(env.transactionId, env.sequence, env.payload));
      r := Settled(expected, entry);
      if env.sequence == expected && entry.applied {
        nextSeq := nextSeq[key := expected + 1];
        unconfirmed := unconfirmed[env.bundleId := env];
        picks := DrainReady(key, now);
      }
    }

    method Confirm(id: string) returns (ok: bool)
      modifies this`unconfirmed
      ensures ok == old(id in unconfirmed) && State() == (if ok then Confirmed(old(State()), id) else old(State()))
    {
      if id !in unconfirmed { return false; }
      unconfirmed := unconfirmed - {id};
      return true;
    }

    /** All that is unconfirmed or held, by source, destination, channel and sequence. */
    method PendingForRetransmit() returns (out: seq<Envelope>)
      ensures forall i, j :: 0 <= i < j < |out| ==> NotAfter(out[i], out[j])
      ensures |out| == |unconfirmed| + |gapPending|
      ensures forall e :: e in out <==> e in unconfirmed.Values + gapPending.Values
    {
      var a := ValuesOf(unconfirmed);
      var b := ValuesOf(gapPending);
      PrecedesIsStrictWeak();
      out := Sorting.SortBy(a + b, Precedes);
      SameMembers(a + b, out);
      InOrderMeaning(out);
    }
  }

  lemma SeenAgain(q: Buffer, key: string)
    requires key in q.nextSeq && q.nextSeq[key] > 0
    ensures Seen(q, key) == q
  {
    assert q.nextSeq[key := q.nextSeq[key]] == q.nextSeq;
  }

  lemma DrainMore(q: Buffer, key: string, now: nat, picks: seq<string>, id: string)
    ensures DrainAlong(q, key, now, picks + [id]) == DrainOne(DrainAlong(q, key, now, picks), key, now, id)
  {
    assert (picks + [id])[..|picks|] == picks;
  }

  // ---- Listing -------------------------------------------------------------------------------

  predicate Stands(m: map<string, Envelope>, k: string, e: Envelope) { k in m && m[k] == e }

  method ValuesOf(m: map<string, Envelope>) returns (s: seq<Envelope>)
    ensures |s| == |m| && forall e :: e in s <==> e in m.Values
  {
    s := [];
    var rest := m.Keys;
    while rest != {}
      invariant rest <= m.Keys && |s| + |rest| == |m|
      invariant forall e :: e in s <==> exists k :: k !in rest && Stands(m, k, e)
      decreases rest
    {
      var k :| k in rest;
      ghost var before := s;
      s := s + [m[k]];
      ghost var after := rest - {k};
      forall e ensures e in s <==> exists j :: j !in after && Stands(m, j, e) {
        assert e in s <==> e in before || e == m[k];
        if e == m[k] { assert k !in after && Stands(m, k, e); }
        if j :| j !in after && Stands(m, j, e) { assert j == k || j !in rest; }
      }
      rest := rest - {k};
    }
    forall e ensures e in s <==> e in m.Values {
      if e in m.Values {
        var k :| k in m && m[k] == e;
        assert Stands(m, k, e);
      }
    }
  }

  /** Earlier in the listing: the first differing part of the stream decides, then the sequence. */
  predicate Precedes(a: Envelope, b: Envelope)
  {
    if a.sourceNodeId != b.sourceNodeId then Less(a.sourceNodeId, b.sourceNodeId)
    else if a.destinationNodeId != b.destinationNodeId then Less(a.destinationNodeId, b.destinationNodeId)
    else if a.channelId != b.channelId then Less(a.channelId, b.channelId)
    else a.sequence < b.sequence
  }

  /** By source, destination, channel and sequence. */
  predicate NotAfter(a: Envelope, b: Envelope)
  {
    || Less(a.sourceNodeId, b.sourceNodeId)
    || (a.sourceNodeId == b.sourceNodeId && Less(a.destinationNodeId, b.destinationNodeId))
    || (a.sourceNodeId == b.sourceNodeId && a.destinationNodeId == b.destinationNodeId &&
        (Less(a.channelId, b.channelId) || (a.channelId == b.channelId && a.sequence <= b.sequence)))
  }

  lemma InOrderMeaning(out: seq<Envelope>)
    requires Sorting.InOrder(Precedes, out)
    ensures forall i, j :: 0 <= i < j < |out| ==> NotAfter(out[i], out[j])
  {
    forall i, j | 0 <= i < j < |out| ensures NotAfter(out[i], out[j]) {
      assert !Precedes(out[j], out[i]);
      Total(out[i].sourceNodeId, out[j].sourceNodeId);
      Total(out[i].destinationNodeId, out[j].destinationNodeId);
      Total(out[i].channelId, out[j].channelId);
    }
  }

  /** Whatever `c` is, it comes after `a` or before `b`. */
  lemma PrecedesCuts(a: Envelope, b: Envelope, c: Envelope)
    ensures Precedes(a, b) ==> Precedes(a, c) || Precedes(c, b)
  {
    Between(a.sourceNodeId, b.sourceNodeId, c.sourceNodeId);
    Between(a.destinationNodeId, b.destinationNodeId, c.destinationNodeId);
    Between(a.channelId, b.channelId, c.channelId);
    Total(a.sourceNodeId, c.sourceNodeId);
    Total(a.destinationNodeId, c.destinationNodeId);
    Total(a.channelId, c.channelId);
    Irreflexive(a.sourceNodeId);
    Irreflexive(a.destinationNodeId);
    Irreflexive(a.channelId);
  }

  lemma PrecedesNotBoth(a: Envelope, b: Envelope)
    ensures !(Precedes(a, b) && Precedes(b, a))
  {
    NotBoth(a.sourceNodeId, b.sourceNodeId);
    NotBoth(a.destinationNodeId, b.destinationNodeId);
    NotBoth(a.channelId, b.channelId);
  }

  lemma PrecedesIsStrictWeak()
    ensures Sorting.StrictWeak(Precedes)
  {
    forall a, b ensures Sorting.Asymmetric(Precedes, a, b) { PrecedesNotBoth(a, b); }
    forall a, b, c ensures Sorting.Cuts(Precedes, a, b, c) { PrecedesCuts(a, b, c); }
  }

  lemma SameMembers(a: seq<Envelope>, b: seq<Envelope>)
    requires multiset(a) == multiset(b)
    ensures |a| == |b| && forall e :: e in a <==> e in b
  {
    assert |multiset(a)| == |a| && |multiset(b)| == |b|;
    assert forall e :: e in a <==> e in multiset(a);
    assert forall e :: e in b <==> e in multiset(b);
  }

  // ---- A whole run ---------------------------------------------------------------------------

  datatype Call = Send(env: Envelope, now: nat) | Acknowledge(bundleId: string)

  /** The event of a run is the call made, with the choices it took. */
  predicate Matches(event: Event, call: Call)
  {
    match call
    case Send(env, now) => event.Submit? && event.env == env && event.now == now
    case Acknowledge(id) => event == Event.Confirm(id)
  }

  /** A new queue serving any calls goes through a lawful run of the state machine. */
  method Serve(calls: seq<Call>) returns (queue: Queue, ghost events: seq<Event>)
    ensures fresh(queue) && queue.State() == Run(events).buffer && Lawful(events)
    ensures |events| == |calls| && forall i :: 0 <= i < |calls| ==> Matches(events[i], calls[i])
  {
    var ledger := new Ledger();
    queue := new Queue(ledger);
    events := [];
    for n := 0 to |calls|
      invariant fresh(queue) && fresh(queue.ledger) && queue.State() == Run(events).buffer && Lawful(events)
      invariant |events| == n && forall i :: 0 <= i < n ==> Matches(events[i], calls[i])
    {
      ghost var h := Run(events);
      ghost var event := ServeOne(queue, h, calls[n]);
      LawfulMore(events, event);
      events := events + [event];
    }
  }

  lemma LawfulMore(events: seq<Event>, event: Event)
    requires Lawful(events) && LawfulStep(Run(events), event)
    ensures Lawful(events + [event]) && Run(events + [event]) == Step(Run(events), event)
  {
    assert (events + [event])[..|events|] == events;
  }

  method ServeOne(queue: Queue, ghost h: History, call: Call) returns (ghost event: Event)
    requires queue.State() == h.buffer
    modifies queue, queue.ledger
    ensures Matches(event, call) && LawfulStep(h, event) && queue.State() == Step(h, event).buffer
  {
    match call {
      case Send(env, now) =>
        var r, picks := queue.Submit(env, now);
        event := Event.Submit(env, now, picks);
      case Acknowledge(id) =>
        var ok := queue.Confirm(id);
        event := Event.Confirm(id);
    }
  }
}
