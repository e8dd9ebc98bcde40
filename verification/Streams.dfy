/** Which bundles share a stream, and what a run delivers in terms of source, destination and channel
    (bundle/retransmit/queue.go). */
module Streams {
  import opened Messages
  import opened Delivery

  /** The separator does not occur. */
  predicate Clean(id: string)
  {
    '\0' !in id
  }

  /** Node ids without the separator; the channel id comes last and may hold anything. */
  predicate CleanRoute(e: Envelope)
  {
    Clean(e.sourceNodeId) && Clean(e.destinationNodeId)
  }

  predicate SameRoute(e: Envelope, f: Envelope)
  {
    e.sourceNodeId == f.sourceNodeId && e.destinationNodeId == f.destinationNodeId && e.channelId == f.channelId
  }

  /** The first separator splits a key. */
  lemma SplitOnce(a: string, b: string, x: string, y: string)
    requires Clean(a) && Clean(b) && a + "\0" + x == b + "\0" + y
    ensures a == b && x == y
  {
    var s := a + "\0" + x;
    assert s[|a|] == '\0' && s[|b|] == '\0';
    assert |a| == |b|;
    assert a == s[..|a|] == b && x == s[|a| + 1..] == y;
  }

  /** Bundles share a stream if and only if source, destination and channel are the same. */
  lemma StreamExactly(e: Envelope, f: Envelope)
    requires CleanRoute(e) && CleanRoute(f)
    ensures e.Stream() == f.Stream() <==> SameRoute(e, f)
  {
    var x, y := e.destinationNodeId + "\0" + e.channelId, f.destinationNodeId + "\0" + f.channelId;
    assert e.Stream() == e.sourceNodeId + "\0" + x && f.Stream() == f.sourceNodeId + "\0" + y;
    if e.Stream() == f.Stream() {
      SplitOnce(e.sourceNodeId, f.sourceNodeId, x, y);
      SplitOnce(e.destinationNodeId, f.destinationNodeId, e.channelId, f.channelId);
    }
  }

  /** With a separator inside a node id different routes can share a stream. */
  lemma StreamsCollide()
    ensures var e := FIRST.(sourceNodeId := "a", destinationNodeId := "b\0c", channelId := "d");
      var f := FIRST.(sourceNodeId := "a\0b", destinationNodeId := "c", channelId := "d");
      e.Stream() == f.Stream() && !SameRoute(e, f)
  {
    var e := FIRST.(sourceNodeId := "a", destinationNodeId := "b\0c", channelId := "d");
    var f := FIRST.(sourceNodeId := "a\0b", destinationNodeId := "c", channelId := "d");
    assert e.Stream() == "a\0b\0c\0d" && f.Stream() == "a\0b\0c\0d";
    assert e.sourceNodeId[..] == "a" && |f.sourceNodeId| == 3;
  }

  /** Whether a bundle is acceptable changes with time only once, after its expiration tick, if it has one. */
  lemma ValidUntil(e: Envelope, now: nat, later: nat)
    requires e.Validates(now)
    ensures e.Validates(later) <==> e.expirationTick == 0 || later <= e.expirationTick
    ensures later <= now ==> e.Validates(later)
  {
  }

  /** A submission leaves what another route expects as it was. */
  lemma RoutesApart(q: Buffer, env: Envelope, now: nat, picks: seq<string>, other: Envelope)
    requires CleanRoute(env) && CleanRoute(other) && !SameRoute(env, other)
    ensures Expected(Submitted(q, env, now, picks), other.Stream()) == Expected(q, other.Stream())
  {
    StreamExactly(env, other);
    SubmittedOthers(q, env, now, picks, other.Stream());
  }

  // ---- A run in terms of routes --------------------------------------------------------------

  ghost predicate AllClean(all: set<Envelope>)
  {
    forall e :: e in all ==> CleanRoute(e)
  }

  predicate NthOf(f: Envelope, e: Envelope, n: nat)
  {
    SameRoute(e, f) && f.sequence == n
  }

  /** A bundle of the route of `e` with number `n` is among them. */
  ghost predicate There(all: set<Envelope>, e: Envelope, n: nat)
  {
    exists f :: f in all && NthOf(f, e, n)
  }

  /** No earlier bundle of the route is missing. */
  ghost predicate Complete(all: set<Envelope>, e: Envelope)
  {
    forall n :: 1 <= n < e.sequence ==> There(all, e, n)
  }

  lemma ThereMeaning(all: set<Envelope>, e: Envelope, n: nat)
    requires AllClean(all) && CleanRoute(e)
    ensures There(all, e, n) <==> Has(all, e.Stream(), n)
  {
    forall f | f in all ensures NthOf(f, e, n) <==> OnStream(f, e.Stream(), n) { StreamExactly(e, f); }
  }

  /** In every run the number that a bundle's route waits for is the least positive one of which no bundle
      of that source, destination and channel has been accepted and kept. */
  lemma RouteWaits(events: seq<Event>, e: Envelope)
    requires Lawful(events) && Fair(Run(events).accepted) && AllClean(Run(events).accepted) && CleanRoute(e)
    ensures var h := Run(events);
      var next := Expected(h.buffer, e.Stream());
      next >= 1 && !There(h.live, e, next) && forall n :: 1 <= n < next ==> There(h.live, e, n)
  {
    var h := Run(events);
    RunConsistent(events);
    LiveAccepted(events);
    LeastMissing(h.buffer, h.live, h.confirmed, e.Stream());
    forall n ensures There(h.live, e, n) <==> Has(h.live, e.Stream(), n) { ThereMeaning(h.live, e, n); }
  }

  /** A number at most the expected one has everything before it, and no other has. */
  lemma CompleteMeaning(events: seq<Event>, e: Envelope)
    requires Lawful(events) && Fair(Run(events).accepted) && AllClean(Run(events).accepted) && CleanRoute(e)
    ensures Complete(Run(events).live, e) <==> e.sequence <= Expected(Run(events).buffer, e.Stream())
  {
    RouteWaits(events, e);
    var next := Expected(Run(events).buffer, e.Stream());
    if next < e.sequence { assert !There(Run(events).live, e, next); }
  }

  /** A bundle kept is in the ledger if every earlier bundle of its route is there, and is held otherwise. */
  lemma HeldExactly(events: seq<Event>, e: Envelope)
    requires Lawful(events) && Fair(Run(events).accepted) && AllClean(Run(events).accepted) && e in Run(events).live
    ensures var h := Run(events);
      && (e.transactionId in h.buffer.ledger <==> Complete(h.live, e))
      && (e in h.buffer.gap.Values <==> !Complete(h.live, e))
  {
    var h := Run(events);
    RunConsistent(events);
    LiveAccepted(events);
    CompleteMeaning(events, e);
    HeldAndApplied(h.buffer, h.live, h.confirmed, e);
    assert Clear(h.buffer, h.live, e.Stream());
  }

  /** The answer to a valid bundle in every run: it is held exactly if an earlier one of its route is missing,
      and if it is new it is otherwise reported as applied with its own payment, the first result for its
      transaction. */
  lemma AnswerExactly(events: seq<Event>, env: Envelope, now: nat)
    requires Lawful(events) && Fair(Run(events).accepted + {env}) && AllClean(Run(events).accepted + {env}) && env.Validates(now)
    ensures var h := Run(events);
      var r := Answer(h.buffer, env, now);
      && (r.Held? <==> !Complete(h.live, env))
      && (Complete(h.live, env) && env !in h.live ==> r.Settled? && r.entry == NewEntry(env.Paid()))
      && (Complete(h.live, env) && env in h.live ==>
           r.Settled? && !r.entry.applied && r.entry.hash == env.Paid() && r.entry.message == DEDUPLICATED)
  {
    var h := Run(events);
    FairSubset(h.accepted + {env}, h.accepted);
    RunConsistent(events);
    LiveAccepted(events);
    CompleteMeaning(events, env);
    if env in h.live {
      assert Placed(h.buffer, h.confirmed, env) && Clear(h.buffer, h.live, env.Stream());
    } else {
      FairSubset(h.accepted + {env}, h.live + {env});
      NewIsNowhere(h.buffer, h.live, h.confirmed, env);
    }
  }
}
