/** The reorder buffer of bundle streams as a state machine (bundle/retransmit/queue.go and ledger.go,
    bundle/protocol/envelope.go): bundles that come too early are held back, the others are applied to a
    ledger once per transaction id. */
module Delivery {
  import opened Messages

  /** A ledger transaction; its hash is the transaction itself. */
  datatype Payment = Payment(id: string, sequence: nat, payload: string)

  datatype Envelope = Envelope(
    bundleId: string,
    sourceNodeId: string,
    destinationNodeId: string,
    channelId: string,
    channelType: string,
    sequence: nat,
    transactionId: string,
    expirationTick: nat,
    payloadDigest: Digest,
    payload: string)
  {
    /** The check of an envelope at a time. */
    predicate Validates(now: nat)
    {
      && sourceNodeId != "" && destinationNodeId != "" && channelId != "" && channelType != ""
      && sequence != 0 && transactionId != "" && payloadDigest != EMPTY && payloadDigest == OfBytes(payload)
      && !(expirationTick > 0 && now > expirationTick)
    }

    function Stream(): string { sourceNodeId + "\0" + destinationNodeId + "\0" + channelId }

    function Paid(): Payment { Payment(transactionId, sequence, payload) }
  }

  const APPLIED := "transaction applied exactly once"
  const DEDUPLICATED := "duplicate retransmission deduplicated by transaction id"

  datatype Entry = Entry(transactionId: string, sequence: nat, applied: bool, hash: Payment, message: string)

  function NewEntry(tx: Payment): Entry { Entry(tx.id, tx.sequence, true, tx, APPLIED) }

  datatype Buffer = Buffer(
    nextSeq: map<string, nat>,
    gap: map<string, Envelope>,
    unconfirmed: map<string, Envelope>,
    ledger: map<string, Entry>)

  const FRESH_BUFFER: Buffer := Buffer(map[], map[], map[], map[])

  // ---- One call ------------------------------------------------------------------------------

  /** The sequence number a stream waits for. */
  function Expected(q: Buffer, key: string): nat
  {
    if key in q.nextSeq && q.nextSeq[key] > 0 then q.nextSeq[key] else 1
  }

  /** Asking for the expected number makes an entry for the stream. */
  function Seen(q: Buffer, key: string): Buffer
  {
    q.(nextSeq := q.nextSeq[key := Expected(q, key)])
  }

  /** Applying the bundle that a stream waits for, unless its transaction is in the ledger. */
  function Delivered(q: Buffer, env: Envelope): Buffer
  {
    if env.transactionId in q.ledger then q else
    q.(ledger := q.ledger[env.transactionId := NewEntry(env.Paid())],
       unconfirmed := q.unconfirmed[env.bundleId := env],
       nextSeq := q.nextSeq[env.Stream() := Expected(q, env.Stream()) + 1])
  }

  predicate Ready(q: Buffer, key: string, id: string)
  {
    id in q.gap && q.gap[id].Stream() == key && q.gap[id].sequence == Expected(q, key)
  }

  /** Releasing a held bundle whose turn has come; one that does not validate any more is dropped. */
  function DrainOne(q: Buffer, key: string, now: nat, id: string): Buffer
  {
    if id == "" || !Ready(q, key, id) then q else
    var env, rest := q.gap[id], q.(gap := q.gap - {id});
    if env.Validates(now) then Delivered(rest, env) else rest
  }

  /** Releasing held bundles one after the other; which one comes next if several are ready is up to the
      iteration over a Go map. */
  function DrainAlong(q: Buffer, key: string, now: nat, picks: seq<string>): Buffer
    decreases |picks|
  {
    if picks == [] then q else DrainOne(DrainAlong(q, key, now, picks[..|picks| - 1]), key, now, picks[|picks| - 1])
  }

  /** The held bundle that is dropped instead of released, because it does not validate any more. */
  function DropsOne(q: Buffer, key: string, now: nat, id: string): set<Envelope>
  {
    if id != "" && Ready(q, key, id) && !q.gap[id].Validates(now) then {q.gap[id]} else {}
  }

  function DropsAlong(q: Buffer, key: string, now: nat, picks: seq<string>): set<Envelope>
    decreases |picks|
  {
    if picks == [] then {} else
    DropsAlong(q, key, now, picks[..|picks| - 1]) + DropsOne(DrainAlong(q, key, now, picks[..|picks| - 1]), key, now, picks[|picks| - 1])
  }

  /** Draining is over: nothing is ready, or a bundle without an id is. */
  ghost predicate Quiet(q: Buffer, key: string)
  {
    Ready(q, key, "") || forall id :: !Ready(q, key, id)
  }

  predicate Drains(q: Buffer, env: Envelope, now: nat)
  {
    env.Validates(now) && env.sequence == Expected(q, env.Stream()) && env.transactionId !in q.ledger
  }

  function Submitted(q: Buffer, env: Envelope, now: nat, picks: seq<string>): Buffer
  {
    if !env.Validates(now) then q else
    var key, q1 := env.Stream(), Seen(q, env.Stream());
    if env.sequence > Expected(q, key) then q1.(gap := q1.gap[env.bundleId := env])
    else if env.transactionId in q.ledger then q1
    else if env.sequence == Expected(q, key) then DrainAlong(Delivered(q1, env), key, now, picks)
    else q1.(ledger := q1.ledger[env.transactionId := NewEntry(env.Paid())])
  }

  /** The bundles that a submission drops. */
  function Drops(q: Buffer, env: Envelope, now: nat, picks: seq<string>): set<Envelope>
  {
    if Drains(q, env, now) then DropsAlong(Delivered(Seen(q, env.Stream()), env), env.Stream(), now, picks) else {}
  }

  /** The answer to a submission; `entry.applied` is what it reports as applied. */
  datatype Response = Refused | Held(expected: nat) | Settled(expected: nat, entry: Entry)

  function Answer(q: Buffer, env: Envelope, now: nat): Response
  {
    if !env.Validates(now) then Refused
    else if env.sequence > Expected(q, env.Stream()) then Held(Expected(q, env.Stream()))
    else Settled(Expected(q, env.Stream()),
                 if env.transactionId in q.ledger then q.ledger[env.transactionId].(applied := false, message := DEDUPLICATED)
                 else NewEntry(env.Paid()))
  }

  function Confirmed(q: Buffer, id: string): Buffer
  {
    q.(unconfirmed := q.unconfirmed - {id})
  }

  // ---- Where a submitted bundle is -----------------------------------------------------------

  /** Applied, and not held; still to be retransmitted exactly if not confirmed. */
  predicate Done(q: Buffer, confirmed: set<string>, e: Envelope)
  {
    && e.transactionId in q.ledger && q.ledger[e.transactionId] == NewEntry(e.Paid()) && e.bundleId !in q.gap
    && (e.bundleId in confirmed <==> e.bundleId !in q.unconfirmed)
    && (e.bundleId in q.unconfirmed ==> q.unconfirmed[e.bundleId] == e)
  }

  predicate NowhereElse(q: Buffer, confirmed: set<string>, e: Envelope)
  {
    e.transactionId !in q.ledger && e.bundleId !in q.unconfirmed && e.bundleId !in confirmed
  }

  /** Held, and not applied. */
  predicate Waits(q: Buffer, confirmed: set<string>, e: Envelope)
  {
    e.bundleId in q.gap && q.gap[e.bundleId] == e && NowhereElse(q, confirmed, e)
  }

  /** Done below the expected number of the stream, waiting from there on. */
  predicate Placed(q: Buffer, confirmed: set<string>, e: Envelope)
  {
    if e.sequence < Expected(q, e.Stream()) then Done(q, confirmed, e) else Waits(q, confirmed, e)
  }

  predicate OnStream(e: Envelope, key: string, n: nat) { e.Stream() == key && e.sequence == n }

  ghost predicate Has(all: set<Envelope>, key: string, n: nat)
  {
    exists e :: e in all && OnStream(e, key, n)
  }

  /** Everything below the expected number of a stream has been submitted. */
  ghost predicate Below(q: Buffer, all: set<Envelope>)
  {
    forall key, n :: 1 <= n < Expected(q, key) ==> Has(all, key, n)
  }

  predicate Pays(e: Envelope, tx: string) { e.transactionId == tx }

  ghost predicate PaidBy(all: set<Envelope>, tx: string)
  {
    exists e :: e in all && Pays(e, tx)
  }

  predicate Named(e: Envelope, id: string) { e.bundleId == id }

  /** What is held, unconfirmed, confirmed or in the ledger has been submitted. */
  ghost predicate Sourced(q: Buffer, all: set<Envelope>, confirmed: set<string>)
  {
    && (forall id :: id in confirmed ==> exists e :: e in all && Named(e, id))
    && (forall id :: id in q.gap ==> q.gap[id] in all && q.gap[id].bundleId == id)
    && (forall id :: id in q.unconfirmed ==> q.unconfirmed[id] in all && q.unconfirmed[id].bundleId == id)
    && forall tx :: tx in q.ledger ==> PaidBy(all, tx)
  }

  ghost predicate AllPlaced(q: Buffer, all: set<Envelope>, confirmed: set<string>)
  {
    forall e :: e in all ==> Placed(q, confirmed, e)
  }

  ghost predicate Kept(q: Buffer, all: set<Envelope>, confirmed: set<string>)
  {
    AllPlaced(q, all, confirmed) && Sourced(q, all, confirmed) && Below(q, all)
  }

  /** The stream waits for something that has not been submitted. */
  ghost predicate Clear(q: Buffer, all: set<Envelope>, key: string)
  {
    forall e :: e in all ==> !OnStream(e, key, Expected(q, key))
  }

  ghost predicate Consistent(q: Buffer, all: set<Envelope>, confirmed: set<string>)
  {
    Kept(q, all, confirmed) && forall key :: Clear(q, all, key)
  }

  /** Different bundles differ in id, in transaction, and in stream or sequence. */
  predicate Apart(e: Envelope, f: Envelope)
  {
    e.bundleId != f.bundleId && e.transactionId != f.transactionId && (e.Stream() != f.Stream() || e.sequence != f.sequence)
  }

  /** Every bundle has an id and they are apart. */
  ghost predicate Fair(all: set<Envelope>)
  {
    && (forall e :: e in all ==> e.bundleId != "")
    && forall e, f :: e in all && f in all && e != f ==> Apart(e, f)
  }

  // ---- Delivering ----------------------------------------------------------------------------

  predicate Arriving(q: Buffer, confirmed: set<string>, e: Envelope)
  {
    e.bundleId !in q.gap && NowhereElse(q, confirmed, e) && e.sequence == Expected(q, e.Stream())
  }

  lemma DeliveredPlaced(q: Buffer, confirmed: set<string>, e: Envelope, f: Envelope)
    requires Arriving(q, confirmed, e) && (f == e || (Apart(e, f) && Placed(q, confirmed, f)))
    ensures Placed(Delivered(q, e), confirmed, f)
  {
  }

  lemma DeliveredSourced(q: Buffer, all: set<Envelope>, confirmed: set<string>, e: Envelope)
    requires Sourced(q, all, confirmed) && e in all
    ensures Sourced(Delivered(q, e), all, confirmed)
  {
    assert Pays(e, e.transactionId);
  }

  lemma DeliveredBelow(q: Buffer, all: set<Envelope>, e: Envelope)
    requires Below(q, all) && e in all && e.sequence == Expected(q, e.Stream())
    ensures Below(Delivered(q, e), all)
  {
    var q' := Delivered(q, e);
    forall key, n | 1 <= n < Expected(q', key) ensures Has(all, key, n) {
      if n == Expected(q, key) { assert OnStream(e, key, n); }
    }
  }

  lemma DeliveredKeeps(q: Buffer, all: set<Envelope>, confirmed: set<string>, e: Envelope)
    requires Fair(all) && e in all && Arriving(q, confirmed, e)
    requires (forall f :: f in all && f != e ==> Placed(q, confirmed, f)) && Sourced(q, all, confirmed) && Below(q, all)
    ensures Kept(Delivered(q, e), all, confirmed)
  {
    forall f | f in all ensures Placed(Delivered(q, e), confirmed, f) { DeliveredPlaced(q, confirmed, e, f); }
    DeliveredSourced(q, all, confirmed, e);
    DeliveredBelow(q, all, e);
  }

  // ---- Draining ------------------------------------------------------------------------------

  lemma Unheld(q: Buffer, confirmed: set<string>, id: string, f: Envelope)
    requires Placed(q, confirmed, f) && f.bundleId != id
    ensures Placed(q.(gap := q.gap - {id}), confirmed, f)
  {
  }

  /** Dropping a held bundle: it is as if it had not been submitted. */
  lemma DroppedKeeps(q: Buffer, all: set<Envelope>, confirmed: set<string>, e: Envelope)
    requires Fair(all) && Kept(q, all, confirmed) && e in all && Waits(q, confirmed, e) && e.sequence >= Expected(q, e.Stream())
    ensures Kept(q.(gap := q.gap - {e.bundleId}), all - {e}, confirmed)
  {
    var rest := q.(gap := q.gap - {e.bundleId});
    forall f | f in all - {e} ensures Placed(rest, confirmed, f) {
      assert Placed(q, confirmed, f) && Apart(e, f);
      Unheld(q, confirmed, e.bundleId, f);
    }
    DroppedSourced(q, all, confirmed, e);
    DroppedBelow(q, all, e);
  }

  lemma DroppedSourced(q: Buffer, all: set<Envelope>, confirmed: set<string>, e: Envelope)
    requires Sourced(q, all, confirmed) && Waits(q, confirmed, e)
    ensures Sourced(q.(gap := q.gap - {e.bundleId}), all - {e}, confirmed)
  {
    forall id | id in confirmed ensures exists f :: f in all - {e} && Named(f, id) {
      var f :| f in all && Named(f, id);
      assert f in all - {e};
    }
    forall tx | tx in q.ledger ensures PaidBy(all - {e}, tx) {
      assert PaidBy(all, tx);
      var f :| f in all && Pays(f, tx);
      assert f in all - {e};
    }
  }

  lemma DroppedBelow(q: Buffer, all: set<Envelope>, e: Envelope)
    requires Below(q, all) && e.sequence >= Expected(q, e.Stream())
    ensures Below(q.(gap := q.gap - {e.bundleId}), all - {e})
  {
    var rest := q.(gap := q.gap - {e.bundleId});
    forall key, n | 1 <= n < Expected(rest, key) ensures Has(all - {e}, key, n) {
      assert Expected(rest, key) == Expected(q, key);
      assert Has(all, key, n);
      var f :| f in all && OnStream(f, key, n);
      assert f in all - {e};
    }
  }

  lemma ReleasedKeeps(q: Buffer, all: set<Envelope>, confirmed: set<string>, key: string, now: nat, id: string)
    requires Fair(all) && Kept(q, all, confirmed) && id != "" && Ready(q, key, id) && q.gap[id].Validates(now)
    ensures Kept(DrainOne(q, key, now, id), all, confirmed)
  {
    var e, rest := q.gap[id], q.(gap := q.gap - {id});
    assert Placed(q, confirmed, e);
    forall f | f in all && f != e ensures Placed(rest, confirmed, f) { Unheld(q, confirmed, id, f); }
    DeliveredKeeps(rest, all, confirmed, e);
  }

  lemma DrainOneKeeps(q: Buffer, all: set<Envelope>, confirmed: set<string>, key: string, now: nat, id: string)
    requires Fair(all) && Kept(q, all, confirmed)
    ensures Kept(DrainOne(q, key, now, id), all - DropsOne(q, key, now, id), confirmed)
  {
    if id == "" || !Ready(q, key, id) {
      assert all - {} == all;
    } else if q.gap[id].Validates(now) {
      ReleasedKeeps(q, all, confirmed, key, now, id);
      assert all - {} == all;
    } else {
      assert Placed(q, confirmed, q.gap[id]);
      DroppedKeeps(q, all, confirmed, q.gap[id]);
    }
  }

  lemma FairSubset(all: set<Envelope>, some: set<Envelope>)
    requires Fair(all) && some <= all
    ensures Fair(some)
  {
  }

  /** Draining releases or drops, and what is not dropped stays in its place. */
  lemma {:induction false} DrainKeeps(q: Buffer, all: set<Envelope>, confirmed: set<string>, key: string, now: nat, picks: seq<string>)
    requires Fair(all) && Kept(q, all, confirmed)
    ensures Kept(DrainAlong(q, key, now, picks), all - DropsAlong(q, key, now, picks), confirmed)
    decreases |picks|
  {
    if picks == [] {
      assert all - {} == all;
    } else {
      var before, id := picks[..|picks| - 1], picks[|picks| - 1];
      var q1, live := DrainAlong(q, key, now, before), all - DropsAlong(q, key, now, before);
      DrainKeeps(q, all, confirmed, key, now, before);
      FairSubset(all, live);
      DrainOneKeeps(q1, live, confirmed, key, now, id);
      assert live - DropsOne(q1, key, now, id) == all - DropsAlong(q, key, now, picks);
    }
  }

  /** Only held bundles of the stream that do not validate any more are dropped. */
  lemma {:induction false} DropsAreStale(q: Buffer, all: set<Envelope>, confirmed: set<string>, key: string, now: nat, picks: seq<string>, e: Envelope)
    requires Fair(all) && Kept(q, all, confirmed) && e in DropsAlong(q, key, now, picks)
    ensures e in all && Waits(q, confirmed, e) && e.Stream() == key && !e.Validates(now)
    decreases |picks|
  {
    var before, id := picks[..|picks| - 1], picks[|picks| - 1];
    if e in DropsAlong(q, key, now, before) {
      DropsAreStale(q, all, confirmed, key, now, before, e);
    } else {
      DrainKeeps(q, all, confirmed, key, now, before);
      DrainGap(q, key, now, before, id);
      assert Placed(q, confirmed, e);
    }
  }

  /** After a drop the stream goes on waiting for the number of the bundle dropped. */
  lemma {:induction false} DropsEnd(q: Buffer, all: set<Envelope>, confirmed: set<string>, key: string, now: nat, picks: seq<string>, e: Envelope)
    requires Fair(all) && Kept(q, all, confirmed) && e in DropsAlong(q, key, now, picks)
    ensures Expected(DrainAlong(q, key, now, picks), key) == e.sequence
    decreases |picks|
  {
    var before, id := picks[..|picks| - 1], picks[|picks| - 1];
    if e in DropsAlong(q, key, now, before) {
      DropsEnd(q, all, confirmed, key, now, before, e);
      DropsAreStale(q, all, confirmed, key, now, before, e);
      DrainKeeps(q, all, confirmed, key, now, before);
      NoOtherReady(DrainAlong(q, key, now, before), all, all - DropsAlong(q, key, now, before), confirmed, key, id, e);
    }
  }

  lemma NoOtherReady(q: Buffer, all: set<Envelope>, live: set<Envelope>, confirmed: set<string>, key: string, id: string, e: Envelope)
    requires Fair(all) && live <= all && e in all && e !in live && Sourced(q, live, confirmed)
    requires e.Stream() == key && Expected(q, key) == e.sequence
    ensures !Ready(q, key, id)
  {
    assert id in q.gap ==> q.gap[id] in live && Apart(e, q.gap[id]);
  }

  lemma {:induction false} DrainGap(q: Buffer, key: string, now: nat, picks: seq<string>, id: string)
    ensures id in DrainAlong(q, key, now, picks).gap ==> id in q.gap && DrainAlong(q, key, now, picks).gap[id] == q.gap[id]
    decreases |picks|
  {
    if picks != [] { DrainGap(q, key, now, picks[..|picks| - 1], id); }
  }

  lemma {:induction false} DrainOthers(q: Buffer, key: string, now: nat, picks: seq<string>, other: string)
    requires other != key
    ensures Expected(DrainAlong(q, key, now, picks), other) == Expected(q, other)
    decreases |picks|
  {
    if picks != [] { DrainOthers(q, key, now, picks[..|picks| - 1], other); }
  }

  /** When draining is over, the stream waits for something that has not been submitted. */
  lemma QuietClear(q: Buffer, all: set<Envelope>, confirmed: set<string>, key: string)
    requires Fair(all) && Kept(q, all, confirmed) && Quiet(q, key)
    ensures Clear(q, all, key)
  {
    forall e | e in all ensures !OnStream(e, key, Expected(q, key)) {
      assert Placed(q, confirmed, e);
      if OnStream(e, key, Expected(q, key)) {
        assert Ready(q, key, e.bundleId);
      }
    }
  }

  // ---- Submitting ----------------------------------------------------------------------------

  lemma NewIsApart(all: set<Envelope>, env: Envelope)
    requires Fair(all + {env}) && env !in all
    ensures forall e :: e in all ==> Apart(e, env)
  {
    assert env in all + {env};
    forall e | e in all ensures Apart(e, env) { assert e in all + {env}; }
  }

  /** A bundle that was never submitted is nowhere. */
  lemma NewIsNowhere(q: Buffer, all: set<Envelope>, confirmed: set<string>, env: Envelope)
    requires Fair(all + {env}) && env !in all && Sourced(q, all, confirmed)
    ensures env.bundleId !in q.gap && NowhereElse(q, confirmed, env)
  {
    NewIsApart(all, env);
  }

  /** Nor is it below the expected number, for those numbers are taken. */
  lemma NewIsNotBelow(q: Buffer, all: set<Envelope>, env: Envelope)
    requires Fair(all + {env}) && env !in all && Below(q, all) && env.sequence != 0
    ensures env.sequence >= Expected(q, env.Stream())
  {
    NewIsApart(all, env);
    assert env.sequence < Expected(q, env.Stream()) ==> Has(all, env.Stream(), env.sequence);
  }

  lemma SeenSame(q: Buffer, key: string, other: string)
    ensures Expected(Seen(q, key), other) == Expected(q, other)
  {
  }

  lemma SeenKeeps(q: Buffer, all: set<Envelope>, confirmed: set<string>, key: string)
    requires Kept(q, all, confirmed)
    ensures Kept(Seen(q, key), all, confirmed)
  {
    assert forall other :: Expected(Seen(q, key), other) == Expected(q, other);
    forall e | e in all ensures Placed(Seen(q, key), confirmed, e) { assert Placed(q, confirmed, e); }
  }

  /** More may have been submitted without harm to what is in its place. */
  lemma MoreKeeps(q: Buffer, all: set<Envelope>, confirmed: set<string>, env: Envelope)
    requires Sourced(q, all, confirmed) && Below(q, all)
    ensures Sourced(q, all + {env}, confirmed) && Below(q, all + {env})
  {
    forall key, n | 1 <= n < Expected(q, key) ensures Has(all + {env}, key, n) {
      assert Has(all, key, n);
      var e :| e in all && OnStream(e, key, n);
      assert e in all + {env};
    }
    forall id | id in confirmed ensures exists e :: e in all + {env} && Named(e, id) {
      var e :| e in all && Named(e, id);
      assert e in all + {env};
    }
    forall tx | tx in q.ledger ensures PaidBy(all + {env}, tx) {
      var e :| e in all && Pays(e, tx);
      assert e in all + {env};
    }
  }

  function Hold(q: Buffer, env: Envelope): Buffer { q.(gap := q.gap[env.bundleId := env]) }

  lemma HoldPlaced(q: Buffer, confirmed: set<string>, env: Envelope, e: Envelope)
    requires if e == env then NowhereElse(q, confirmed, env) && env.sequence > Expected(q, env.Stream())
             else Apart(e, env) && Placed(q, confirmed, e)
    ensures Placed(Hold(q, env), confirmed, e)
  {
  }

  lemma HoldSourced(q: Buffer, all: set<Envelope>, confirmed: set<string>, env: Envelope)
    requires Sourced(q, all, confirmed) && Below(q, all)
    ensures Sourced(Hold(q, env), all + {env}, confirmed) && Below(Hold(q, env), all + {env})
  {
    MoreKeeps(q, all, confirmed, env);
    assert forall key :: Expected(Hold(q, env), key) == Expected(q, key);
  }

  /** Holding a bundle above the expected number. */
  lemma HoldKeeps(q: Buffer, all: set<Envelope>, confirmed: set<string>, env: Envelope)
    requires Fair(all + {env}) && Kept(q, all, confirmed) && env.sequence > Expected(q, env.Stream())
    ensures Kept(Hold(q, env), all + {env}, confirmed)
  {
    HoldSourced(q, all, confirmed, env);
    if env !in all { NewIsNowhere(q, all, confirmed, env); } else { assert Placed(q, confirmed, env); }
    forall e | e in all + {env} ensures Placed(Hold(q, env), confirmed, e) {
      HoldPlaced(q, confirmed, env, e);
    }
  }

  /** Delivering a new bundle at the expected number. */
  lemma ArriveKeeps(q: Buffer, all: set<Envelope>, confirmed: set<string>, env: Envelope)
    requires Fair(all + {env}) && Kept(q, all, confirmed) && env !in all && env.sequence == Expected(q, env.Stream())
    ensures Kept(Delivered(q, env), all + {env}, confirmed)
  {
    NewIsNowhere(q, all, confirmed, env);
    MoreKeeps(q, all, confirmed, env);
    DeliveredKeeps(q, all + {env}, confirmed, env);
  }

  /** Submitting a bundle that comes too early. */
  lemma EarlyKeeps(q: Buffer, all: set<Envelope>, confirmed: set<string>, env: Envelope, now: nat, picks: seq<string>)
    requires Fair(all + {env}) && env.Validates(now) && Kept(q, all, confirmed)
    requires env.sequence > Expected(q, env.Stream())
    ensures Kept(Submitted(q, env, now, picks), all + {env}, confirmed)
  {
    SeenKeeps(q, all, confirmed, env.Stream());
    SeenSame(q, env.Stream(), env.Stream());
    HoldKeeps(Seen(q, env.Stream()), all, confirmed, env);
  }

  /** Submitting a bundle again changes nothing. */
  lemma AgainSame(q: Buffer, all: set<Envelope>, confirmed: set<string>, env: Envelope, now: nat, picks: seq<string>)
    requires env in all && env.Validates(now) && Placed(q, confirmed, env) && Clear(q, all, env.Stream())
    requires env.sequence <= Expected(q, env.Stream())
    ensures Submitted(q, env, now, picks) == Seen(q, env.Stream()) && !Drains(q, env, now)
  {
  }

  lemma AlreadyIn<T>(all: set<T>, x: T)
    requires x in all
    ensures all + {x} - {} == all
  {
  }

  lemma KeptOf(q: Buffer, q': Buffer, all: set<Envelope>, all': set<Envelope>, confirmed: set<string>)
    requires Kept(q, all, confirmed) && q' == q && all' == all
    ensures Kept(q', all', confirmed)
  {
  }

  /** Submitting a new bundle whose turn it is. */
  lemma TurnKeeps(q: Buffer, all: set<Envelope>, confirmed: set<string>, env: Envelope, now: nat, picks: seq<string>)
    requires Fair(all + {env}) && env !in all && env.Validates(now) && Kept(q, all, confirmed)
    requires env.sequence <= Expected(q, env.Stream())
    ensures Drains(q, env, now) && Kept(Submitted(q, env, now, picks), all + {env} - Drops(q, env, now, picks), confirmed)
  {
    var q1 := Seen(q, env.Stream());
    NewIsNotBelow(q, all, env);
    NewIsNowhere(q, all, confirmed, env);
    SeenKeeps(q, all, confirmed, env.Stream());
    ArriveKeeps(q1, all, confirmed, env);
    DrainKeeps(Delivered(q1, env), all + {env}, confirmed, env.Stream(), now, picks);
  }

  /** Any valid submission, in any order and any number of times, leaves every bundle in its place, if
      bundles that it drops do not count any more. */
  lemma SubmittedKeeps(q: Buffer, all: set<Envelope>, confirmed: set<string>, env: Envelope, now: nat, picks: seq<string>)
    requires Fair(all + {env}) && env.Validates(now) && Consistent(q, all, confirmed)
    ensures Kept(Submitted(q, env, now, picks), all + {env} - Drops(q, env, now, picks), confirmed)
  {
    if env.sequence > Expected(q, env.Stream()) {
      EarlyKeeps(q, all, confirmed, env, now, picks);
      NothingLost(all + {env});
    } else if env in all {
      assert Placed(q, confirmed, env) && Clear(q, all, env.Stream());
      AgainSame(q, all, confirmed, env, now, picks);
      SeenKeeps(q, all, confirmed, env.Stream());
      AlreadyIn(all, env);
      KeptOf(Seen(q, env.Stream()), Submitted(q, env, now, picks), all, all + {env} - Drops(q, env, now, picks), confirmed);
    } else {
      TurnKeeps(q, all, confirmed, env, now, picks);
    }
  }

  lemma NothingLost<T>(all: set<T>)
    ensures all - {} == all
  {
  }

  /** Other streams wait for what they waited for. */
  lemma SubmittedOthers(q: Buffer, env: Envelope, now: nat, picks: seq<string>, other: string)
    requires other != env.Stream() || !Drains(q, env, now)
    ensures Expected(Submitted(q, env, now, picks), other) == Expected(q, other)
  {
    var q1 := Seen(q, env.Stream());
    if Drains(q, env, now) { DrainOthers(Delivered(q1, env), env.Stream(), now, picks, other); }
  }

  /** A call that runs to its end: if it drains, nothing is left to drain. */
  ghost predicate Complete(q: Buffer, env: Envelope, now: nat, picks: seq<string>)
  {
    Drains(q, env, now) ==> Quiet(Submitted(q, env, now, picks), env.Stream())
  }

  lemma SubmittedClear(q: Buffer, all: set<Envelope>, confirmed: set<string>, env: Envelope, now: nat, picks: seq<string>, key: string)
    requires Fair(all + {env}) && env.Validates(now) && Consistent(q, all, confirmed) && Complete(q, env, now, picks)
    ensures Clear(Submitted(q, env, now, picks), all + {env} - Drops(q, env, now, picks), key)
  {
    var live := all + {env} - Drops(q, env, now, picks);
    if key == env.Stream() && Drains(q, env, now) {
      SubmittedKeeps(q, all, confirmed, env, now, picks);
      FairSubset(all + {env}, live);
      QuietClear(Submitted(q, env, now, picks), live, confirmed, key);
    } else {
      assert Clear(q, all, key);
      SubmittedOthers(q, env, now, picks, key);
      NotWaitedFor(q, all, confirmed, env, now);
      StillClear(q, Submitted(q, env, now, picks), all, env, live, key);
    }
  }

  lemma StillClear(q: Buffer, q': Buffer, all: set<Envelope>, env: Envelope, live: set<Envelope>, key: string)
    requires Clear(q, all, key) && Expected(q', key) == Expected(q, key) && !OnStream(env, key, Expected(q, key)) && live <= all + {env}
    ensures Clear(q', live, key)
  {
  }

  /** If the call does not drain, the bundle is not the one its stream waits for. */
  lemma NotWaitedFor(q: Buffer, all: set<Envelope>, confirmed: set<string>, env: Envelope, now: nat)
    requires Fair(all + {env}) && env.Validates(now) && Consistent(q, all, confirmed)
    ensures !Drains(q, env, now) ==> !OnStream(env, env.Stream(), Expected(q, env.Stream()))
  {
    if env !in all { NewIsNowhere(q, all, confirmed, env); } else { assert Clear(q, all, env.Stream()); }
  }

  lemma SubmittedConsistent(q: Buffer, all: set<Envelope>, confirmed: set<string>, env: Envelope, now: nat, picks: seq<string>)
    requires Fair(all + {env}) && env.Validates(now) && Consistent(q, all, confirmed) && Complete(q, env, now, picks)
    ensures Consistent(Submitted(q, env, now, picks), all + {env} - Drops(q, env, now, picks), confirmed)
  {
    SubmittedKeeps(q, all, confirmed, env, now, picks);
    forall key ensures Clear(Submitted(q, env, now, picks), all + {env} - Drops(q, env, now, picks), key) {
      SubmittedClear(q, all, confirmed, env, now, picks, key);
    }
  }

  // ---- Confirming ----------------------------------------------------------------------------

  lemma ConfirmedPlaced(q: Buffer, confirmed: set<string>, id: string, e: Envelope)
    requires Placed(q, confirmed, e) && id in q.unconfirmed
    ensures Placed(Confirmed(q, id), confirmed + {id}, e)
  {
  }

  lemma ConfirmedConsistent(q: Buffer, all: set<Envelope>, confirmed: set<string>, id: string)
    requires Consistent(q, all, confirmed) && id in q.unconfirmed
    ensures Consistent(Confirmed(q, id), all, confirmed + {id})
  {
    ConfirmedAllPlaced(q, all, confirmed, id);
    ConfirmedSourced(q, all, confirmed, id);
    forall key ensures Clear(Confirmed(q, id), all, key) { ConfirmedClear(q, all, id, key); }
  }

  lemma ConfirmedAllPlaced(q: Buffer, all: set<Envelope>, confirmed: set<string>, id: string)
    requires AllPlaced(q, all, confirmed) && id in q.unconfirmed
    ensures AllPlaced(Confirmed(q, id), all, confirmed + {id})
  {
    forall e | e in all ensures Placed(Confirmed(q, id), confirmed + {id}, e) { ConfirmedPlaced(q, confirmed, id, e); }
  }

  lemma ConfirmedClear(q: Buffer, all: set<Envelope>, id: string, key: string)
    requires Clear(q, all, key)
    ensures Clear(Confirmed(q, id), all, key)
  {
    assert Expected(Confirmed(q, id), key) == Expected(q, key);
  }

  lemma ConfirmedSourced(q: Buffer, all: set<Envelope>, confirmed: set<string>, id: string)
    requires Sourced(q, all, confirmed) && Below(q, all) && id in q.unconfirmed
    ensures Sourced(Confirmed(q, id), all, confirmed + {id}) && Below(Confirmed(q, id), all)
  {
    assert Named(q.unconfirmed[id], id);
    assert forall key :: Expected(Confirmed(q, id), key) == Expected(q, key);
  }

  // ---- Runs ----------------------------------------------------------------------------------

  datatype Event = Submit(env: Envelope, now: nat, picks: seq<string>) | Confirm(bundleId: string)

  /** A buffer, the bundles it accepted, those of them that it did not drop again, and the ids confirmed. */
  datatype History = History(buffer: Buffer, accepted: set<Envelope>, live: set<Envelope>, confirmed: set<string>)

  const START: History := History(FRESH_BUFFER, {}, {}, {})

  /** A refused envelope changes nothing. */
  function Step(h: History, event: Event): History
  {
    match event
    case Submit(env, now, picks) =>
      if !env.Validates(now) then h else
      History(Submitted(h.buffer, env, now, picks), h.accepted + {env}, h.live + {env} - Drops(h.buffer, env, now, picks), h.confirmed)
    case Confirm(id) =>
      if id in h.buffer.unconfirmed then h.(buffer := Confirmed(h.buffer, id), confirmed := h.confirmed + {id}) else h
  }

  function Run(events: seq<Event>): History
    decreases |events|
  {
    if events == [] then START else Step(Run(events[..|events| - 1]), events[|events| - 1])
  }

  /** Every call runs to its end. */
  ghost predicate Lawful(events: seq<Event>)
    decreases |events|
  {
    events != [] ==>
      && Lawful(events[..|events| - 1])
      && LawfulStep(Run(events[..|events| - 1]), events[|events| - 1])
  }

  ghost predicate LawfulStep(h: History, event: Event)
  {
    event.Submit? ==> Complete(h.buffer, event.env, event.now, event.picks)
  }

  lemma StartConsistent()
    ensures Consistent(FRESH_BUFFER, {}, {})
  {
  }

  lemma {:induction false} LiveAccepted(events: seq<Event>)
    ensures Run(events).live <= Run(events).accepted
    decreases |events|
  {
    if events != [] {
      LiveAccepted(events[..|events| - 1]);
    }
  }

  /** Over every run of bundles that are apart, whatever the order, the repetitions, the refusals, the
      expirations and the confirmations: every bundle accepted and not dropped is in its place. */
  lemma {:induction false} RunConsistent(events: seq<Event>)
    requires Lawful(events) && Fair(Run(events).accepted)
    ensures Consistent(Run(events).buffer, Run(events).live, Run(events).confirmed)
    decreases |events|
  {
    if events == [] {
      StartConsistent();
    } else {
      var h, event := Run(events[..|events| - 1]), events[|events| - 1];
      LiveAccepted(events[..|events| - 1]);
      FairSubset(Run(events).accepted, h.accepted);
      RunConsistent(events[..|events| - 1]);
      StepConsistent(h, event);
    }
  }

  lemma StepConsistent(h: History, event: Event)
    requires Consistent(h.buffer, h.live, h.confirmed) && h.live <= h.accepted && Fair(Step(h, event).accepted) && LawfulStep(h, event)
    ensures Consistent(Step(h, event).buffer, Step(h, event).live, Step(h, event).confirmed)
  {
    match event
    case Submit(env, now, picks) =>
      if env.Validates(now) {
        FairSubset(h.accepted + {env}, h.live + {env});
        SubmittedConsistent(h.buffer, h.live, h.confirmed, env, now, picks);
      }
    case Confirm(id) =>
      if id in h.buffer.unconfirmed { ConfirmedConsistent(h.buffer, h.live, h.confirmed, id); }
  }

  // ---- Expiry --------------------------------------------------------------------------------

  /** A step drops exactly bundles that were held and do not validate at the time of the call. */
  lemma DropsWereHeld(h: History, event: Event, e: Envelope)
    requires Consistent(h.buffer, h.live, h.confirmed) && h.live <= h.accepted && Fair(Step(h, event).accepted)
    requires e in h.live && e !in Step(h, event).live
    ensures event.Submit? && e in h.buffer.gap.Values && e.Stream() == event.env.Stream() && !e.Validates(event.now)
  {
    var env, now, picks := event.env, event.now, event.picks;
    FairSubset(h.accepted + {env}, h.live + {env});
    var q1 := Seen(h.buffer, env.Stream());
    assert env !in h.live by { assert Clear(h.buffer, h.live, env.Stream()); }
    TurnArrives(h.buffer, h.live, h.confirmed, env);
    DropsAreStale(Delivered(q1, env), h.live + {env}, h.confirmed, env.Stream(), now, picks, e);
    assert e.bundleId in h.buffer.gap && h.buffer.gap[e.bundleId] == e;
  }

  /** A call that drains drops a held bundle that does not validate exactly if it drains up to its turn. */
  lemma DropsAtTurn(h: History, event: Event, e: Envelope)
    requires Consistent(h.buffer, h.live, h.confirmed) && h.live <= h.accepted && Fair(Step(h, event).accepted) && LawfulStep(h, event)
    requires e in h.live
    ensures e !in Step(h, event).live <==>
      && event.Submit? && Drains(h.buffer, event.env, event.now) && e.Stream() == event.env.Stream() && !e.Validates(event.now)
      && Expected(Step(h, event).buffer, e.Stream()) == e.sequence
  {
    StepConsistent(h, event);
    if e in Step(h, event).live {
      assert Clear(Step(h, event).buffer, Step(h, event).live, e.Stream());
    } else {
      DropsWereHeld(h, event, e);
      var env := event.env;
      FairSubset(h.accepted + {env}, h.live + {env});
      assert env !in h.live by { assert Clear(h.buffer, h.live, env.Stream()); }
      TurnArrives(h.buffer, h.live, h.confirmed, env);
      DropsEnd(Delivered(Seen(h.buffer, env.Stream()), env), h.live + {env}, h.confirmed, env.Stream(), event.now, event.picks, e);
    }
  }

  /** A bundle that does not validate is not applied by draining. */
  lemma {:induction false} StaleStaysOut(q: Buffer, all: set<Envelope>, confirmed: set<string>, key: string, now: nat, picks: seq<string>, e: Envelope)
    requires Fair(all) && Sourced(q, all, confirmed) && e in all && !e.Validates(now) && e.transactionId !in q.ledger
    ensures e.transactionId !in DrainAlong(q, key, now, picks).ledger
    decreases |picks|
  {
    if picks != [] {
      var before, id := picks[..|picks| - 1], picks[|picks| - 1];
      StaleStaysOut(q, all, confirmed, key, now, before, e);
      DrainGap(q, key, now, before, id);
      assert id in q.gap ==> q.gap[id] == e || Apart(e, q.gap[id]);
    }
  }

  /** Nor by the call that drains. */
  lemma StaleNotApplied(h: History, event: Event, e: Envelope)
    requires Consistent(h.buffer, h.live, h.confirmed) && h.live <= h.accepted && Fair(Step(h, event).accepted)
    requires event.Submit? && Drains(h.buffer, event.env, event.now)
    requires e in h.live && e.transactionId !in h.buffer.ledger && !e.Validates(event.now)
    ensures e.transactionId !in Step(h, event).buffer.ledger
  {
    var env := event.env;
    FairSubset(h.accepted + {env}, h.live + {env});
    assert env !in h.live by { assert Clear(h.buffer, h.live, env.Stream()); }
    TurnArrives(h.buffer, h.live, h.confirmed, env);
    NewIsApart(h.live, env);
    StaleStaysOut(Delivered(Seen(h.buffer, env.Stream()), env), h.live + {env}, h.confirmed, env.Stream(), event.now, event.picks, e);
  }

  ghost predicate HasValid(all: set<Envelope>, key: string, n: nat, now: nat)
  {
    exists f :: f in all && OnStream(f, key, n) && f.Validates(now)
  }

  /** The call will drop the bundle: it drains its stream, the bundle does not validate any more, and
      everything between the bundle submitted and this one is held and validates. */
  ghost predicate Doomed(h: History, event: Event, e: Envelope)
  {
    && event.Submit? && Drains(h.buffer, event.env, event.now)
    && e in h.live && e.Stream() == event.env.Stream() && !e.Validates(event.now) && event.env.sequence < e.sequence
    && forall n :: event.env.sequence < n < e.sequence ==> HasValid(h.live, e.Stream(), n, event.now)
  }

  /** What is still there after a call that drains was there or is the bundle submitted; what is gone does
      not validate. */
  lemma DrainedLive(h: History, event: Event, f: Envelope)
    requires Consistent(h.buffer, h.live, h.confirmed) && h.live <= h.accepted && Fair(Step(h, event).accepted)
    requires event.Submit? && event.env.Validates(event.now)
    ensures f in Step(h, event).live ==> f in h.live || f == event.env
    ensures f in h.live && f.Validates(event.now) ==> f in Step(h, event).live
  {
    if f in h.live && f !in Step(h, event).live { DropsWereHeld(h, event, f); }
  }

  /** What was drained past validated. */
  lemma DrainedPast(h: History, event: Event, n: nat)
    requires Consistent(h.buffer, h.live, h.confirmed) && h.live <= h.accepted && Fair(Step(h, event).accepted) && LawfulStep(h, event)
    requires event.Submit? && Drains(h.buffer, event.env, event.now)
    requires event.env.sequence < n < Expected(Step(h, event).buffer, event.env.Stream())
    ensures HasValid(h.live, event.env.Stream(), n, event.now)
  {
    var h', key := Step(h, event), event.env.Stream();
    StepConsistent(h, event);
    LeastMissing(h'.buffer, h'.live, h'.confirmed, key);
    assert Has(h'.live, key, n);
    var f :| f in h'.live && OnStream(f, key, n);
    DrainedLive(h, event, f);
    HeldAndApplied(h.buffer, h.live, h.confirmed, f);
    HeldAndApplied(h'.buffer, h'.live, h'.confirmed, f);
    if !f.Validates(event.now) { StaleNotApplied(h, event, f); }
  }

  /** The drain comes to the turn of a doomed bundle, and not further. */
  lemma DoomedTurn(h: History, event: Event, e: Envelope)
    requires Consistent(h.buffer, h.live, h.confirmed) && h.live <= h.accepted && Fair(Step(h, event).accepted) && LawfulStep(h, event)
    requires Doomed(h, event, e)
    ensures Expected(Step(h, event).buffer, e.Stream()) == e.sequence
  {
    var h', key := Step(h, event), e.Stream();
    var x := Expected(h'.buffer, key);
    StepConsistent(h, event);
    LeastMissing(h'.buffer, h'.live, h'.confirmed, key);
    EnvPassed(h, event);
    if x < e.sequence {
      assert HasValid(h.live, key, x, event.now);
      var f :| f in h.live && OnStream(f, key, x) && f.Validates(event.now);
      DrainedLive(h, event, f);
      assert Has(h'.live, key, x);
    } else if x > e.sequence {
      HeldAndApplied(h.buffer, h.live, h.confirmed, e);
      StaleNotApplied(h, event, e);
      PastIsApplied(h', e, h.accepted + {event.env});
    }
  }

  /** After the call the stream is past the bundle submitted. */
  lemma EnvPassed(h: History, event: Event)
    requires Consistent(h.buffer, h.live, h.confirmed) && h.live <= h.accepted && Fair(Step(h, event).accepted) && LawfulStep(h, event)
    requires event.Submit? && Drains(h.buffer, event.env, event.now)
    ensures Expected(Step(h, event).buffer, event.env.Stream()) > event.env.sequence
  {
    var h', env := Step(h, event), event.env;
    StepConsistent(h, event);
    NewStays(h, event);
    LedgerGrows(h, event, env.transactionId);
    HeldAndApplied(h'.buffer, h'.live, h'.confirmed, env);
  }

  /** Below the expected number of its stream the transaction of a bundle is applied. */
  lemma PastIsApplied(h: History, e: Envelope, all: set<Envelope>)
    requires Consistent(h.buffer, h.live, h.confirmed) && Fair(all) && h.live <= all && e in all
    requires 1 <= e.sequence < Expected(h.buffer, e.Stream())
    ensures e.transactionId in h.buffer.ledger
  {
    assert Has(h.live, e.Stream(), e.sequence);
    var f :| f in h.live && OnStream(f, e.Stream(), e.sequence);
    assert f == e || Apart(e, f);
    HeldAndApplied(h.buffer, h.live, h.confirmed, f);
  }

  /** A call drops a bundle exactly if the bundle is doomed, which can be told before the call. */
  lemma DropsExactly(h: History, event: Event, e: Envelope)
    requires Consistent(h.buffer, h.live, h.confirmed) && h.live <= h.accepted && Fair(Step(h, event).accepted) && LawfulStep(h, event)
    requires e in h.live
    ensures e !in Step(h, event).live <==> Doomed(h, event, e)
  {
    DropsAtTurn(h, event, e);
    if e !in Step(h, event).live {
      EnvPassed(h, event);
      forall n | event.env.sequence < n < e.sequence ensures HasValid(h.live, e.Stream(), n, event.now) { DrainedPast(h, event, n); }
    }
    if Doomed(h, event, e) { DoomedTurn(h, event, e); }
  }

  lemma TurnArrives(q: Buffer, all: set<Envelope>, confirmed: set<string>, env: Envelope)
    requires Fair(all + {env}) && env !in all && Kept(q, all, confirmed) && env.sequence == Expected(q, env.Stream())
    ensures Kept(Delivered(Seen(q, env.Stream()), env), all + {env}, confirmed)
  {
    SeenKeeps(q, all, confirmed, env.Stream());
    SeenSame(q, env.Stream(), env.Stream());
    ArriveKeeps(Seen(q, env.Stream()), all, confirmed, env);
  }

  /** All accepted bundles are in their places if and only if none of them is gone. */
  lemma ConsistentLive(events: seq<Event>)
    requires Lawful(events) && Fair(Run(events).accepted)
    ensures var h := Run(events);
      Consistent(h.buffer, h.accepted, h.confirmed) <==> h.live == h.accepted
  {
    var h := Run(events);
    RunConsistent(events);
    LiveAccepted(events);
    if Consistent(h.buffer, h.accepted, h.confirmed) {
      forall e | e in h.accepted ensures e in h.live { PlacedIsLive(h.buffer, h.accepted, h.live, h.confirmed, e); }
    }
  }

  lemma PlacedIsLive(q: Buffer, all: set<Envelope>, live: set<Envelope>, confirmed: set<string>, e: Envelope)
    requires Fair(all) && live <= all && e in all && Placed(q, confirmed, e) && Sourced(q, live, confirmed)
    ensures e in live
  {
    if e.transactionId in q.ledger {
      var f :| f in live && Pays(f, e.transactionId);
      assert f == e || Apart(e, f);
    }
  }

  /** What a step accepts it does not drop. */
  lemma NewStays(h: History, event: Event)
    requires Consistent(h.buffer, h.live, h.confirmed) && h.live <= h.accepted && Fair(Step(h, event).accepted)
    requires event.Submit? && event.env.Validates(event.now)
    ensures event.env in Step(h, event).live
  {
    var env, now, picks := event.env, event.now, event.picks;
    if env in Drops(h.buffer, env, now, picks) {
      FairSubset(h.accepted + {env}, h.live + {env});
      assert env !in h.live by { assert Clear(h.buffer, h.live, env.Stream()); }
      TurnArrives(h.buffer, h.live, h.confirmed, env);
      DropsAreStale(Delivered(Seen(h.buffer, env.Stream()), env), h.live + {env}, h.confirmed, env.Stream(), now, picks, env);
    }
  }

  /** No call dooms a bundle. */
  ghost predicate Timely(h: History, event: Event)
  {
    forall e :: e in h.live ==> !Doomed(h, event, e)
  }

  ghost predicate TimelyRun(events: seq<Event>)
    decreases |events|
  {
    events != [] ==> TimelyRun(events[..|events| - 1]) && Timely(Run(events[..|events| - 1]), events[|events| - 1])
  }

  /** All accepted bundles are in their places at every point of the run. */
  ghost predicate PlacedThroughout(events: seq<Event>)
    decreases |events|
  {
    && Consistent(Run(events).buffer, Run(events).accepted, Run(events).confirmed)
    && (events != [] ==> PlacedThroughout(events[..|events| - 1]))
  }

  /** A call on a buffer that has everything keeps it that way exactly if it dooms nothing. */
  lemma StepTimely(h: History, event: Event)
    requires Consistent(h.buffer, h.live, h.confirmed) && h.live == h.accepted && Fair(Step(h, event).accepted) && LawfulStep(h, event)
    ensures Step(h, event).live == Step(h, event).accepted <==> Timely(h, event)
  {
    forall e | e in h.live ensures e !in Step(h, event).live <==> Doomed(h, event, e) { DropsExactly(h, event, e); }
    if event.Submit? && event.env.Validates(event.now) { NewStays(h, event); }
  }

  /** The exact condition for order-independent delivery, over every run: all accepted bundles are in their
      places throughout if and only if no call finds a bundle expired when it has drained up to it, which
      each caller can tell from what is held. */
  lemma {:induction false} ConsistentExactly(events: seq<Event>)
    requires Lawful(events) && Fair(Run(events).accepted)
    ensures PlacedThroughout(events) <==> TimelyRun(events)
    ensures TimelyRun(events) ==> Run(events).live == Run(events).accepted
    decreases |events|
  {
    ConsistentLive(events);
    if events != [] {
      var before, event := events[..|events| - 1], events[|events| - 1];
      FairSubset(Run(events).accepted, Run(before).accepted);
      ConsistentExactly(before);
      ConsistentLive(before);
      RunConsistent(before);
      LiveAccepted(before);
      if PlacedThroughout(before) { StepTimely(Run(before), event); }
    }
  }

  /** If the calls of a run are made at times up to which all its bundles validate, nothing is dropped. */
  lemma {:induction false} NothingDropped(events: seq<Event>, end: nat)
    requires Lawful(events) && Fair(Run(events).accepted)
    requires forall e :: e in Run(events).accepted ==> e.Validates(end)
    requires forall i :: 0 <= i < |events| && events[i].Submit? ==> events[i].now <= end
    ensures TimelyRun(events) && Run(events).live == Run(events).accepted
    decreases |events|
  {
    ConsistentExactly(events);
    if events != [] {
      var before := events[..|events| - 1];
      FairSubset(Run(events).accepted, Run(before).accepted);
      assert forall i :: 0 <= i < |before| ==> before[i] == events[i];
      NothingDropped(before, end);
    }
  }

  const FIRST: Envelope := Envelope("b1", "s", "d", "c", "t", 1, "x1", 0, OfBytes("p"), "p")
  const SECOND: Envelope := Envelope("b2", "s", "d", "c", "t", 2, "x2", 5, OfBytes("p"), "p")

  lemma SecondHeld()
    ensures Run([Submit(SECOND, 1, [])]) == History(Hold(Seen(FRESH_BUFFER, SECOND.Stream()), SECOND), {SECOND}, {SECOND}, {})
    ensures Lawful([Submit(SECOND, 1, [])])
  {
    assert [Submit(SECOND, 1, [])][..0] == [];
  }

  lemma SecondLost(q: Buffer)
    requires q.gap == map["b2" := SECOND] && Expected(q, SECOND.Stream()) == 2
    ensures DrainAlong(q, SECOND.Stream(), 10, ["b2"]) == q.(gap := map[])
    ensures DropsAlong(q, SECOND.Stream(), 10, ["b2"]) == {SECOND}
  {
    assert ["b2"][..0] == [];
    assert Ready(q, SECOND.Stream(), "b2") && !SECOND.Validates(10);
  }

  /** A bundle that is held beyond its expiration is lost: the second of a stream, valid until tick 5, is
      held at tick 1 and dropped when the first one arrives at tick 10. */
  lemma HeldTooLong()
    ensures var events := [Submit(SECOND, 1, []), Submit(FIRST, 10, ["b2"])];
      && Lawful(events) && Fair(Run(events).accepted)
      && Run(events).accepted == {FIRST, SECOND} && Run(events).live == {FIRST}
      && Expected(Run(events).buffer, SECOND.Stream()) == 2 && SECOND !in Run(events).buffer.gap.Values
  {
    var one, two := Submit(SECOND, 1, []), Submit(FIRST, 10, ["b2"]);
    assert SECOND.Stream() == FIRST.Stream();
    assert [one, two][..1] == [one];
    SecondHeld();
    SecondLost(Delivered(Seen(Run([one]).buffer, FIRST.Stream()), FIRST));
  }

  // ---- What consistency means ----------------------------------------------------------------

  /** The expected number is the least positive one that has not been submitted. */
  lemma LeastMissing(q: Buffer, all: set<Envelope>, confirmed: set<string>, key: string)
    requires Consistent(q, all, confirmed)
    ensures Expected(q, key) >= 1 && !Has(all, key, Expected(q, key))
    ensures forall n :: 1 <= n < Expected(q, key) ==> Has(all, key, n)
  {
    assert Clear(q, all, key);
  }

  /** Held are exactly the bundles above the expected number of their stream, in the ledger exactly the
      transactions of those below. */
  lemma HeldAndApplied(q: Buffer, all: set<Envelope>, confirmed: set<string>, e: Envelope)
    requires Consistent(q, all, confirmed) && e in all
    ensures e.sequence > Expected(q, e.Stream()) <==> e in q.gap.Values
    ensures e.sequence < Expected(q, e.Stream()) <==> e.transactionId in q.ledger
    ensures e.transactionId in q.ledger ==> q.ledger[e.transactionId] == NewEntry(e.Paid())
  {
    assert Placed(q, confirmed, e) && Clear(q, all, e.Stream());
    if e in q.gap.Values {
      var id :| id in q.gap && q.gap[id] == e;
    }
  }

  /** To be retransmitted are exactly the bundles submitted and not confirmed. */
  lemma Retransmitted(q: Buffer, all: set<Envelope>, confirmed: set<string>, e: Envelope)
    requires Consistent(q, all, confirmed)
    ensures e in q.gap.Values + q.unconfirmed.Values <==> e in all && e.bundleId !in confirmed
  {
    if e in all {
      assert Placed(q, confirmed, e);
    }
    if e in q.gap.Values {
      var id :| id in q.gap && q.gap[id] == e;
    }
    if e in q.unconfirmed.Values {
      var id :| id in q.unconfirmed && q.unconfirmed[id] == e;
    }
  }

  /** Two expected numbers that are both the least missing one are the same. */
  lemma SameExpected(p: Buffer, q: Buffer, all: set<Envelope>, c: set<string>, d: set<string>, key: string)
    requires Consistent(p, all, c) && Consistent(q, all, d)
    ensures Expected(p, key) == Expected(q, key)
  {
    LeastMissing(p, all, c, key);
    LeastMissing(q, all, d, key);
    assert Expected(p, key) < Expected(q, key) ==> Has(all, key, Expected(p, key));
    assert Expected(q, key) < Expected(p, key) ==> Has(all, key, Expected(q, key));
  }

  lemma HeldToo(p: Buffer, q: Buffer, all: set<Envelope>, c: set<string>, d: set<string>, id: string)
    requires Consistent(p, all, c) && Consistent(q, all, d) && id in p.gap
    ensures id in q.gap && q.gap[id] == p.gap[id]
  {
    var e := p.gap[id];
    SameExpected(p, q, all, c, d, e.Stream());
    assert Placed(p, c, e) && Placed(q, d, e);
  }

  lemma AppliedToo(p: Buffer, q: Buffer, c: set<string>, d: set<string>, e: Envelope)
    requires Placed(p, c, e) && Placed(q, d, e) && Expected(p, e.Stream()) == Expected(q, e.Stream())
    ensures e.transactionId in p.ledger <==> e.transactionId in q.ledger
    ensures e.transactionId in p.ledger ==> q.ledger[e.transactionId] == p.ledger[e.transactionId]
  {
  }

  lemma SameEntry(p: Buffer, q: Buffer, all: set<Envelope>, c: set<string>, d: set<string>, tx: string)
    requires AllPlaced(p, all, c) && AllPlaced(q, all, d) && (forall key :: Expected(p, key) == Expected(q, key))
    requires PaidBy(all, tx)
    ensures tx in p.ledger <==> tx in q.ledger
    ensures tx in p.ledger ==> q.ledger[tx] == p.ledger[tx]
  {
    var e :| e in all && Pays(e, tx);
    AppliedToo(p, q, c, d, e);
  }

  /** Order-independent delivery: what is expected, held and applied depends only on the set of bundles
      that were submitted. */
  lemma OrderIndependent(p: Buffer, q: Buffer, all: set<Envelope>, c: set<string>, d: set<string>)
    requires Consistent(p, all, c) && Consistent(q, all, d)
    ensures (forall key :: Expected(p, key) == Expected(q, key)) && p.gap == q.gap && p.ledger == q.ledger
  {
    forall key ensures Expected(p, key) == Expected(q, key) { SameExpected(p, q, all, c, d, key); }
    forall id ensures id in p.gap <==> id in q.gap {
      if id in p.gap { HeldToo(p, q, all, c, d, id); }
      if id in q.gap { HeldToo(q, p, all, d, c, id); }
    }
    forall id | id in p.gap ensures p.gap[id] == q.gap[id] { HeldToo(p, q, all, c, d, id); }
    SameLedger(p, q, all, c, d);
  }

  lemma SameLedger(p: Buffer, q: Buffer, all: set<Envelope>, c: set<string>, d: set<string>)
    requires AllPlaced(p, all, c) && AllPlaced(q, all, d) && (forall key :: Expected(p, key) == Expected(q, key))
    requires forall tx :: tx in p.ledger || tx in q.ledger ==> PaidBy(all, tx)
    ensures p.ledger == q.ledger
  {
    forall tx | tx in p.ledger || tx in q.ledger
      ensures tx in p.ledger && tx in q.ledger && p.ledger[tx] == q.ledger[tx]
    {
      SameEntry(p, q, all, c, d, tx);
    }
  }

  /** Two runs in which the same bundles are accepted and not dropped, in whatever orders, with whatever
      repetitions and confirmations, expect, hold and have applied the same. */
  lemma RunsAgree(a: seq<Event>, b: seq<Event>)
    requires Lawful(a) && Lawful(b) && Fair(Run(a).accepted) && Fair(Run(b).accepted) && Run(a).live == Run(b).live
    ensures forall key :: Expected(Run(a).buffer, key) == Expected(Run(b).buffer, key)
    ensures Run(a).buffer.gap == Run(b).buffer.gap && Run(a).buffer.ledger == Run(b).buffer.ledger
  {
    RunConsistent(a);
    RunConsistent(b);
    OrderIndependent(Run(a).buffer, Run(b).buffer, Run(a).live, Run(a).confirmed, Run(b).confirmed);
  }

  // ---- Applied once --------------------------------------------------------------------------

  lemma {:induction false} DrainLedger(q: Buffer, key: string, now: nat, picks: seq<string>, tx: string)
    requires tx in q.ledger
    ensures tx in DrainAlong(q, key, now, picks).ledger
    decreases |picks|
  {
    if picks != [] { DrainLedger(q, key, now, picks[..|picks| - 1], tx); }
  }

  /** The ledger forgets nothing. */
  lemma LedgerGrows(h: History, event: Event, tx: string)
    requires tx in h.buffer.ledger || Reports(h, event, tx)
    ensures tx in Step(h, event).buffer.ledger
  {
    if event.Submit? && Drains(h.buffer, event.env, event.now) {
      var key := event.env.Stream();
      DrainLedger(Delivered(Seen(h.buffer, key), event.env), key, event.now, event.picks, tx);
    }
  }

  /** The event reports the transaction as applied. */
  predicate Reports(h: History, event: Event, tx: string)
  {
    && event.Submit? && event.env.transactionId == tx
    && var r := Answer(h.buffer, event.env, event.now); r.Settled? && r.entry.applied
  }

  lemma {:induction false} StaysInLedger(events: seq<Event>, i: nat, j: nat, tx: string)
    requires i <= j <= |events| && tx in Run(events[..i]).buffer.ledger
    ensures tx in Run(events[..j]).buffer.ledger
    decreases j
  {
    if i < j {
      StaysInLedger(events, i, j - 1, tx);
      assert events[..j][..j - 1] == events[..j - 1];
      LedgerGrows(Run(events[..j - 1]), events[j - 1], tx);
    }
  }

  /** Over any run at all, no transaction is reported as applied twice. */
  lemma AppliedOnce(events: seq<Event>, i: nat, j: nat, tx: string)
    requires i < j < |events| && Reports(Run(events[..i]), events[i], tx)
    ensures !Reports(Run(events[..j]), events[j], tx)
  {
    assert events[..i + 1][..i] == events[..i];
    LedgerGrows(Run(events[..i]), events[i], tx);
    StaysInLedger(events, i + 1, j, tx);
  }

  // ---- Bundles that do not fit ---------------------------------------------------------------

  /** Streams expect, and the buffer holds and retransmits, what they did before. */
  ghost predicate Untouched(q: Buffer, q': Buffer)
  {
    q'.gap == q.gap && q'.unconfirmed == q.unconfirmed && forall key :: Expected(q', key) == Expected(q, key)
  }

  /** A new transaction under an old number, in any state, is applied at once, out of order, and no stream
      moves. */
  lemma LateMeaning(q: Buffer, env: Envelope, now: nat, picks: seq<string>)
    requires env.Validates(now) && env.sequence < Expected(q, env.Stream()) && env.transactionId !in q.ledger
    ensures Untouched(q, Submitted(q, env, now, picks))
    ensures Submitted(q, env, now, picks).ledger == q.ledger[env.transactionId := NewEntry(env.Paid())]
    ensures Answer(q, env, now) == Settled(Expected(q, env.Stream()), NewEntry(env.Paid()))
  {
  }

  /** A transaction that is in the ledger is not applied again, and even under the expected number its stream
      does not move. */
  lemma KnownMeaning(q: Buffer, env: Envelope, now: nat, picks: seq<string>)
    requires env.Validates(now) && env.sequence <= Expected(q, env.Stream()) && env.transactionId in q.ledger
    ensures Untouched(q, Submitted(q, env, now, picks)) && Submitted(q, env, now, picks).ledger == q.ledger
    ensures Answer(q, env, now) == Settled(Expected(q, env.Stream()), q.ledger[env.transactionId].(applied := false, message := DEDUPLICATED))
  {
  }

  // ---- The first result stays ----------------------------------------------------------------

  predicate Keeps(q: Buffer, q': Buffer, tx: string)
  {
    tx in q.ledger ==> tx in q'.ledger && q'.ledger[tx] == q.ledger[tx]
  }

  lemma {:induction false} DrainKeepsEntry(q: Buffer, key: string, now: nat, picks: seq<string>, tx: string)
    ensures Keeps(q, DrainAlong(q, key, now, picks), tx)
    decreases |picks|
  {
    if picks != [] { DrainKeepsEntry(q, key, now, picks[..|picks| - 1], tx); }
  }

  /** What the ledger holds of a transaction never changes. */
  lemma StepKeepsEntry(h: History, event: Event, tx: string)
    ensures Keeps(h.buffer, Step(h, event).buffer, tx)
  {
    if event.Submit? && Drains(h.buffer, event.env, event.now) {
      var key := event.env.Stream();
      DrainKeepsEntry(Delivered(Seen(h.buffer, key), event.env), key, event.now, event.picks, tx);
    }
  }

  lemma {:induction false} EntryStays(events: seq<Event>, i: nat, j: nat, tx: string)
    requires i <= j <= |events|
    ensures Keeps(Run(events[..i]).buffer, Run(events[..j]).buffer, tx)
    decreases j
  {
    if i < j {
      EntryStays(events, i, j - 1, tx);
      assert events[..j][..j - 1] == events[..j - 1];
      StepKeepsEntry(Run(events[..j - 1]), events[j - 1], tx);
    }
  }

  /** The answer to the i-th event, a submission. */
  function AnswerAt(events: seq<Event>, i: nat): Response
    requires i < |events| && events[i].Submit?
  {
    Answer(Run(events[..i]).buffer, events[i].env, events[i].now)
  }

  lemma ReportedEntry(h: History, event: Event)
    requires event.Submit? && var r := Answer(h.buffer, event.env, event.now); r.Settled? && r.entry.applied
    ensures var tx := event.env.transactionId;
      tx in Step(h, event).buffer.ledger && Step(h, event).buffer.ledger[tx].(message := DEDUPLICATED, applied := false)
        == Answer(h.buffer, event.env, event.now).entry.(message := DEDUPLICATED, applied := false)
  {
    var env := event.env;
    if env.transactionId !in h.buffer.ledger && Drains(h.buffer, env, event.now) {
      DrainKeepsEntry(Delivered(Seen(h.buffer, env.Stream()), env), env.Stream(), event.now, event.picks, env.transactionId);
    }
  }

  /** Once a transaction is reported as applied, every later submission of it that is not held or refused gets
      the same result back, marked as not applied. */
  lemma FirstResult(events: seq<Event>, i: nat, j: nat)
    requires i < j < |events| && events[i].Submit? && events[j].Submit? && events[i].env.transactionId == events[j].env.transactionId
    requires AnswerAt(events, i).Settled? && AnswerAt(events, i).entry.applied && AnswerAt(events, j).Settled?
    ensures AnswerAt(events, j).entry == AnswerAt(events, i).entry.(applied := false, message := DEDUPLICATED)
  {
    assert events[..i + 1][..i] == events[..i];
    ReportedEntry(Run(events[..i]), events[i]);
    EntryStays(events, i + 1, j, events[i].env.transactionId);
  }
}
