/** Reconciling the bundle states of two replicas (bundle/reconcile/reconcile.go). */
module Reconcile {
  import opened Ordering
  import opened Counting

  datatype BundleRecord = BundleRecord(
    bundleId: string,
    digest: string,
    transactionId: string,
    channelId: string,
    sequence: nat)

  /** A context digest is a text or the hash of the other parts of a state. */
  datatype Context =
    | Text(text: string)
    | OfParts(latest: map<string, nat>, committed: map<string, string>, custody: map<string, string>,
              pending: seq<string>, bundles: map<string, BundleRecord>)

  datatype BundleState = BundleState(
    latest: map<string, nat>,
    committed: map<string, string>,
    custody: map<string, string>,
    context: Context,
    pending: seq<string>,
    bundles: map<string, BundleRecord>)

  datatype Plan = Plan(noop: bool, missing: seq<string>, duplicate: seq<string>, conflicting: seq<string>)

  /** A Go map reads 0 where it has no entry. */
  function At(latest: map<string, nat>, channel: string): nat
  {
    if channel in latest then latest[channel] else 0
  }

  // ---- Compare -------------------------------------------------------------------------------

  datatype Kind = Missing | Duplicate | Conflicting

  function KindOf(local: BundleState, remote: BundleState, id: string): Kind
    requires id in remote.bundles
  {
    if id !in local.bundles then Missing
    else if local.bundles[id].digest != remote.bundles[id].digest then Conflicting
    else Duplicate
  }

  /** `ids` are the bundles of one kind among those in `seen`, each once. */
  ghost predicate Lists(local: BundleState, remote: BundleState, seen: set<string>, kind: Kind, ids: seq<string>)
  {
    && DistinctIds(ids)
    && forall id :: id in ids <==> id in seen && id in remote.bundles && KindOf(local, remote, id) == kind
  }

  lemma ListsMore(local: BundleState, remote: BundleState, seen: set<string>, kind: Kind, ids: seq<string>, id: string)
    requires Lists(local, remote, seen, kind, ids) && id in remote.bundles && id !in seen
    ensures KindOf(local, remote, id) == kind ==> Lists(local, remote, seen + {id}, kind, ids + [id])
    ensures KindOf(local, remote, id) != kind ==> Lists(local, remote, seen + {id}, kind, ids)
  {
  }

  /** A plan sorts the remote bundles, without repetition, into the missing, the duplicate and the
      conflicting ones. */
  ghost predicate IsPlan(local: BundleState, remote: BundleState, plan: Plan)
  {
    && Listing(local, remote, Missing, plan.missing)
    && Listing(local, remote, Duplicate, plan.duplicate)
    && Listing(local, remote, Conflicting, plan.conflicting)
    && (plan.noop <==> plan.missing == [] && plan.conflicting == [])
  }

  ghost predicate Listing(local: BundleState, remote: BundleState, kind: Kind, ids: seq<string>)
  {
    StrictlySorted(ids) && Lists(local, remote, remote.bundles.Keys, kind, ids)
  }

  method SortListing(local: BundleState, remote: BundleState, ghost kind: Kind, ids: seq<string>) returns (sorted: seq<string>)
    requires Lists(local, remote, remote.bundles.Keys, kind, ids)
    ensures Listing(local, remote, kind, sorted)
  {
    sorted := Sort(ids);
    SameContents(ids, sorted);
    SortedDistinct(sorted);
    assert forall id :: id in sorted <==> id in Elements(sorted);
    assert forall id :: id in ids <==> id in Elements(ids);
  }

  method Compare(local: BundleState, remote: BundleState) returns (plan: Plan)
    ensures IsPlan(local, remote, plan)
    ensures forall id :: id in plan.missing <==> id in remote.bundles && id !in local.bundles
    ensures forall id :: id in plan.duplicate <==> id in remote.bundles && id in local.bundles && local.bundles[id].digest == remote.bundles[id].digest
    ensures forall id :: id in plan.conflicting <==> id in remote.bundles && id in local.bundles && local.bundles[id].digest != remote.bundles[id].digest
  {
    var missing, duplicate, conflicting := [], [], [];
    var rest := remote.bundles.Keys;
    ghost var seen := {};
    while rest != {}
      invariant seen + rest == remote.bundles.Keys && seen !! rest
      invariant Lists(local, remote, seen, Missing, missing)
      invariant Lists(local, remote, seen, Duplicate, duplicate)
      invariant Lists(local, remote, seen, Conflicting, conflicting)
      decreases rest
    {
      var id :| id in rest;
      ListsMore(local, remote, seen, Missing, missing, id);
      ListsMore(local, remote, seen, Duplicate, duplicate, id);
      ListsMore(local, remote, seen, Conflicting, conflicting, id);
      if id !in local.bundles {
        missing := missing + [id];
      } else if local.bundles[id].digest != remote.bundles[id].digest {
        conflicting := conflicting + [id];
      } else {
        duplicate := duplicate + [id];
      }
      seen, rest := seen + {id}, rest - {id};
    }
    missing := SortListing(local, remote, Missing, missing);
    duplicate := SortListing(local, remote, Duplicate, duplicate);
    conflicting := SortListing(local, remote, Conflicting, conflicting);
    plan := Plan(|missing| == 0 && |conflicting| == 0, missing, duplicate, conflicting);
  }

  // ---- Apply ---------------------------------------------------------------------------------

  /** Taking over one record of the remote state. */
  function Learn(s: BundleState, remote: BundleState, id: string): BundleState
  {
    if id !in remote.bundles then s else
    var record := remote.bundles[id];
    s.(bundles := s.bundles[id := record],
       committed := s.committed[record.transactionId := record.digest],
       latest := if record.sequence > At(s.latest, record.channelId) then s.latest[record.channelId := record.sequence] else s.latest,
       custody := if id in remote.custody then s.custody[id := remote.custody[id]] else s.custody)
  }

  function LearnAll(s: BundleState, remote: BundleState, ids: seq<string>): BundleState
    decreases |ids|
  {
    if ids == [] then s else Learn(LearnAll(s, remote, ids[..|ids| - 1]), remote, ids[|ids| - 1])
  }

  /** The pending ids that are not in `applied`, in order of arrival. */
  function Keep(pending: seq<string>, applied: seq<string>): seq<string>
    decreases |pending|
  {
    if pending == [] then [] else
    var last := pending[|pending| - 1];
    Keep(pending[..|pending| - 1], applied) + (if last in applied then [] else [last])
  }

  method SubtractPending(pending: seq<string>, applied: seq<string>) returns (out: seq<string>)
    ensures Sorted(out) && multiset(out) == multiset(Keep(pending, applied))
  {
    var appliedSet := {};
    for n := 0 to |applied|
      invariant forall id :: id in appliedSet <==> id in applied[..n]
    {
      appliedSet := appliedSet + {applied[n]};
    }
    assert applied[..|applied|] == applied;
    out := [];
    for n := 0 to |pending|
      invariant out == Keep(pending[..n], applied)
    {
      assert pending[..n + 1][..n] == pending[..n];
      if pending[n] !in appliedSet { out := out + [pending[n]]; }
    }
    assert pending[..|pending|] == pending;
    out := Sort(out);
  }

  /** On conflicts the local state stays; otherwise all missing bundles are taken over. */
  method Apply(local: BundleState, remote: BundleState, plan: Plan) returns (next: BundleState, ok: bool)
    ensures ok <==> plan.conflicting == []
    ensures !ok ==> next == local
    ensures ok ==>
      var learned := LearnAll(local, remote, plan.missing);
      && next.bundles == learned.bundles && next.committed == learned.committed
      && next.latest == learned.latest && next.custody == learned.custody
    ensures ok ==> Sorted(next.pending) && multiset(next.pending) == multiset(Keep(local.pending, plan.missing))
    ensures ok && plan.missing == [] ==> next.context == local.context
    ensures ok && plan.missing != [] ==> next.context == OfParts(next.latest, next.committed, next.custody, next.pending, next.bundles)
  {
    if |plan.conflicting| > 0 { return local, false; }
    next := local;
    for n := 0 to |plan.missing|
      invariant next == LearnAll(local, remote, plan.missing[..n])
    {
      assert plan.missing[..n + 1][..n] == plan.missing[..n];
      LearnKeeps(local, remote, plan.missing[..n + 1]);
      var id := plan.missing[n];
      if id in remote.bundles {
        var record := remote.bundles[id];
        next := next.(bundles := next.bundles[id := record],
                      committed := next.committed[record.transactionId := record.digest]);
        if record.sequence > At(next.latest, record.channelId) {
          next := next.(latest := next.latest[record.channelId := record.sequence]);
        }
        if id in remote.custody { next := next.(custody := next.custody[id := remote.custody[id]]); }
      }
    }
    assert plan.missing[..|plan.missing|] == plan.missing;
    LearnKeeps(local, remote, plan.missing);
    var pending := SubtractPending(next.pending, plan.missing);
    next := next.(pending := pending);
    if |plan.missing| > 0 {
      next := next.(context := OfParts(next.latest, next.committed, next.custody, next.pending, next.bundles));
    }
    ok := true;
  }

  lemma {:induction false} LearnKeeps(s: BundleState, remote: BundleState, ids: seq<string>)
    ensures LearnAll(s, remote, ids).pending == s.pending && LearnAll(s, remote, ids).context == s.context
    decreases |ids|
  {
    if ids != [] { LearnKeeps(s, remote, ids[..|ids| - 1]); }
  }

  /** What stays pending: of every id not applied as many as before, of the applied ones none. */
  lemma {:induction false} KeepMeaning(pending: seq<string>, applied: seq<string>, id: string)
    ensures multiset(Keep(pending, applied))[id] == if id in applied then 0 else multiset(pending)[id]
    decreases |pending|
  {
    if pending != [] {
      var n := |pending| - 1;
      KeepMeaning(pending[..n], applied, id);
      assert pending == pending[..n] + [pending[n]];
    }
  }

  /** The custody status of a bundle taken over is the remote one, if there is one; all others stay. */
  lemma {:induction false} LearnedCustody(s: BundleState, remote: BundleState, ids: seq<string>, id: string)
    ensures var custody := LearnAll(s, remote, ids).custody;
      var taken := id in ids && id in remote.bundles && id in remote.custody;
      && (id in custody <==> taken || id in s.custody)
      && (id in custody ==> custody[id] == if taken then remote.custody[id] else s.custody[id])
    decreases |ids|
  {
    if ids != [] {
      var rest := ids[..|ids| - 1];
      LearnedCustody(s, remote, rest, id);
      assert id in ids <==> id in rest || id == ids[|ids| - 1];
    }
  }

  // ---- Well-formed and compatible states -----------------------------------------------------

  /** What a state says of one of its records. */
  predicate Noted(s: BundleState, record: BundleRecord)
  {
    && record.transactionId in s.committed && s.committed[record.transactionId] == record.digest
    && record.sequence <= At(s.latest, record.channelId)
  }

  predicate Backs(s: BundleState, id: string, tx: string)
  {
    id in s.bundles && s.bundles[id].transactionId == tx
  }

  predicate Reaches(s: BundleState, id: string, channel: string, sequence: nat)
  {
    id in s.bundles && s.bundles[id].channelId == channel && s.bundles[id].sequence == sequence
  }

  ghost predicate AllNoted(s: BundleState)
  {
    forall id :: id in s.bundles ==> Noted(s, s.bundles[id])
  }

  ghost predicate AllBacked(s: BundleState)
  {
    forall tx :: tx in s.committed ==> exists id :: Backs(s, id, tx)
  }

  ghost predicate AllReached(s: BundleState)
  {
    forall c :: At(s.latest, c) > 0 ==> exists id :: Reaches(s, id, c, At(s.latest, c))
  }

  /** The committed ids and the latest sequences are exactly those that the bundles induce. */
  ghost predicate WellFormed(s: BundleState)
  {
    AllNoted(s) && AllBacked(s) && AllReached(s)
  }

  /** Two maps agree where both have an entry. */
  ghost predicate Agree<K, V>(a: map<K, V>, b: map<K, V>)
  {
    forall k :: k in a && k in b ==> a[k] == b[k]
  }

  /** Records agree per bundle id and digests per transaction id. */
  ghost predicate Compatible(a: BundleState, b: BundleState)
  {
    Agree(a.bundles, b.bundles) && Agree(a.committed, b.committed)
  }

  function Max(a: nat, b: nat): nat { if a >= b then a else b }

  /** The union of the bundles and of the committed ids, and the later of the latest sequences. */
  ghost predicate IsJoin(a: BundleState, b: BundleState, n: BundleState)
  {
    && n.bundles == a.bundles + b.bundles && n.committed == a.committed + b.committed
    && forall c :: At(n.latest, c) == Max(At(a.latest, c), At(b.latest, c))
  }

  // ---- What taking over records does ---------------------------------------------------------

  predicate HasTx(remote: BundleState, ids: seq<string>, tx: string)
    decreases |ids|
  {
    ids != [] && (HasTx(remote, ids[..|ids| - 1], tx) || Backs(remote, ids[|ids| - 1], tx))
  }

  lemma {:induction false} HasTxMeaning(remote: BundleState, ids: seq<string>, id: string, tx: string)
    requires id in ids && Backs(remote, id, tx)
    ensures HasTx(remote, ids, tx)
    decreases |ids|
  {
    if ids[|ids| - 1] != id { HasTxMeaning(remote, ids[..|ids| - 1], id, tx); }
  }

  lemma {:induction false} LearnedBundles(s: BundleState, remote: BundleState, ids: seq<string>, id: string)
    requires forall i :: i in ids ==> i in remote.bundles
    ensures id in LearnAll(s, remote, ids).bundles <==> id in s.bundles || id in ids
    ensures id in ids ==> LearnAll(s, remote, ids).bundles[id] == remote.bundles[id]
    ensures id !in ids && id in s.bundles ==> LearnAll(s, remote, ids).bundles[id] == s.bundles[id]
    decreases |ids|
  {
    if ids != [] {
      var rest := ids[..|ids| - 1];
      LearnedBundles(s, remote, rest, id);
      assert id in ids <==> id in rest || id == ids[|ids| - 1];
    }
  }

  lemma {:induction false} LearnedCommitted(s: BundleState, remote: BundleState, ids: seq<string>, tx: string)
    requires AllNoted(remote) && forall i :: i in ids ==> i in remote.bundles
    ensures tx in LearnAll(s, remote, ids).committed <==> tx in s.committed || HasTx(remote, ids, tx)
    ensures HasTx(remote, ids, tx) ==> tx in remote.committed && LearnAll(s, remote, ids).committed[tx] == remote.committed[tx]
    ensures !HasTx(remote, ids, tx) && tx in s.committed ==> LearnAll(s, remote, ids).committed[tx] == s.committed[tx]
    decreases |ids|
  {
    if ids != [] {
      assert ids[|ids| - 1] in remote.bundles && Noted(remote, remote.bundles[ids[|ids| - 1]]);
      LearnedCommitted(s, remote, ids[..|ids| - 1], tx);
    }
  }

  /** The latest sequence is the local one or that of a record taken over, and above them all. */
  lemma {:induction false} LearnedLatest(s: BundleState, remote: BundleState, ids: seq<string>, c: string)
    requires forall i :: i in ids ==> i in remote.bundles && Noted(remote, remote.bundles[i])
    ensures var latest := At(LearnAll(s, remote, ids).latest, c);
      At(s.latest, c) <= latest <= Max(At(s.latest, c), At(remote.latest, c))
    decreases |ids|
  {
    if ids != [] {
      LearnedLatest(s, remote, ids[..|ids| - 1], c);
      assert Noted(remote, remote.bundles[ids[|ids| - 1]]);
    }
  }

  lemma {:induction false} LearnedReaches(s: BundleState, remote: BundleState, ids: seq<string>, id: string)
    requires (forall i :: i in ids ==> i in remote.bundles) && id in ids
    ensures remote.bundles[id].sequence <= At(LearnAll(s, remote, ids).latest, remote.bundles[id].channelId)
    decreases |ids|
  {
    if ids[|ids| - 1] != id { LearnedReaches(s, remote, ids[..|ids| - 1], id); }
  }

  // ---- Reconciliation is a join --------------------------------------------------------------

  /** Taking over the missing bundles of a compatible state is the join. */
  lemma JoinBundles(a: BundleState, b: BundleState, ids: seq<string>)
    requires Agree(a.bundles, b.bundles) && Listing(a, b, Missing, ids)
    ensures LearnAll(a, b, ids).bundles == a.bundles + b.bundles
  {
    var n := LearnAll(a, b, ids);
    forall id ensures id in n.bundles <==> id in a.bundles || id in b.bundles { LearnedBundles(a, b, ids, id); }
    forall id | id in n.bundles ensures n.bundles[id] == (a.bundles + b.bundles)[id] { LearnedBundles(a, b, ids, id); }
  }

  lemma JoinTx(a: BundleState, b: BundleState, ids: seq<string>, tx: string)
    requires AllNoted(a) && AllBacked(b) && Agree(a.bundles, b.bundles) && Listing(a, b, Missing, ids)
    ensures tx in b.committed ==> HasTx(b, ids, tx) || tx in a.committed
  {
    if tx in b.committed {
      var id :| Backs(b, id, tx);
      if id in ids { HasTxMeaning(b, ids, id, tx); } else { assert Noted(a, a.bundles[id]); }
    }
  }

  lemma JoinEntry(a: BundleState, b: BundleState, ids: seq<string>, tx: string)
    requires AllNoted(a) && AllNoted(b) && AllBacked(b) && Compatible(a, b) && Listing(a, b, Missing, ids)
    ensures tx in LearnAll(a, b, ids).committed <==> tx in a.committed || tx in b.committed
    ensures tx in b.committed ==> LearnAll(a, b, ids).committed[tx] == b.committed[tx]
    ensures tx in a.committed && tx !in b.committed ==> LearnAll(a, b, ids).committed[tx] == a.committed[tx]
  {
    LearnedCommitted(a, b, ids, tx);
    JoinTx(a, b, ids, tx);
  }

  lemma JoinCommitted(a: BundleState, b: BundleState, ids: seq<string>)
    requires AllNoted(a) && AllNoted(b) && AllBacked(b) && Compatible(a, b) && Listing(a, b, Missing, ids)
    ensures LearnAll(a, b, ids).committed == a.committed + b.committed
  {
    var committed := LearnAll(a, b, ids).committed;
    forall tx ensures tx in committed <==> tx in a.committed + b.committed { JoinEntry(a, b, ids, tx); }
    forall tx | tx in committed ensures committed[tx] == (a.committed + b.committed)[tx] { JoinEntry(a, b, ids, tx); }
  }

  lemma JoinLatest(a: BundleState, b: BundleState, ids: seq<string>, c: string)
    requires AllNoted(a) && AllNoted(b) && AllReached(b) && Agree(a.bundles, b.bundles) && Listing(a, b, Missing, ids)
    ensures At(LearnAll(a, b, ids).latest, c) == Max(At(a.latest, c), At(b.latest, c))
  {
    LearnedLatest(a, b, ids, c);
    if At(b.latest, c) > 0 {
      var id :| Reaches(b, id, c, At(b.latest, c));
      if id in ids { LearnedReaches(a, b, ids, id); } else { assert Noted(a, a.bundles[id]); }
    }
  }

  lemma JoinMeaning(a: BundleState, b: BundleState, ids: seq<string>)
    requires WellFormed(a) && WellFormed(b) && Compatible(a, b) && Listing(a, b, Missing, ids)
    ensures IsJoin(a, b, LearnAll(a, b, ids))
  {
    JoinBundles(a, b, ids);
    JoinCommitted(a, b, ids);
    forall c ensures At(LearnAll(a, b, ids).latest, c) == Max(At(a.latest, c), At(b.latest, c)) { JoinLatest(a, b, ids, c); }
  }

  lemma JoinNoted(a: BundleState, b: BundleState, n: BundleState, id: string)
    requires AllNoted(a) && AllNoted(b) && Compatible(a, b) && IsJoin(a, b, n) && id in n.bundles
    ensures Noted(n, n.bundles[id])
  {
    if id in b.bundles { assert Noted(b, b.bundles[id]); } else { assert Noted(a, a.bundles[id]); }
  }

  lemma JoinBacks(a: BundleState, b: BundleState, n: BundleState, tx: string)
    requires AllBacked(a) && AllBacked(b) && Compatible(a, b) && IsJoin(a, b, n) && tx in n.committed
    ensures exists id :: Backs(n, id, tx)
  {
    var id :| Backs(if tx in b.committed then b else a, id, tx);
    assert Backs(n, id, tx);
  }

  lemma JoinReaches(a: BundleState, b: BundleState, n: BundleState, c: string)
    requires AllReached(a) && AllReached(b) && Compatible(a, b) && IsJoin(a, b, n) && At(n.latest, c) > 0
    ensures exists id :: Reaches(n, id, c, At(n.latest, c))
  {
    var later := if At(a.latest, c) >= At(b.latest, c) then a else b;
    var id :| Reaches(later, id, c, At(later.latest, c));
    assert Reaches(n, id, c, At(n.latest, c));
  }

  /** A join of compatible well-formed states is well-formed. */
  lemma JoinWellFormed(a: BundleState, b: BundleState, n: BundleState)
    requires WellFormed(a) && WellFormed(b) && Compatible(a, b) && IsJoin(a, b, n)
    ensures WellFormed(n)
  {
    forall id | id in n.bundles ensures Noted(n, n.bundles[id]) { JoinNoted(a, b, n, id); }
    forall tx | tx in n.committed ensures exists id :: Backs(n, id, tx) { JoinBacks(a, b, n, tx); }
    forall c | At(n.latest, c) > 0 ensures exists id :: Reaches(n, id, c, At(n.latest, c)) { JoinReaches(a, b, n, c); }
  }

  /** What is compatible with both parts is compatible with their join. */
  lemma JoinCompatible(a: BundleState, b: BundleState, c: BundleState, n: BundleState)
    requires Compatible(a, b) && Compatible(a, c) && Compatible(b, c) && IsJoin(a, b, n)
    ensures Compatible(n, c) && Compatible(c, n)
  {
  }

  /** The same bundles, committed ids and latest sequences. */
  ghost predicate Same(a: BundleState, b: BundleState)
  {
    a.bundles == b.bundles && a.committed == b.committed && forall c :: At(a.latest, c) == At(b.latest, c)
  }

  lemma MergeCommutes<K, V>(a: map<K, V>, b: map<K, V>)
    requires Agree(a, b)
    ensures a + b == b + a
  {
  }

  lemma MergeAssociates<K, V>(a: map<K, V>, b: map<K, V>, c: map<K, V>)
    ensures a + b + c == a + (b + c)
  {
  }

  lemma Commutative(a: BundleState, b: BundleState, ab: BundleState, ba: BundleState)
    requires Compatible(a, b) && IsJoin(a, b, ab) && IsJoin(b, a, ba)
    ensures Same(ab, ba)
  {
    MergeCommutes(a.bundles, b.bundles);
    MergeCommutes(a.committed, b.committed);
  }

  lemma Associative(a: BundleState, b: BundleState, c: BundleState, ab: BundleState, bc: BundleState, left: BundleState, right: BundleState)
    requires IsJoin(a, b, ab) && IsJoin(ab, c, left) && IsJoin(b, c, bc) && IsJoin(a, bc, right)
    ensures Same(left, right)
  {
    MergeAssociates(a.bundles, b.bundles, c.bundles);
    MergeAssociates(a.committed, b.committed, c.committed);
  }

  lemma Idempotent(a: BundleState, n: BundleState)
    requires IsJoin(a, a, n)
    ensures Same(a, n)
  {
    assert a.bundles + a.bundles == a.bundles && a.committed + a.committed == a.committed;
  }

  /** After the join there is nothing left to do, in either direction. */
  lemma Settled(a: BundleState, b: BundleState, n: BundleState, plan: Plan)
    requires Compatible(a, b) && IsJoin(a, b, n) && (IsPlan(n, b, plan) || IsPlan(n, a, plan))
    ensures plan.noop
  {
    NoneListed(plan.missing);
    NoneListed(plan.conflicting);
  }

  lemma NoneListed(ids: seq<string>)
    ensures ids == [] <==> forall id :: id !in ids
  {
    if ids != [] { assert ids[0] in ids; }
  }

  /** The bundle is new to the local state. */
  predicate New(local: BundleState, remote: BundleState, id: string)
  {
    id in remote.bundles && id !in local.bundles
  }

  /** Of a new bundle the remote custody status is taken over, and it is no longer pending; otherwise status
      and pending ids stay. */
  ghost predicate Renewed(local: BundleState, remote: BundleState, next: BundleState)
  {
    && (forall id :: id in next.custody <==> id in local.custody || (New(local, remote, id) && id in remote.custody))
    && (forall id :: id in next.custody ==>
         next.custody[id] == if New(local, remote, id) && id in remote.custody then remote.custody[id] else local.custody[id])
    && Sorted(next.pending)
    && forall id :: multiset(next.pending)[id] == if New(local, remote, id) then 0 else multiset(local.pending)[id]
  }

  /** The local records stay, the others are the remote ones. */
  lemma TakenOver(local: BundleState, remote: BundleState, ids: seq<string>)
    requires Listing(local, remote, Missing, ids)
    ensures LearnAll(local, remote, ids).bundles == remote.bundles + local.bundles
  {
    var bundles := LearnAll(local, remote, ids).bundles;
    forall id ensures id in bundles <==> id in remote.bundles + local.bundles { LearnedBundles(local, remote, ids, id); }
    forall id | id in bundles ensures bundles[id] == (remote.bundles + local.bundles)[id] { LearnedBundles(local, remote, ids, id); }
  }

  lemma AppliedRenews(local: BundleState, remote: BundleState, ids: seq<string>, next: BundleState)
    requires Listing(local, remote, Missing, ids) && next.custody == LearnAll(local, remote, ids).custody
    requires Sorted(next.pending) && multiset(next.pending) == multiset(Keep(local.pending, ids))
    ensures Renewed(local, remote, next)
  {
    forall id ensures id in ids <==> New(local, remote, id) { }
    forall id ensures id in next.custody <==> id in local.custody || (New(local, remote, id) && id in remote.custody)
    { LearnedCustody(local, remote, ids, id); }
    forall id | id in next.custody
      ensures next.custody[id] == if New(local, remote, id) && id in remote.custody then remote.custody[id] else local.custody[id]
    { LearnedCustody(local, remote, ids, id); }
    forall id ensures multiset(next.pending)[id] == if New(local, remote, id) then 0 else multiset(local.pending)[id]
    { KeepMeaning(local.pending, ids, id); }
  }

  /** Comparing and applying succeeds exactly if no bundle is known under two digests, and on compatible
      well-formed states it is the join. */
  method Reconciled(local: BundleState, remote: BundleState) returns (next: BundleState, ok: bool)
    ensures ok <==> forall id :: id in local.bundles && id in remote.bundles ==> local.bundles[id].digest == remote.bundles[id].digest
    ensures !ok ==> next == local
    ensures ok ==> Renewed(local, remote, next)
    ensures ok ==> next.bundles == remote.bundles + local.bundles
    ensures ok && (forall id :: !New(local, remote, id)) ==> next.context == local.context
    ensures ok && (exists id :: New(local, remote, id)) ==>
      next.context == OfParts(next.latest, next.committed, next.custody, next.pending, next.bundles)
    ensures WellFormed(local) && WellFormed(remote) && Compatible(local, remote) ==> ok && IsJoin(local, remote, next) && WellFormed(next)
  {
    var plan := Compare(local, remote);
    ConflictFree(local, remote, plan);
    next, ok := Apply(local, remote, plan);
    if ok {
      AppliedRenews(local, remote, plan.missing, next);
      TakenOver(local, remote, plan.missing);
    }
    NoneListed(plan.missing);
    assert forall id :: id in plan.missing <==> New(local, remote, id);
    if WellFormed(local) && WellFormed(remote) && Compatible(local, remote) {
      JoinMeaning(local, remote, plan.missing);
      JoinWellFormed(local, remote, next);
    }
  }

  lemma ConflictFree(local: BundleState, remote: BundleState, plan: Plan)
    requires IsPlan(local, remote, plan)
    ensures plan.conflicting == [] <==>
      forall id :: id in local.bundles && id in remote.bundles ==> local.bundles[id].digest == remote.bundles[id].digest
  {
    NoneListed(plan.conflicting);
  }
}
