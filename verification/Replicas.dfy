/** Many replicas that reconcile in pairs (bundle/reconcile/reconcile.go): each one is the join of the
    initial states that have reached it. */
module Replicas {
  import opened Reconcile

  /** Replica `at` reconciles with what replica `from` has. */
  datatype Meeting = Meeting(at: nat, from: nat)

  /** Whose initial states have reached each of `n` replicas. */
  function Reached(meetings: seq<Meeting>, n: nat): (reached: seq<set<nat>>)
    requires forall i :: 0 <= i < |meetings| ==> meetings[i].at < n && meetings[i].from < n
    ensures |reached| == n && forall i :: 0 <= i < n ==> Within(reached[i], n)
    decreases |meetings|
  {
    if meetings == [] then seq(n, i => {i}) else
    var before, m := Reached(meetings[..|meetings| - 1], n), meetings[|meetings| - 1];
    before[m.at := before[m.at] + before[m.from]]
  }

  predicate Within(who: set<nat>, n: nat)
  {
    forall i :: i in who ==> i < n
  }

  ghost predicate Sub<K, V>(a: map<K, V>, b: map<K, V>)
  {
    forall k :: k in a ==> k in b && b[k] == a[k]
  }

  /** Everything that `s` knows is in `n`. */
  ghost predicate Under(s: BundleState, n: BundleState)
  {
    Sub(s.bundles, n.bundles) && Sub(s.committed, n.committed) && forall c :: At(s.latest, c) <= At(n.latest, c)
  }

  predicate Bundle(inits: seq<BundleState>, i: nat, id: string) { i < |inits| && id in inits[i].bundles }
  predicate Tx(inits: seq<BundleState>, i: nat, tx: string) { i < |inits| && tx in inits[i].committed }
  predicate Latest(inits: seq<BundleState>, i: nat, c: string, n: nat) { i < |inits| && At(inits[i].latest, c) == n }

  ghost predicate Above(inits: seq<BundleState>, who: set<nat>, n: BundleState)
  {
    forall i :: i in who ==> i < |inits| && Under(inits[i], n)
  }

  ghost predicate BundlesFrom(inits: seq<BundleState>, who: set<nat>, n: BundleState)
  {
    forall id :: id in n.bundles ==> exists i :: i in who && Bundle(inits, i, id)
  }

  ghost predicate TxsFrom(inits: seq<BundleState>, who: set<nat>, n: BundleState)
  {
    forall tx :: tx in n.committed ==> exists i :: i in who && Tx(inits, i, tx)
  }

  ghost predicate LatestFrom(inits: seq<BundleState>, who: set<nat>, n: BundleState)
  {
    forall c :: At(n.latest, c) > 0 ==> exists i :: i in who && Latest(inits, i, c, At(n.latest, c))
  }

  /** The least state that knows what the given ones know. */
  ghost predicate IsJoinOf(inits: seq<BundleState>, who: set<nat>, n: BundleState)
  {
    Above(inits, who, n) && BundlesFrom(inits, who, n) && TxsFrom(inits, who, n) && LatestFrom(inits, who, n)
  }

  ghost predicate Initial(inits: seq<BundleState>)
  {
    && (forall i :: 0 <= i < |inits| ==> WellFormed(inits[i]))
    && forall i, j :: 0 <= i < |inits| && 0 <= j < |inits| ==> Compatible(inits[i], inits[j])
  }

  lemma OwnJoin(inits: seq<BundleState>, i: nat)
    requires i < |inits|
    ensures IsJoinOf(inits, {i}, inits[i])
  {
    assert forall id :: id in inits[i].bundles ==> Bundle(inits, i, id);
    assert forall tx :: tx in inits[i].committed ==> Tx(inits, i, tx);
    assert forall c :: Latest(inits, i, c, At(inits[i].latest, c));
  }

  // ---- Where an entry comes from -------------------------------------------------------------

  lemma BundleOrigin(inits: seq<BundleState>, who: set<nat>, n: BundleState, id: string) returns (i: nat)
    requires Above(inits, who, n) && BundlesFrom(inits, who, n) && id in n.bundles
    ensures i in who && i < |inits| && id in inits[i].bundles && n.bundles[id] == inits[i].bundles[id]
  {
    i :| i in who && Bundle(inits, i, id);
    assert Under(inits[i], n);
  }

  lemma TxOrigin(inits: seq<BundleState>, who: set<nat>, n: BundleState, tx: string) returns (i: nat)
    requires Above(inits, who, n) && TxsFrom(inits, who, n) && tx in n.committed
    ensures i in who && i < |inits| && tx in inits[i].committed && n.committed[tx] == inits[i].committed[tx]
  {
    i :| i in who && Tx(inits, i, tx);
    assert Under(inits[i], n);
  }

  lemma Agreeing(inits: seq<BundleState>, i: nat, j: nat)
    requires Initial(inits) && i < |inits| && j < |inits|
    ensures Agree(inits[i].bundles, inits[j].bundles) && Agree(inits[i].committed, inits[j].committed)
  {
    assert Compatible(inits[i], inits[j]);
  }

  /** Joins of compatible states are compatible. */
  lemma JoinsCompatible(inits: seq<BundleState>, p: set<nat>, q: set<nat>, a: BundleState, b: BundleState)
    requires Initial(inits) && IsJoinOf(inits, p, a) && IsJoinOf(inits, q, b)
    ensures Compatible(a, b)
  {
    forall id | id in a.bundles && id in b.bundles ensures a.bundles[id] == b.bundles[id] { SameBundle(inits, p, q, a, b, id); }
    forall tx | tx in a.committed && tx in b.committed ensures a.committed[tx] == b.committed[tx] { SameTx(inits, p, q, a, b, tx); }
  }

  lemma SameBundle(inits: seq<BundleState>, p: set<nat>, q: set<nat>, a: BundleState, b: BundleState, id: string)
    requires Initial(inits) && Above(inits, p, a) && Above(inits, q, b) && BundlesFrom(inits, p, a) && BundlesFrom(inits, q, b)
    requires id in a.bundles && id in b.bundles
    ensures a.bundles[id] == b.bundles[id]
  {
    var i := BundleOrigin(inits, p, a, id);
    var j := BundleOrigin(inits, q, b, id);
    Agreeing(inits, i, j);
  }

  lemma SameTx(inits: seq<BundleState>, p: set<nat>, q: set<nat>, a: BundleState, b: BundleState, tx: string)
    requires Initial(inits) && Above(inits, p, a) && Above(inits, q, b) && TxsFrom(inits, p, a) && TxsFrom(inits, q, b)
    requires tx in a.committed && tx in b.committed
    ensures a.committed[tx] == b.committed[tx]
  {
    var i := TxOrigin(inits, p, a, tx);
    var j := TxOrigin(inits, q, b, tx);
    Agreeing(inits, i, j);
  }

  // ---- The join of joins ---------------------------------------------------------------------

  lemma UnderJoin(s: BundleState, a: BundleState, b: BundleState, n: BundleState)
    requires IsJoin(a, b, n) && Compatible(a, b) && (Under(s, a) || Under(s, b))
    ensures Under(s, n)
  {
  }

  lemma BundlesOfBoth(inits: seq<BundleState>, p: set<nat>, q: set<nat>, a: BundleState, b: BundleState, n: BundleState)
    requires BundlesFrom(inits, p, a) && BundlesFrom(inits, q, b) && TxsFrom(inits, p, a) && TxsFrom(inits, q, b)
    requires n.bundles == a.bundles + b.bundles && n.committed == a.committed + b.committed
    ensures BundlesFrom(inits, p + q, n) && TxsFrom(inits, p + q, n)
  {
    forall id | id in n.bundles ensures exists i :: i in p + q && Bundle(inits, i, id) {
      var who := if id in b.bundles then q else p;
      var i :| i in who && Bundle(inits, i, id);
      assert i in p + q;
    }
    forall tx | tx in n.committed ensures exists i :: i in p + q && Tx(inits, i, tx) {
      var who := if tx in b.committed then q else p;
      var i :| i in who && Tx(inits, i, tx);
      assert i in p + q;
    }
  }

  lemma LatestOfBoth(inits: seq<BundleState>, p: set<nat>, q: set<nat>, a: BundleState, b: BundleState, n: BundleState, c: string)
    requires LatestFrom(inits, p, a) && LatestFrom(inits, q, b) && At(n.latest, c) == Max(At(a.latest, c), At(b.latest, c)) > 0
    ensures exists i :: i in p + q && Latest(inits, i, c, At(n.latest, c))
  {
    if At(a.latest, c) >= At(b.latest, c) {
      var i :| i in p && Latest(inits, i, c, At(a.latest, c));
      assert i in p + q;
    } else {
      var i :| i in q && Latest(inits, i, c, At(b.latest, c));
      assert i in p + q;
    }
  }

  /** The join of two joins is the join of both sets. */
  lemma JoinOfBoth(inits: seq<BundleState>, p: set<nat>, q: set<nat>, a: BundleState, b: BundleState, n: BundleState)
    requires IsJoinOf(inits, p, a) && IsJoinOf(inits, q, b) && Compatible(a, b) && IsJoin(a, b, n)
    ensures IsJoinOf(inits, p + q, n)
  {
    AboveBoth(inits, p, q, a, b, n);
    BundlesOfBoth(inits, p, q, a, b, n);
    forall c | At(n.latest, c) > 0 ensures exists i :: i in p + q && Latest(inits, i, c, At(n.latest, c)) {
      LatestOfBoth(inits, p, q, a, b, n, c);
    }
  }

  lemma AboveBoth(inits: seq<BundleState>, p: set<nat>, q: set<nat>, a: BundleState, b: BundleState, n: BundleState)
    requires Above(inits, p, a) && Above(inits, q, b) && Compatible(a, b) && IsJoin(a, b, n)
    ensures Above(inits, p + q, n)
  {
    forall i | i in p + q ensures i < |inits| && Under(inits[i], n) {
      assert i in p ==> Under(inits[i], a);
      UnderJoin(inits[i], a, b, n);
    }
  }

  // ---- Convergence ---------------------------------------------------------------------------

  /** Replicas that the same states have reached are the same. */
  lemma SameJoin(inits: seq<BundleState>, who: set<nat>, a: BundleState, b: BundleState)
    requires Initial(inits) && IsJoinOf(inits, who, a) && IsJoinOf(inits, who, b)
    ensures Same(a, b)
  {
    JoinsCompatible(inits, who, who, a, b);
    UpTo(inits, who, a, b);
    UpTo(inits, who, b, a);
    SameMaps(a.bundles, b.bundles);
    SameMaps(a.committed, b.committed);
  }

  lemma SameMaps<K, V>(a: map<K, V>, b: map<K, V>)
    requires Agree(a, b) && a.Keys <= b.Keys <= a.Keys
    ensures a == b
  {
    assert forall k :: k in a.Keys <==> k in b.Keys;
  }

  lemma UpTo(inits: seq<BundleState>, who: set<nat>, a: BundleState, b: BundleState)
    requires IsJoinOf(inits, who, a) && Above(inits, who, b)
    ensures a.bundles.Keys <= b.bundles.Keys && a.committed.Keys <= b.committed.Keys
    ensures forall c :: At(a.latest, c) <= At(b.latest, c)
  {
    forall id | id in a.bundles ensures id in b.bundles {
      var i :| i in who && Bundle(inits, i, id);
      assert Under(inits[i], b);
    }
    forall tx | tx in a.committed ensures tx in b.committed {
      var i :| i in who && Tx(inits, i, tx);
      assert Under(inits[i], b);
    }
    forall c ensures At(a.latest, c) <= At(b.latest, c) {
      if At(a.latest, c) > 0 {
        var i :| i in who && Latest(inits, i, c, At(a.latest, c));
        assert Under(inits[i], b);
      }
    }
  }

  /** One meeting: a replica that has the join of some initial states takes over that of others. */
  method Meet(ghost inits: seq<BundleState>, a: BundleState, b: BundleState, ghost p: set<nat>, ghost q: set<nat>) returns (next: BundleState)
    requires Initial(inits) && IsJoinOf(inits, p, a) && IsJoinOf(inits, q, b) && WellFormed(a) && WellFormed(b)
    ensures WellFormed(next) && IsJoinOf(inits, p + q, next)
  {
    JoinsCompatible(inits, p, q, a, b);
    var ok;
    next, ok := Reconciled(a, b);
    JoinOfBoth(inits, p, q, a, b, next);
  }

  /** Over any run of reconciliations in pairs of compatible well-formed states, every replica is the join of
      the initial states that have reached it, and stays well-formed. */
  method Gossip(inits: seq<BundleState>, meetings: seq<Meeting>) returns (replicas: seq<BundleState>)
    requires Initial(inits) && forall i :: 0 <= i < |meetings| ==> meetings[i].at < |inits| && meetings[i].from < |inits|
    ensures |replicas| == |inits|
    ensures forall i :: 0 <= i < |inits| ==> WellFormed(replicas[i]) && IsJoinOf(inits, Reached(meetings, |inits|)[i], replicas[i])
  {
    replicas := inits;
    forall i | 0 <= i < |inits| ensures IsJoinOf(inits, {i}, inits[i]) { OwnJoin(inits, i); }
    for n := 0 to |meetings|
      invariant |replicas| == |inits|
      invariant forall i :: 0 <= i < |inits| ==> WellFormed(replicas[i]) && IsJoinOf(inits, Reached(meetings[..n], |inits|)[i], replicas[i])
    {
      assert meetings[..n + 1][..n] == meetings[..n];
      var m := meetings[n];
      ghost var reached := Reached(meetings[..n], |inits|);
      var next := Meet(inits, replicas[m.at], replicas[m.from], reached[m.at], reached[m.from]);
      replicas := replicas[m.at := next];
    }
    assert meetings[..|meetings|] == meetings;
  }
}
