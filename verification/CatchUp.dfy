/** Catching up from peers: a candidate chain is validated as a whole, the longest valid one is
    applied commit by commit (consensus/validator/node.go). */
module CatchUp {
  import opened Messages
  import opened StateMachine
  import opened Protocol
  import opened Node
  import opened Chain
  import Safety

  /** The end of a chain: its last hash and the machine that replaying it gives. */
  datatype Tip = Tip(hash: Digest, machine: MachineState)

  function TipOf(s: NodeState): Tip { Tip(s.lastHash, s.machine) }

  /** The checks on one commit beyond the local log: the next tip, or the complaint. */
  function StepVerdict(com: Committee, t: Tip, height: nat, c: Commit): Result<Tip>
  {
    if c.block.height != height then Err(HeightMismatch)
    else if c.block.previousHash != t.hash then Err(PreviousHashMismatch)
    else if VerifyCommit(com, c).Fail? then Err(VerifyCommit(com, c).reason)
    else match Transition(t.machine, c.block.transactions)
    case Err(e) => Err(e)
    case Ok(next) => if c.block.stateDigest != next.digest then Err(StateDigestMismatch) else Ok(Tip(c.block.Hash(), next))
  }

  /** The checks on the part of a candidate beyond the local log, from a tip at a height. */
  function Extend(com: Committee, from: Tip, height: nat, rest: seq<Commit>): Result<Tip>
    decreases |rest|
  {
    if rest == [] then Ok(from) else
    match Extend(com, from, height, rest[..|rest| - 1])
    case Err(e) => Err(e)
    case Ok(t) => StepVerdict(com, t, height + |rest|, rest[|rest| - 1])
  }

  predicate SameStart(local: seq<Commit>, candidate: seq<Commit>)
    requires |local| <= |candidate|
  {
    forall k :: 0 <= k < |local| ==> local[k].block == candidate[k].block
  }

  function ToOutcome<T>(r: Result<T>): Outcome
  {
    match r
    case Ok(_) => Pass
    case Err(e) => Fail(e)
  }

  function CandidateVerdict(com: Committee, s: NodeState, candidate: seq<Commit>): Outcome
  {
    if |candidate| < |s.commits| then Fail(CandidateBehind)
    else if !SameStart(s.commits, candidate) then Fail(CandidateDiverges)
    else ToOutcome(Extend(com, TipOf(s), |s.commits|, candidate[|s.commits|..]))
  }

  /** Applying commits one after another, up to the first one that is refused. */
  function ApplyAll(cfg: Config, s: NodeState, rest: seq<Commit>): (NodeState, Outcome)
    decreases |rest|
  {
    if rest == [] then (s, Pass) else
    var (s', r) := ApplyAll(cfg, s, rest[..|rest| - 1]);
    if r.Fail? then (s', r) else Accept(cfg, s', rest[|rest| - 1])
  }

  method ValidateCandidate(v: Validator, candidate: seq<Commit>) returns (r: Outcome)
    requires v.Valid()
    ensures r == CandidateVerdict(v.cfg.com, v.View(), candidate)
  {
    if |candidate| < |v.commits| { return Fail(CandidateBehind); }
    var same := StartsAs(v.commits, candidate);
    if !same { return Fail(CandidateDiverges); }
    var machine := v.machine.Clone();
    r := CheckSteps(v.cfg.com, v.lastHash, machine, |v.commits|, candidate[|v.commits|..]);
  }

  method StartsAs(local: seq<Commit>, candidate: seq<Commit>) returns (same: bool)
    requires |local| <= |candidate|
    ensures same == SameStart(local, candidate)
  {
    for k := 0 to |local|
      invariant forall i :: 0 <= i < k ==> local[i].block == candidate[i].block
    {
      if local[k].block.Hash() != candidate[k].block.Hash() { return false; }
    }
    same := true;
  }

  /** Checks the commits beyond a height one after the other, moving a working copy of the machine on. */
  method CheckSteps(com: Committee, hash: Digest, machine: Machine, height: nat, rest: seq<Commit>) returns (r: Outcome)
    modifies machine
    ensures r == ToOutcome(Extend(com, Tip(hash, old(machine.View())), height, rest))
  {
    var previous := hash;
    ghost var from := Tip(hash, machine.View());
    for n := 0 to |rest|
      invariant Extend(com, from, height, rest[..n]) == Ok(Tip(previous, machine.View()))
    {
      ghost var t := Tip(previous, machine.View());
      r := CheckStep(com, previous, machine, height + n + 1, rest[n]);
      ExtendNext(com, from, height, rest, n, t);
      if r.Fail? { return; }
      previous := rest[n].block.Hash();
    }
    assert rest[..|rest|] == rest;
    r := Pass;
  }

  /** One turn of the loop; a complaint is the verdict on the whole. */
  lemma ExtendNext(com: Committee, from: Tip, height: nat, rest: seq<Commit>, n: nat, t: Tip)
    requires n < |rest| && Extend(com, from, height, rest[..n]) == Ok(t)
    ensures Extend(com, from, height, rest[..n + 1]) == StepVerdict(com, t, height + n + 1, rest[n])
    ensures StepVerdict(com, t, height + n + 1, rest[n]).Err? ==>
      Extend(com, from, height, rest) == StepVerdict(com, t, height + n + 1, rest[n])
  {
    assert rest[..n + 1][..n] == rest[..n];
    ExtendStops(com, from, height, rest, n + 1);
  }

  lemma {:induction false} ExtendStops(com: Committee, from: Tip, height: nat, rest: seq<Commit>, n: nat)
    requires n <= |rest|
    ensures Extend(com, from, height, rest[..n]).Err? ==> Extend(com, from, height, rest) == Extend(com, from, height, rest[..n])
    decreases |rest|
  {
    if n == |rest| {
      assert rest[..n] == rest;
    } else {
      assert rest[..|rest| - 1][..n] == rest[..n];
      ExtendStops(com, from, height, rest[..|rest| - 1], n);
    }
  }

  /** Checks one commit and moves the machine on. */
  method CheckStep(com: Committee, previous: Digest, machine: Machine, height: nat, c: Commit) returns (r: Outcome)
    modifies machine
    ensures var step := StepVerdict(com, Tip(previous, old(machine.View())), height, c);
      && r == ToOutcome(step) && (step.Ok? ==> step.value == Tip(c.block.Hash(), machine.View()))
  {
    if c.block.height != height { return Fail(HeightMismatch); }
    if c.block.previousHash != previous { return Fail(PreviousHashMismatch); }
    var verified := VerifyCommit(com, c);
    if verified.Fail? { return verified; }
    var applied := machine.Apply(c.block.transactions);
    if applied.Err? { return Fail(applied.reason); }
    if c.block.stateDigest != applied.value.0 { return Fail(StateDigestMismatch); }
    r := Pass;
  }

  /** The local round does not stand in the way of the first new block. */
  predicate RoundAdmits(s: NodeState, rest: seq<Commit>)
  {
    rest == [] || Admits(s, rest[0])
  }

  predicate Admits(s: NodeState, c: Commit)
  {
    RoundAt(s.currentRound, |s.commits| + 1) <= c.block.round
  }

  predicate CleanStore(s: NodeState)
  {
    forall h :: h in s.store.commits ==> h <= |s.commits|
  }

  /** One commit of a validated extension is accepted exactly when the local round admits it; the next
      height starts in round 0. */
  lemma StepAccepted(cfg: Config, s: NodeState, c: Commit, t: Tip)
    requires CleanStore(s) && StepVerdict(cfg.com, TipOf(s), |s.commits| + 1, c) == Ok(t)
    ensures !Admits(s, c) ==> Accept(cfg, s, c) == (s, Fail(StaleRound))
    ensures Admits(s, c) ==> Accept(cfg, s, c).1 == Pass && After(s, c, t, Accept(cfg, s, c).0)
  {
  }

  /** What a commit that is accepted makes of a validator. */
  predicate After(s: NodeState, c: Commit, t: Tip, s': NodeState)
  {
    s'.commits == s.commits + [c] && TipOf(s') == t && CleanStore(s') && RoundAt(s'.currentRound, |s'.commits| + 1) == 0
  }

  /** What the commits of an extension make of a validator. */
  predicate Applied(s: NodeState, rest: seq<Commit>, t: Tip, s': NodeState)
  {
    && s'.commits == s.commits + rest && TipOf(s') == t && CleanStore(s')
    && (rest != [] ==> RoundAt(s'.currentRound, |s'.commits| + 1) == 0)
  }

  lemma ExtendSnoc(com: Committee, from: Tip, height: nat, rest: seq<Commit>)
    requires rest != [] && Extend(com, from, height, rest).Ok?
    ensures var before := Extend(com, from, height, rest[..|rest| - 1]);
      before.Ok? && StepVerdict(com, before.value, height + |rest|, rest[|rest| - 1]) == Extend(com, from, height, rest)
  {
  }

  lemma ApplySnoc(cfg: Config, s: NodeState, rest: seq<Commit>, s1: NodeState)
    requires rest != [] && ApplyAll(cfg, s, rest[..|rest| - 1]) == (s1, Pass)
    ensures ApplyAll(cfg, s, rest) == Accept(cfg, s1, rest[|rest| - 1])
  {
  }

  lemma AppliedMore(cfg: Config, s: NodeState, rest: seq<Commit>, s1: NodeState, t1: Tip, t: Tip) returns (s': NodeState)
    requires rest != [] && Applied(s, rest[..|rest| - 1], t1, s1) && RoundAdmits(s, rest) && (|rest| == 1 ==> s1 == s)
    requires StepVerdict(cfg.com, t1, |s.commits| + |rest|, rest[|rest| - 1]) == Ok(t)
    ensures Accept(cfg, s1, rest[|rest| - 1]) == (s', Pass) && Applied(s, rest, t, s')
  {
    s' := Accept(cfg, s1, rest[|rest| - 1]).0;
    StepAccepted(cfg, s1, rest[|rest| - 1], t);
    Regroup(s.commits, rest);
  }

  /** A validated extension that the local round admits is applied to its end. */
  lemma {:induction false} ExtensionApplies(cfg: Config, s: NodeState, rest: seq<Commit>) returns (s': NodeState)
    requires CleanStore(s) && Extend(cfg.com, TipOf(s), |s.commits|, rest).Ok? && RoundAdmits(s, rest)
    ensures ApplyAll(cfg, s, rest) == (s', Pass) && Applied(s, rest, Extend(cfg.com, TipOf(s), |s.commits|, rest).value, s')
    ensures rest == [] ==> s' == s
    decreases |rest|
  {
    s' := s;
    if rest == [] {
      assert s.commits + rest == s.commits;
    } else {
      var from, height := TipOf(s), |s.commits|;
      ExtendSnoc(cfg.com, from, height, rest);
      var s1 := ExtensionApplies(cfg, s, rest[..|rest| - 1]);
      ApplySnoc(cfg, s, rest, s1);
      s' := AppliedMore(cfg, s, rest, s1, Extend(cfg.com, from, height, rest[..|rest| - 1]).value, Extend(cfg.com, from, height, rest).value);
    }
  }

  lemma Regroup<T>(a: seq<T>, b: seq<T>)
    requires b != []
    ensures a + b[..|b| - 1] + [b[|b| - 1]] == a + b
  {
  }

  lemma {:induction false} ExtensionRefused(cfg: Config, s: NodeState, rest: seq<Commit>)
    requires CleanStore(s) && Extend(cfg.com, TipOf(s), |s.commits|, rest).Ok? && !RoundAdmits(s, rest)
    ensures ApplyAll(cfg, s, rest) == (s, Fail(StaleRound))
    decreases |rest|
  {
    var before := rest[..|rest| - 1];
    if before == [] {
      StepAccepted(cfg, s, rest[0], Extend(cfg.com, TipOf(s), |s.commits|, rest).value);
    } else {
      ExtensionRefused(cfg, s, before);
    }
  }

  lemma {:induction false} ApplyAllKeepsChain(cfg: Config, s: NodeState, rest: seq<Commit>)
    requires ChainInv(cfg.com, s) && StoreInv(cfg, s)
    ensures ChainInv(cfg.com, ApplyAll(cfg, s, rest).0) && StoreInv(cfg, ApplyAll(cfg, s, rest).0)
    decreases |rest|
  {
    if rest != [] {
      ApplyAllKeepsChain(cfg, s, rest[..|rest| - 1]);
      AcceptKeepsChain(cfg, ApplyAll(cfg, s, rest[..|rest| - 1]).0, rest[|rest| - 1]);
    }
  }

  /** Catch-up is sound: once a candidate is validated, applying its new commits succeeds at every
      height exactly when the local round for the next height is not above the round of the first new
      block, and it ends at the candidate's last hash with the machine that replaying the candidate
      from genesis gives. */
  lemma CatchUpSound(cfg: Config, s: NodeState, candidate: seq<Commit>)
    requires ChainInv(cfg.com, s) && StoreInv(cfg, s) && CandidateVerdict(cfg.com, s, candidate) == Pass
    ensures var rest := candidate[|s.commits|..];
      var (s', r) := ApplyAll(cfg, s, rest);
      && (r == Pass <==> RoundAdmits(s, rest))
      && (r == Pass ==>
           && |s'.commits| == |candidate|
           && (forall k :: 0 <= k < |candidate| ==> s'.commits[k].block == candidate[k].block)
           && s'.lastHash == TipHash(candidate)
           && MachineAfter(candidate) == Ok(s'.machine))
  {
    var rest := candidate[|s.commits|..];
    assert CleanStore(s) by { LinkedNumbered(cfg.com, s.commits); RecordHeights(cfg, s.commits); }
    ApplyAllKeepsChain(cfg, s, rest);
    if RoundAdmits(s, rest) {
      var s' := ExtensionApplies(cfg, s, rest);
      EndsAt(cfg, s, ApplyAll(cfg, s, rest).0, candidate);
    } else {
      ExtensionRefused(cfg, s, rest);
    }
  }

  lemma EndsAt(cfg: Config, s: NodeState, s': NodeState, candidate: seq<Commit>)
    requires |s.commits| <= |candidate| && SameStart(s.commits, candidate)
    requires s'.commits == s.commits + candidate[|s.commits|..] && ChainInv(cfg.com, s')
    ensures forall k :: 0 <= k < |candidate| ==> s'.commits[k].block == candidate[k].block
    ensures s'.lastHash == TipHash(candidate) && MachineAfter(candidate) == Ok(s'.machine)
  {
    forall k | 0 <= k < |candidate| ensures s'.commits[k].block == candidate[k].block {
      if k < |s.commits| { assert s.commits[k].block == candidate[k].block; }
    }
    SameBlocks(s'.commits, candidate);
  }

  // ---- Which candidates are valid ------------------------------------------------------------

  lemma StepMeaning(com: Committee, commits: seq<Commit>, t: Tip, c: Commit)
    requires Linked(com, commits) && t.hash == TipHash(commits) && MachineAfter(commits) == Ok(t.machine)
    ensures StepVerdict(com, t, |commits| + 1, c).Ok? <==> Linked(com, commits + [c])
    ensures StepVerdict(com, t, |commits| + 1, c).Ok? ==> var t' := StepVerdict(com, t, |commits| + 1, c).value;
      t'.hash == TipHash(commits + [c]) && MachineAfter(commits + [c]) == Ok(t'.machine)
  {
    InputsSnoc(commits, c);
    if StepVerdict(com, t, |commits| + 1, c).Ok? {
      LinkedSnoc(com, commits, c);
    } else if Linked(com, commits + [c]) {
      LinkedLast(com, commits, c);
    }
  }

  /** The checks on an extension pass exactly if it goes on with the chain, and end at its tip. */
  lemma {:induction false} ExtendMeaning(com: Committee, s: NodeState, rest: seq<Commit>)
    requires ChainInv(com, s)
    ensures Extend(com, TipOf(s), |s.commits|, rest).Ok? <==> Linked(com, s.commits + rest)
    ensures Extend(com, TipOf(s), |s.commits|, rest).Ok? ==> var t := Extend(com, TipOf(s), |s.commits|, rest).value;
      t.hash == TipHash(s.commits + rest) && MachineAfter(s.commits + rest) == Ok(t.machine)
    decreases |rest|
  {
    if rest == [] {
      assert s.commits + rest == s.commits;
    } else {
      var init, c := rest[..|rest| - 1], rest[|rest| - 1];
      ExtendMeaning(com, s, init);
      Regroup(s.commits, rest);
      ExtendTip(com, s, rest);
    }
  }

  lemma ExtendTip(com: Committee, s: NodeState, rest: seq<Commit>)
    requires rest != []
    requires var init := s.commits + rest[..|rest| - 1];
      var before := Extend(com, TipOf(s), |s.commits|, rest[..|rest| - 1]);
      && (before.Ok? <==> Linked(com, init))
      && (before.Ok? ==> before.value.hash == TipHash(init) && MachineAfter(init) == Ok(before.value.machine))
    ensures var all := s.commits + rest[..|rest| - 1] + [rest[|rest| - 1]];
      var after := Extend(com, TipOf(s), |s.commits|, rest);
      && (after.Ok? <==> Linked(com, all))
      && (after.Ok? ==> after.value.hash == TipHash(all) && MachineAfter(all) == Ok(after.value.machine))
  {
    var init := s.commits + rest[..|rest| - 1];
    var before := Extend(com, TipOf(s), |s.commits|, rest[..|rest| - 1]);
    if before.Ok? {
      StepMeaning(com, init, before.value, rest[|rest| - 1]);
    } else {
      assert Init(init + [rest[|rest| - 1]]) == init;
    }
  }

  /** A candidate passes if and only if it is not shorter than the local log, has the same blocks as far as
      that goes, and goes on as a chain. */
  lemma CandidateMeaning(com: Committee, s: NodeState, candidate: seq<Commit>)
    requires ChainInv(com, s)
    ensures CandidateVerdict(com, s, candidate) == Pass <==>
      && |s.commits| <= |candidate| && (forall k :: 0 <= k < |s.commits| ==> s.commits[k].block == candidate[k].block)
      && Linked(com, s.commits + candidate[|s.commits|..])
    ensures |candidate| < |s.commits| ==> CandidateVerdict(com, s, candidate) == Fail(CandidateBehind)
    ensures |candidate| >= |s.commits| && !SameStart(s.commits, candidate) ==> CandidateVerdict(com, s, candidate) == Fail(CandidateDiverges)
  {
    if |s.commits| <= |candidate| { ExtendMeaning(com, s, candidate[|s.commits|..]); }
  }

  /** A chain can go on as another one does that has the same blocks so far. */
  lemma {:induction false} Spliced(com: Committee, a: seq<Commit>, b: seq<Commit>, rest: seq<Commit>)
    requires Linked(com, a) && Linked(com, b + rest) && |a| == |b| && SameStart(a, b)
    ensures Linked(com, a + rest)
    decreases |rest|
  {
    if rest == [] {
      assert a + rest == a;
    } else {
      LinkedShorter(com, b, rest);
      Spliced(com, a, b, rest[..|rest| - 1]);
      SplicedOn(com, a, b, rest);
    }
  }

  lemma LinkedShorter(com: Committee, b: seq<Commit>, rest: seq<Commit>)
    requires rest != [] && Linked(com, b + rest)
    ensures Linked(com, b + rest[..|rest| - 1])
  {
    Regroup(b, rest);
    LinkedLast(com, b + rest[..|rest| - 1], rest[|rest| - 1]);
  }

  lemma SplicedOn(com: Committee, a: seq<Commit>, b: seq<Commit>, rest: seq<Commit>)
    requires rest != [] && Linked(com, a + rest[..|rest| - 1]) && Linked(com, b + rest) && |a| == |b| && SameStart(a, b)
    ensures Linked(com, a + rest)
  {
    var init := rest[..|rest| - 1];
    Regroup(a, rest);
    Regroup(b, rest);
    SameAppended(a, b, init);
    SplicedMore(com, a + init, b + init, rest[|rest| - 1]);
  }

  lemma SameAppended(a: seq<Commit>, b: seq<Commit>, rest: seq<Commit>)
    requires |a| == |b| && SameStart(a, b)
    ensures SameStart(a + rest, b + rest)
  {
  }

  lemma SplicedMore(com: Committee, joined: seq<Commit>, init: seq<Commit>, c: Commit)
    requires Linked(com, joined) && Linked(com, init + [c]) && |joined| == |init| && SameStart(joined, init)
    ensures Linked(com, joined + [c])
  {
    LinkedLast(com, init, c);
    SameBlocks(joined, init);
    InputsSnoc(joined, c);
    InputsSnoc(init, c);
    LinkedSnoc(com, joined, c);
  }

  /** Under the conditions of agreement the log of an honest validator is a valid candidate for every honest
      validator that is not ahead of it. */
  lemma PeerAccepted(com: Committee, honest: set<string>, loyal: set<string>, steps: seq<Safety.Step>, i: string, j: string)
    requires loyal <= honest && loyal <= com.identities.Keys && Safety.QuorumBound(com, loyal) && i in honest && j in honest
    requires Safety.CarefulRun(com, honest, steps, Safety.Care(loyal, Safety.PRECOMMITS))
    ensures i in Safety.Run(com, honest, steps).nodes && j in Safety.Run(com, honest, steps).nodes
    ensures var g := Safety.Run(com, honest, steps);
      |g.nodes[i].commits| <= |g.nodes[j].commits| ==> CandidateVerdict(com, g.nodes[i], g.nodes[j].commits) == Pass
  {
    var g := Safety.Run(com, honest, steps);
    Safety.ReplicatedLog(com, honest, loyal, steps, i, j);
    Safety.ReplicatedLog(com, honest, loyal, steps, j, i);
    if |g.nodes[i].commits| <= |g.nodes[j].commits| { SameChainAccepted(com, g.nodes[i], g.nodes[j].commits); }
  }

  lemma SameChainAccepted(com: Committee, s: NodeState, b: seq<Commit>)
    requires ChainInv(com, s) && Linked(com, b) && |s.commits| <= |b| && SameStart(s.commits, b)
    ensures CandidateVerdict(com, s, b) == Pass
  {
    SplicedAt(com, s.commits, b);
    CandidateMeaning(com, s, b);
  }

  lemma SplicedAt(com: Committee, a: seq<Commit>, b: seq<Commit>)
    requires Linked(com, a) && Linked(com, b) && |a| <= |b| && SameStart(a, b)
    ensures Linked(com, a + b[|a|..])
  {
    Prefixed(a, b);
    LinkedSame(com, b, b[..|a|] + b[|a|..]);
    Spliced(com, a, b[..|a|], b[|a|..]);
  }

  lemma Prefixed(a: seq<Commit>, b: seq<Commit>)
    requires |a| <= |b| && SameStart(a, b)
    ensures SameStart(a, b[..|a|]) && b == b[..|a|] + b[|a|..]
  {
  }

  lemma LinkedSame(com: Committee, a: seq<Commit>, b: seq<Commit>)
    requires Linked(com, a) && a == b
    ensures Linked(com, b)
  {
  }

  // ---- Choosing among peers ------------------------------------------------------------------

  /** The chain to adopt after hearing from the peers in turn: the first longest valid one. */
  function Best(com: Committee, s: NodeState, fetched: seq<Option<seq<Commit>>>): seq<Commit>
    decreases |fetched|
  {
    if fetched == [] then s.commits else
    var best, reply := Best(com, s, fetched[..|fetched| - 1]), fetched[|fetched| - 1];
    if reply.Some? && |reply.value| > |best| && CandidateVerdict(com, s, reply.value) == Pass then reply.value else best
  }

  lemma OwnCandidate(com: Committee, s: NodeState)
    ensures CandidateVerdict(com, s, s.commits) == Pass
  {
    assert s.commits[|s.commits|..] == [];
  }

  lemma BestStep(com: Committee, s: NodeState, fetched: seq<Option<seq<Commit>>>)
    requires fetched != []
    ensures var best, before, reply := Best(com, s, fetched), Best(com, s, fetched[..|fetched| - 1]), fetched[|fetched| - 1];
      && |before| <= |best|
      && (best == before || CandidateVerdict(com, s, best) == Pass)
      && (reply.Some? && CandidateVerdict(com, s, reply.value) == Pass ==> |reply.value| <= |best|)
  {
  }

  lemma {:induction false} BestIsValid(com: Committee, s: NodeState, fetched: seq<Option<seq<Commit>>>)
    ensures CandidateVerdict(com, s, Best(com, s, fetched)) == Pass && |Best(com, s, fetched)| >= |s.commits|
    decreases |fetched|
  {
    if fetched == [] {
      OwnCandidate(com, s);
    } else {
      BestIsValid(com, s, fetched[..|fetched| - 1]);
      BestStep(com, s, fetched);
    }
  }

  lemma {:induction false} BestIsLonger(com: Committee, s: NodeState, fetched: seq<Option<seq<Commit>>>, i: nat)
    requires i < |fetched| && fetched[i].Some? && CandidateVerdict(com, s, fetched[i].value) == Pass
    ensures |fetched[i].value| <= |Best(com, s, fetched)|
    decreases |fetched|
  {
    BestStep(com, s, fetched);
    if i < |fetched| - 1 { BestIsLonger(com, s, fetched[..|fetched| - 1], i); }
  }

  /** The chosen chain is valid, and no valid chain that a peer offered is longer. */
  lemma BestIsLongest(com: Committee, s: NodeState, fetched: seq<Option<seq<Commit>>>)
    ensures CandidateVerdict(com, s, Best(com, s, fetched)) == Pass && |Best(com, s, fetched)| >= |s.commits|
    ensures forall i :: 0 <= i < |fetched| && fetched[i].Some? && CandidateVerdict(com, s, fetched[i].value) == Pass ==>
      |fetched[i].value| <= |Best(com, s, fetched)|
  {
    BestIsValid(com, s, fetched);
    forall i | 0 <= i < |fetched| && fetched[i].Some? && CandidateVerdict(com, s, fetched[i].value) == Pass
      ensures |fetched[i].value| <= |Best(com, s, fetched)|
    {
      BestIsLonger(com, s, fetched, i);
    }
  }

  /** The i-th offer is valid, and every valid one before it is shorter. */
  predicate IsFirst(com: Committee, s: NodeState, fetched: seq<Option<seq<Commit>>>, i: nat)
    requires i < |fetched|
  {
    && fetched[i].Some? && CandidateVerdict(com, s, fetched[i].value) == Pass
    && forall j :: 0 <= j < i && fetched[j].Some? && CandidateVerdict(com, s, fetched[j].value) == Pass ==> |fetched[j].value| < |fetched[i].value|
  }

  /** Of several longest valid chains the first one offered is chosen, and the own one if none is longer. */
  lemma {:induction false} BestIsFirst(com: Committee, s: NodeState, fetched: seq<Option<seq<Commit>>>)
    ensures Best(com, s, fetched) == s.commits || exists i :: 0 <= i < |fetched| && IsFirst(com, s, fetched, i) && fetched[i] == Some(Best(com, s, fetched))
    ensures |Best(com, s, fetched)| == |s.commits| ==> Best(com, s, fetched) == s.commits
    decreases |fetched|
  {
    if fetched != [] {
      var n := |fetched| - 1;
      var before := fetched[..n];
      BestIsFirst(com, s, before);
      BestIsLongest(com, s, before);
      if Best(com, s, fetched) != Best(com, s, before) {
        assert forall j :: 0 <= j < n ==> before[j] == fetched[j];
        assert IsFirst(com, s, fetched, n);
      } else if Best(com, s, before) != s.commits {
        var i :| 0 <= i < n && IsFirst(com, s, before, i) && before[i] == Some(Best(com, s, before));
        assert forall j :: 0 <= j < n ==> before[j] == fetched[j];
        assert IsFirst(com, s, fetched, i);
      }
    }
  }

  method CatchUpFromPeers(v: Validator, fetched: seq<Option<seq<Commit>>>) returns (r: Outcome)
    requires v.Valid()
    modifies v, v.store
    ensures v.Valid()
    ensures var s := old(v.View());
      var best := Best(v.cfg.com, s, fetched);
      |s.commits| <= |best| && (v.View(), r) == ApplyAll(v.cfg, s, best[|s.commits|..])
  {
    ghost var s := v.View();
    var best := v.commits;
    for n := 0 to |fetched|
      invariant best == Best(v.cfg.com, s, fetched[..n]) && |best| >= |v.commits|
      invariant v.Valid() && v.View() == s
    {
      assert fetched[..n + 1][..n] == fetched[..n];
      var reply := fetched[n];
      if reply.Some? && |reply.value| > |best| {
        var verdict := ValidateCandidate(v, reply.value);
        if verdict == Pass { best := reply.value; }
      }
    }
    assert fetched[..|fetched|] == fetched;
    r := ApplyRest(v, best[|v.commits|..]);
  }

  method ApplyRest(v: Validator, rest: seq<Commit>) returns (r: Outcome)
    requires v.Valid()
    modifies v, v.store
    ensures v.Valid() && (v.View(), r) == ApplyAll(v.cfg, old(v.View()), rest)
  {
    ghost var s := v.View();
    for n := 0 to |rest|
      invariant v.Valid() && ApplyAll(v.cfg, s, rest[..n]) == (v.View(), Pass)
    {
      ApplyNext(v.cfg, s, rest, n);
      r := v.ApplyCommit(rest[n]);
      if r.Fail? { return; }
    }
    assert rest[..|rest|] == rest;
    r := Pass;
  }

  lemma ApplyNext(cfg: Config, s: NodeState, rest: seq<Commit>, n: nat)
    requires n < |rest| && ApplyAll(cfg, s, rest[..n]).1 == Pass
    ensures var next := Accept(cfg, ApplyAll(cfg, s, rest[..n]).0, rest[n]);
      && ApplyAll(cfg, s, rest[..n + 1]) == next
      && (next.1.Fail? ==> ApplyAll(cfg, s, rest) == next)
  {
    assert rest[..n + 1][..n] == rest[..n];
    ApplyStops(cfg, s, rest, n + 1);
  }

  lemma {:induction false} ApplyStops(cfg: Config, s: NodeState, rest: seq<Commit>, n: nat)
    requires n <= |rest|
    ensures ApplyAll(cfg, s, rest[..n]).1.Fail? ==> ApplyAll(cfg, s, rest) == ApplyAll(cfg, s, rest[..n])
    decreases |rest|
  {
    if n == |rest| {
      assert rest[..n] == rest;
    } else {
      assert rest[..|rest| - 1][..n] == rest[..n];
      ApplyStops(cfg, s, rest[..|rest| - 1], n);
    }
  }
}
