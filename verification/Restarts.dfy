/** What a restart in the middle of a height can break (consensus/validator/node.go): votes, and the lock
    of a height in progress, are only in memory. The bound under which agreement survives it is exact. */
module Restarts {
  import opened Messages
  import opened Protocol
  import opened Storage
  import opened Node
  import opened Chain
  import opened Progress
  import Safety
  import StateMachine
  import Recovery

  /** A committee that can certify something: all of one algorithm, with a schedule and a threshold within
      reach. */
  predicate Working(com: Committee)
  {
    com.validatorIds != [] && 0 < com.threshold <= |com.identities| && forall q :: q in com.identities ==> Member(com, q)
  }

  /** A block that every new validator accepts. */
  lemma FirstBlock(com: Committee, payload: string) returns (b: Block)
    requires com.validatorIds != []
    ensures b.height == 1 && b.payload == payload && ProposerFor(1, b.round, com.validatorIds) == Ok(b.proposerId)
    ensures b.membershipVersion == 0 && b.validatorSetHash == "" && !Blank(b.stateDigest)
    ensures b.transactions == StateMachine.TransactionsFromPayload(payload)
    ensures forall q :: Member(com, q) ==> Ready(Config(q, com), INITIAL, INITIAL, b, 0)
  {
    var p := ProposerFor(1, 0, com.validatorIds).value;
    PayloadApplies(StateMachine.GENESIS, payload);
    b := NewBlock(Config(p, com), INITIAL, 1, 0, payload, 0).value;
    forall q | Member(com, q) ensures Ready(Config(q, com), INITIAL, INITIAL, b, 0) { FreshReady(com, q, INITIAL, INITIAL, p, b); }
  }

  // ---- A quorum that votes -------------------------------------------------------------------

  predicate ReadyIn(com: Committee, g: Safety.Network, ids: set<string>, b: Block, phase: nat)
  {
    forall q :: q in ids && q in g.nodes ==> Ready(Config(q, com), INITIAL, g.nodes[q], b, phase)
  }

  /** The vote that a phase calls for can be cast. */
  predicate Castable(com: Committee, g: Safety.Network, b: Block, phase: nat, stage: Stage, qc: Option<Certificate>)
  {
    || (phase == 0 && stage == Prevote && qc == None)
    || (phase == 1 && stage == Precommit && PrevoteVerdict(Config("", com), b, qc) == Pass && Safety.Known(qc.value, g.signed))
  }

  /** `g'` comes after `g`, and only validators in `ids` have moved. */
  predicate Moves(g: Safety.Network, g': Safety.Network, ids: set<string>)
  {
    && g'.nodes.Keys == g.nodes.Keys && g'.sent.Keys == g.sent.Keys && g.signed <= g'.signed
    && forall q :: q in g.nodes && q !in ids ==> g'.nodes[q] == g.nodes[q]
  }

  predicate NoReboot(steps: seq<Safety.Step>)
  {
    forall i :: 0 <= i < |steps| ==> !steps[i].Reboot?
  }

  lemma {:induction false} NoRebootCareful(com: Committee, g: Safety.Network, steps: seq<Safety.Step>, care: Safety.Care)
    requires NoReboot(steps)
    ensures Safety.CarefulGo(com, g, steps, care)
    decreases |steps|
  {
    if steps != [] { NoRebootCareful(com, g, steps[..|steps| - 1], care); }
  }

  /** A vote is cast, or signed by a validator that need not be honest. */
  function VoteStep(g: Safety.Network, q: string, com: Committee, b: Block, stage: Stage, qc: Option<Certificate>): Safety.Step
  {
    if q in g.nodes then Safety.CastVote(q, b, stage, qc) else Safety.Sign(VoteOf(com, q, b, stage).signature)
  }

  /** An honest vote, as an answer and as a step. */
  lemma HonestVote(com: Committee, g: Safety.Network, q: string, b: Block, phase: nat, stage: Stage, qc: Option<Certificate>)
    returns (s: NodeState)
    requires q in g.nodes && q in g.sent && Ready(Config(q, com), INITIAL, g.nodes[q], b, phase) && Castable(com, g, b, phase, stage, qc)
    ensures Safety.Next(com, g, Safety.CastVote(q, b, stage, qc)) ==
      Safety.Update(g, q, s, g.signed + {VoteOf(com, q, b, stage).signature}, g.sent[q] + [VoteOf(com, q, b, stage)])
    ensures Ready(Config(q, com), INITIAL, s, b, phase + 1)
  {
    CastAdvances(Config(q, com), INITIAL, g.nodes[q], b, phase, stage);
    s := VoteOn(Config(q, com), g.nodes[q], b, stage, qc).0;
  }

  lemma OneVotes(com: Committee, g: Safety.Network, q: string, b: Block, phase: nat, stage: Stage, qc: Option<Certificate>)
    requires g.sent.Keys == g.nodes.Keys && ReadyIn(com, g, {q}, b, phase) && Castable(com, g, b, phase, stage, qc)
    ensures var g' := Safety.Next(com, g, VoteStep(g, q, com, b, stage, qc));
      && Moves(g, g', {q}) && VoteOf(com, q, b, stage).signature in g'.signed && ReadyIn(com, g', {q}, b, phase + 1)
  {
    if q in g.nodes { var s := HonestVote(com, g, q, b, phase, stage, qc); }
  }

  predicate Voted(com: Committee, g: Safety.Network, ids: set<string>, b: Block, stage: Stage)
  {
    forall q :: q in ids ==> VoteOf(com, q, b, stage).signature in g.signed
  }

  /** What the others did and what one does comes together. */
  lemma OneMoreVoted(com: Committee, g: Safety.Network, g1: Safety.Network, g2: Safety.Network, ids: set<string>, q: string, b: Block, phase: nat, stage: Stage)
    requires q in ids && Moves(g, g1, ids - {q}) && Moves(g1, g2, {q})
    requires ReadyIn(com, g1, ids - {q}, b, phase) && ReadyIn(com, g2, {q}, b, phase)
    requires Voted(com, g1, ids - {q}, b, stage) && VoteOf(com, q, b, stage).signature in g2.signed
    ensures Moves(g, g2, ids) && ReadyIn(com, g2, ids, b, phase) && Voted(com, g2, ids, b, stage)
  {
    MovesOn(g, g1, g2, ids, q);
    forall x | x in ids && x in g2.nodes ensures Ready(Config(x, com), INITIAL, g2.nodes[x], b, phase) {
      if x != q { assert g2.nodes[x] == g1.nodes[x]; }
    }
  }

  lemma MovesOn(g: Safety.Network, g1: Safety.Network, g2: Safety.Network, ids: set<string>, q: string)
    requires q in ids && Moves(g, g1, ids - {q}) && Moves(g1, g2, {q})
    ensures Moves(g, g2, ids)
  {
  }

  /** Whoever has not moved can still vote. */
  lemma StillReady(com: Committee, g: Safety.Network, g1: Safety.Network, ids: set<string>, q: string, b: Block, phase: nat, stage: Stage, qc: Option<Certificate>)
    requires q in ids && Moves(g, g1, ids - {q}) && ReadyIn(com, g, ids, b, phase) && Castable(com, g, b, phase, stage, qc)
    ensures ReadyIn(com, g1, {q}, b, phase) && Castable(com, g1, b, phase, stage, qc)
  {
    assert q in g.nodes ==> g1.nodes[q] == g.nodes[q];
  }

  /** All of a set of validators vote. */
  lemma {:induction false} AllVote(com: Committee, g: Safety.Network, ids: set<string>, b: Block, phase: nat, stage: Stage, qc: Option<Certificate>)
    returns (steps: seq<Safety.Step>)
    requires g.sent.Keys == g.nodes.Keys && ReadyIn(com, g, ids, b, phase) && Castable(com, g, b, phase, stage, qc)
    ensures NoReboot(steps)
    ensures var g' := Safety.Go(com, g, steps);
      Moves(g, g', ids) && ReadyIn(com, g', ids, b, phase + 1) && Voted(com, g', ids, b, stage)
    decreases |ids|
  {
    steps := [];
    if ids != {} {
      var q :| q in ids;
      Smaller(ids, q);
      steps := AllVote(com, g, ids - {q}, b, phase, stage, qc);
      var g1 := Safety.Go(com, g, steps);
      var step := VoteStep(g1, q, com, b, stage, qc);
      StillReady(com, g, g1, ids, q, b, phase, stage, qc);
      OneVotes(com, g1, q, b, phase, stage, qc);
      OneMoreVoted(com, g, g1, Safety.Next(com, g1, step), ids, q, b, phase + 1, stage);
      GoOnOne(com, g, steps, step);
      steps := steps + [step];
    }
  }

  lemma Smaller(ids: set<string>, q: string)
    requires q in ids
    ensures |ids - {q}| == |ids| - 1
  {
  }

  lemma GoOnOne(com: Committee, g: Safety.Network, steps: seq<Safety.Step>, step: Safety.Step)
    ensures Safety.Go(com, g, steps + [step]) == Safety.Next(com, Safety.Go(com, g, steps), step)
  {
    assert (steps + [step])[..|steps|] == steps;
  }

  lemma {:induction false} List(ids: set<string>) returns (list: seq<string>)
    ensures Distinct(list) && |list| == |ids| && forall q :: q in list <==> q in ids
    decreases |ids|
  {
    list := [];
    if ids != {} {
      var q :| q in ids;
      var rest := List(ids - {q});
      list := rest + [q];
    }
  }

  /** A certificate of the votes of the listed validators. */
  function Ballots(com: Committee, b: Block, stage: Stage, list: seq<string>): (votes: seq<Vote>)
    ensures |votes| == |list| && forall i :: 0 <= i < |list| ==> votes[i] == VoteOf(com, list[i], b, stage)
    decreases |list|
  {
    if list == [] then [] else Ballots(com, b, stage, list[..|list| - 1]) + [VoteOf(com, list[|list| - 1], b, stage)]
  }

  function CertificateOf(com: Committee, b: Block, stage: Stage, list: seq<string>): Certificate
  {
    Certificate(b.height, b.round, stage, b.Hash(), ToCommit, com.threshold, 0, "", |list|, Ballots(com, b, stage, list))
  }

  lemma QuorumCertifies(com: Committee, b: Block, stage: Stage, list: seq<string>)
    requires Working(com) && b.height > 0 && IsVoteStage(stage) && Distinct(list) && |list| >= com.threshold
    requires forall q :: q in list ==> q in com.identities
    ensures Certifies(com, CertificateOf(com, b, stage, list), b, stage)
  {
    var cert := CertificateOf(com, b, stage, list);
    forall i | 0 <= i < |list| ensures GoodVote(cert.votes[i], SlotOf(cert), com) { MemberVerified(com, list[i], b, stage); }
  }

  /** A quorum of ready validators prevotes and precommits a block, which is then certified. */
  lemma QuorumCommits(com: Committee, g: Safety.Network, ids: set<string>, b: Block) returns (steps: seq<Safety.Step>, c: Commit)
    requires Working(com) && ids <= com.identities.Keys && |ids| >= com.threshold
    requires g.sent.Keys == g.nodes.Keys && ReadyIn(com, g, ids, b, 0) && b.height > 0
    requires ProposerFor(b.height, b.round, com.validatorIds) == Ok(b.proposerId)
    requires b.membershipVersion == 0 && b.validatorSetHash == "" && !Blank(b.stateDigest)
    ensures NoReboot(steps) && c.block == b && VerifyCommit(com, c) == Pass
    ensures var g' := Safety.Go(com, g, steps);
      Moves(g, g', ids) && ReadyIn(com, g', ids, b, 2) && Safety.Known(c.certificate, g'.signed)
  {
    var list := List(ids);
    var qc := CertificateOf(com, b, Prevote, list);
    QuorumCertifies(com, b, Prevote, list);
    QuorumCertifies(com, b, Precommit, list);
    VerdictMeaning(qc, com);
    var first := AllVote(com, g, ids, b, 0, Prevote, None);
    var g1 := Safety.Go(com, g, first);
    var second := AllVote(com, g1, ids, b, 1, Precommit, Some(qc));
    Safety.GoOn(com, g, first, second);
    CommitVerifies(com, b, CertificateOf(com, b, Precommit, list));
    steps, c := first + second, Commit(b, CertificateOf(com, b, Precommit, list));
  }

  // ---- Restarting ----------------------------------------------------------------------------

  lemma OneRestarts(com: Committee, g: Safety.Network, q: string, b: Block)
    requires g.sent.Keys == g.nodes.Keys && q in g.nodes && Ready(Config(q, com), INITIAL, g.nodes[q], b, 2)
    ensures var g' := Safety.Next(com, g, Safety.Reboot(q));
      Moves(g, g', {q}) && g'.nodes[q] == INITIAL
  {
  }

  /** The validators of a set, none of them loyal, are restarted as new. */
  lemma {:induction false} AllRestart(com: Committee, g: Safety.Network, ids: set<string>, b: Block, care: Safety.Care)
    returns (steps: seq<Safety.Step>)
    requires g.sent.Keys == g.nodes.Keys && ReadyIn(com, g, ids, b, 2) && care.loyal !! ids
    ensures Safety.CarefulGo(com, g, steps, care)
    ensures var g' := Safety.Go(com, g, steps);
      Moves(g, g', ids) && forall q :: q in ids && q in g.nodes ==> g'.nodes[q] == INITIAL
    decreases |ids|
  {
    steps := [];
    if ids != {} {
      var q :| q in ids;
      Smaller(ids, q);
      steps := AllRestart(com, g, ids - {q}, b, care);
      if q in g.nodes {
        var g1 := Safety.Go(com, g, steps);
        StillReadyToRestart(com, g, g1, ids, q, b);
        OneRestarts(com, g1, q, b);
        OneMoreRestarted(g, g1, Safety.Next(com, g1, Safety.Reboot(q)), ids, q);
        GoOnOne(com, g, steps, Safety.Reboot(q));
        RebootCareful(com, g1, q, care);
        Safety.CarefulOn(com, g, steps, [Safety.Reboot(q)], care);
        steps := steps + [Safety.Reboot(q)];
      }
    }
  }

  lemma StillReadyToRestart(com: Committee, g: Safety.Network, g1: Safety.Network, ids: set<string>, q: string, b: Block)
    requires q in ids && q in g.nodes && Moves(g, g1, ids - {q}) && ReadyIn(com, g, ids, b, 2)
    ensures q in g1.nodes && Ready(Config(q, com), INITIAL, g1.nodes[q], b, 2)
  {
  }

  lemma OneMoreRestarted(g: Safety.Network, g1: Safety.Network, g2: Safety.Network, ids: set<string>, q: string)
    requires q in ids && q in g.nodes && Moves(g, g1, ids - {q}) && Moves(g1, g2, {q}) && g2.nodes[q] == INITIAL
    requires forall x :: x in ids - {q} && x in g.nodes ==> g1.nodes[x] == INITIAL
    ensures Moves(g, g2, ids) && forall x :: x in ids && x in g.nodes ==> g2.nodes[x] == INITIAL
  {
    MovesOn(g, g1, g2, ids, q);
    forall x | x in ids && x in g.nodes ensures g2.nodes[x] == INITIAL { if x != q { assert g2.nodes[x] == g1.nodes[x]; } }
  }

  lemma RebootCareful(com: Committee, g: Safety.Network, q: string, care: Safety.Care)
    requires q !in care.loyal
    ensures Safety.CarefulGo(com, g, [Safety.Reboot(q)], care)
  {
    assert [Safety.Reboot(q)][..0] == [];
    assert Safety.Go(com, g, []) == g;
    assert Safety.CarefulGo(com, g, [], care);
  }

  // ---- The bound is exact --------------------------------------------------------------------

  lemma {:induction false} Take(all: set<string>, k: nat) returns (some: set<string>)
    requires k <= |all|
    ensures some <= all && |some| == k
    decreases k
  {
    some := {};
    if k > 0 {
      var q :| q in all;
      assert |all - {q}| == |all| - 1;
      var rest := Take(all - {q}, k - 1);
      some := rest + {q};
    }
  }

  /** Without the quorum bound there are two quorums that share no loyal member. */
  lemma TwoQuorums(all: set<string>, loyal: set<string>, t: nat) returns (p: set<string>, q: set<string>)
    requires loyal <= all && t <= |all| && 2 * t <= |all| + |all - loyal|
    ensures p <= all && q <= all && |p| == t == |q| && p * q !! loyal
  {
    var others := all - loyal;
    assert all == loyal + others && |all| == |loyal| + |others|;
    var shared := Take(others, if t <= |others| then t else |others|);
    var k := t - |shared|;
    var a := Take(loyal, k);
    assert |loyal - a| == |loyal| - k;
    var b := Take(loyal - a, k);
    p, q := a + shared, b + shared;
  }

  /** Whenever the quorum bound fails there is a run, in which only validators that are not loyal are
      restarted carelessly, that certifies two blocks at one height. */
  lemma BoundIsTight(com: Committee, honest: set<string>, loyal: set<string>) returns (steps: seq<Safety.Step>, c: Commit, d: Commit)
    requires Working(com) && loyal <= honest <= com.identities.Keys && !Safety.QuorumBound(com, loyal)
    ensures Safety.CarefulRun(com, honest, steps, Safety.Care(loyal, Safety.PRECOMMITS))
    ensures Safety.Certified(com, Safety.Run(com, honest, steps), c) && Safety.Certified(com, Safety.Run(com, honest, steps), d)
    ensures c.block.height == d.block.height && c.block != d.block
  {
    var care, start := Safety.Care(loyal, Safety.PRECOMMITS), Safety.Start(honest);
    assert |com.identities| == |com.identities.Keys|;
    var p, q := TwoQuorums(com.identities.Keys, loyal, com.threshold);
    var b, e := FirstBlocks(com);
    var one, two, three;
    one, c := QuorumCommits(com, start, p, b);
    var g1 := Safety.Go(com, start, one);
    two := AllRestart(com, g1, p * q, b, care);
    var g2 := Safety.Go(com, g1, two);
    SecondReady(com, honest, g1, g2, p, q, e);
    three, d := QuorumCommits(com, g2, q, e);
    steps := one + two + three;
    Joined(com, start, one, two, three, care);
    StillKnown(c, d, g1, g2, Safety.Go(com, g2, three), p * q, q);
  }

  /** The members of the second quorum are as new. */
  lemma SecondReady(com: Committee, honest: set<string>, g1: Safety.Network, g2: Safety.Network, p: set<string>, q: set<string>, e: Block)
    requires Moves(Safety.Start(honest), g1, p) && Moves(g1, g2, p * q) && forall x :: x in p * q && x in g1.nodes ==> g2.nodes[x] == INITIAL
    requires forall x :: x in q ==> Ready(Config(x, com), INITIAL, INITIAL, e, 0)
    ensures ReadyIn(com, g2, q, e, 0) && g2.sent.Keys == g2.nodes.Keys
  {
    forall x | x in q && x in g2.nodes ensures g2.nodes[x] == INITIAL {
      assert x !in p ==> g1.nodes[x] == Safety.Start(honest).nodes[x];
    }
  }

  lemma StillKnown(c: Commit, d: Commit, g1: Safety.Network, g2: Safety.Network, g3: Safety.Network, both: set<string>, q: set<string>)
    requires Safety.Known(c.certificate, g1.signed) && Moves(g1, g2, both) && Moves(g2, g3, q) && Safety.Known(d.certificate, g3.signed)
    ensures Safety.Known(c.certificate, g3.signed)
  {
  }

  lemma FirstBlocks(com: Committee) returns (b: Block, e: Block)
    requires com.validatorIds != []
    ensures b != e && b.height == 1 == e.height
    ensures forall x :: x in {b, e} ==>
      && ProposerFor(1, x.round, com.validatorIds) == Ok(x.proposerId)
      && x.membershipVersion == 0 && x.validatorSetHash == "" && !Blank(x.stateDigest)
    ensures forall q :: Member(com, q) ==> Ready(Config(q, com), INITIAL, INITIAL, b, 0) && Ready(Config(q, com), INITIAL, INITIAL, e, 0)
  {
    b := FirstBlock(com, "x");
    e := FirstBlock(com, "y");
  }

  lemma Joined(com: Committee, g: Safety.Network, one: seq<Safety.Step>, two: seq<Safety.Step>, three: seq<Safety.Step>, care: Safety.Care)
    requires NoReboot(one) && Safety.CarefulGo(com, Safety.Go(com, g, one), two, care) && NoReboot(three)
    ensures Safety.Go(com, g, one + two + three) == Safety.Go(com, Safety.Go(com, Safety.Go(com, g, one), two), three)
    ensures Safety.CarefulGo(com, g, one + two + three, care)
  {
    Safety.GoOn(com, g, one, two);
    Safety.GoOn(com, g, one + two, three);
    NoRebootCareful(com, g, one, care);
    NoRebootCareful(com, Safety.Go(com, g, one + two), three, care);
    Safety.CarefulOn(com, g, one, two, care);
    Safety.CarefulOn(com, g, one + two, three, care);
  }

  /** No two blocks are certified at one height in any careful run. */
  ghost predicate Agrees(com: Committee, honest: set<string>, loyal: set<string>)
  {
    forall steps, c, d :: Rivals(com, honest, loyal, steps, c, d) ==> c.block == d.block
  }

  /** Two commits certified at one height in a careful run. */
  predicate Rivals(com: Committee, honest: set<string>, loyal: set<string>, steps: seq<Safety.Step>, c: Commit, d: Commit)
  {
    && Safety.CarefulRun(com, honest, steps, Safety.Care(loyal, Safety.PRECOMMITS))
    && Safety.Certified(com, Safety.Run(com, honest, steps), c) && Safety.Certified(com, Safety.Run(com, honest, steps), d)
    && c.block.height == d.block.height
  }

  /** The exact condition for agreement. */
  lemma AgreementExactly(com: Committee, honest: set<string>, loyal: set<string>)
    requires Working(com) && loyal <= honest <= com.identities.Keys
    ensures Agrees(com, honest, loyal) <==> Safety.QuorumBound(com, loyal)
  {
    if Safety.QuorumBound(com, loyal) {
      forall steps, c, d | Rivals(com, honest, loyal, steps, c, d) ensures c.block == d.block {
        Safety.Agreement(com, honest, loyal, steps, c, d);
      }
    } else {
      var steps, c, d := BoundIsTight(com, honest, loyal);
      assert Rivals(com, honest, loyal, steps, c, d);
    }
  }

  // ---- A committee of one --------------------------------------------------------------------

  const LONER: Committee := Committee(map["a" := Identity("ml", "k")], ["a"], 1, "ml")

  lemma LonerWorks()
    ensures Working(LONER) && LONER.identities.Keys == {"a"} && |LONER.identities| == 1
  {
    assert LONER.identities.Keys == {"a"} && |LONER.identities| == |LONER.identities.Keys|;
  }

  /** The smallest case: one honest validator alone certifies two blocks at one height if it is restarted
      after its precommit. */
  lemma ForgottenPrecommit() returns (steps: seq<Safety.Step>, c: Commit, d: Commit)
    ensures Safety.QuorumBound(LONER, {"a"}) && !Safety.CarefulRun(LONER, {"a"}, steps, Safety.Care({"a"}, Safety.PRECOMMITS))
    ensures Safety.Certified(LONER, Safety.Run(LONER, {"a"}, steps), c) && Safety.Certified(LONER, Safety.Run(LONER, {"a"}, steps), d)
    ensures c.block.height == d.block.height && c.block != d.block
  {
    LonerWorks();
    assert LONER.identities.Keys - {"a"} == {} && LONER.identities.Keys - {} == {"a"};
    steps, c, d := BoundIsTight(LONER, {"a"}, {});
    if Safety.CarefulRun(LONER, {"a"}, steps, Safety.Care({"a"}, Safety.PRECOMMITS)) {
      Safety.Agreement(LONER, {"a"}, {"a"}, steps, c, d);
    }
  }

  // ---- A store that cannot be opened again ---------------------------------------------------

  /** A record's line is at least as long as the payload of the block in it. */
  ghost predicate HoldsPayload(size: CommitRecord -> nat)
  {
    forall r: CommitRecord :: r.commitJson.Encoded? ==> size(r) >= |r.commitJson.commit.block.payload|
  }

  lemma LonerDelivers(g: Safety.Network, b: Block, c: Commit)
    requires "a" in g.nodes && "a" in g.sent && Ready(Config("a", LONER), INITIAL, g.nodes["a"], b, 2)
    requires c.block == b && VerifyCommit(LONER, c) == Pass && Safety.Known(c.certificate, g.signed)
    ensures var g' := Safety.Next(LONER, g, Safety.Deliver("a", c));
      "a" in g'.nodes && g'.nodes["a"].commits == [c]
  {
    ReadyAccepts(Config("a", LONER), INITIAL, g.nodes["a"], b, c, 2);
  }

  /** The only member commits a first block. */
  lemma LonerCommits(b: Block) returns (steps: seq<Safety.Step>, c: Commit)
    requires Working(LONER) && LONER.identities.Keys == {"a"} && |LONER.identities| == 1
    requires b.height == 1 && ProposerFor(1, b.round, LONER.validatorIds) == Ok(b.proposerId)
    requires b.membershipVersion == 0 && b.validatorSetHash == "" && !Blank(b.stateDigest)
    requires Ready(Config("a", LONER), INITIAL, INITIAL, b, 0)
    ensures "a" in Safety.Run(LONER, {"a"}, steps).nodes && Safety.Run(LONER, {"a"}, steps).nodes["a"].commits == [c] && c.block == b
  {
    var start := Safety.Start({"a"});
    steps, c := QuorumCommits(LONER, start, {"a"}, b);
    var g := Safety.Go(LONER, start, steps);
    LonerDelivers(g, b, c);
    GoOnOne(LONER, start, steps, Safety.Deliver("a", c));
    steps := steps + [Safety.Deliver("a", c)];
  }

  /** Nothing bounds the lines that are written: a validator that commits a block with a payload of the
      scanner's limit cannot open its store again. */
  lemma TooLongToReload(size: CommitRecord -> nat) returns (steps: seq<Safety.Step>)
    requires HoldsPayload(size)
    ensures "a" in Safety.Run(LONER, {"a"}, steps).nodes
    ensures var s := Safety.Run(LONER, {"a"}, steps).nodes["a"];
      |s.commits| == 1 && LoadCommits(s.store.log, size).Err?
  {
    LonerWorks();
    var b := FirstBlock(LONER, seq(LINE_LIMIT, i => 'x'));
    assert Member(LONER, "a");
    var c;
    steps, c := LonerCommits(b);
    OneLongLine(steps, c, size);
  }

  lemma OneLongLine(steps: seq<Safety.Step>, c: Commit, size: CommitRecord -> nat)
    requires HoldsPayload(size) && |c.block.payload| >= LINE_LIMIT
    requires "a" in Safety.Run(LONER, {"a"}, steps).nodes && Safety.Run(LONER, {"a"}, steps).nodes["a"].commits == [c]
    ensures LoadCommits(Safety.Run(LONER, {"a"}, steps).nodes["a"].store.log, size).Err?
  {
    var s := Safety.Run(LONER, {"a"}, steps).nodes["a"];
    Safety.RunKeepsChained(LONER, {"a"}, steps);
    LinkedNumbered(LONER, s.commits);
    Recovery.LogLoads(Config("a", LONER), s.commits, size);
    assert !Short(size, RecordOf(Config("a", LONER), s.commits[0]));
  }
}
