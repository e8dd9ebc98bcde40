/** When a validator votes, in terms of its log, its lock and what it has voted before
    (consensus/validator/node.go), and what stands behind every precommit of a run. */
module Voting {
  import opened Messages
  import opened StateMachine
  import opened Protocol
  import opened Node
  import opened Chain
  import Safety
  import Progress
  import Restarts

  // ---- The conditions for a vote -------------------------------------------------------------

  /** The block goes on top of the log and names the digest of the machine it leads to. */
  predicate Continues(s: NodeState, b: Block)
  {
    && b.height == |s.commits| + 1 && b.previousHash == s.lastHash
    && Transition(s.machine, b.transactions).Ok? && Transition(s.machine, b.transactions).value.digest == b.stateDigest
  }

  /** It comes from the scheduled proposer, in no earlier round, and is the only block that this proposer
      proposed in it. */
  predicate Acceptable(cfg: Config, s: NodeState, b: Block)
  {
    && Continues(s, b)
    && RoundAt(s.currentRound, b.height) <= b.round
    && ProposerFor(b.height, b.round, cfg.com.validatorIds) == Ok(b.proposerId)
    && forall k :: k in s.proposals && k.height == b.height && k.round == b.round && k.proposerId == b.proposerId ==>
         s.proposals[k] == OfBlock(b)
  }

  /** No lock at the height holds another block. */
  predicate Unlocked(s: NodeState, b: Block)
  {
    s.lock.height == b.height && b.height > 0 ==> s.lock.blockHash == OfBlock(b)
  }

  /** No other block was voted for in the round and stage. */
  predicate Undecided(s: NodeState, b: Block, stage: Stage)
  {
    forall k :: k in s.votes && k.height == b.height && k.round == b.round && k.stage == stage ==> s.votes[k].blockHash == OfBlock(b)
  }

  /** The certificate is one of prevotes for the block. */
  predicate Prevoted(com: Committee, height: nat, round: nat, blockHash: Digest, qc: Certificate)
  {
    ValidCertificate(qc, com) && SlotOf(qc) == Slot(height, round, Prevote, blockHash, ToCommit)
  }

  predicate MayVote(cfg: Config, s: NodeState, b: Block, stage: Stage, qc: Option<Certificate>)
  {
    && Acceptable(cfg, s, b) && Unlocked(s, b) && Undecided(s, b, stage)
    && (stage == Precommit ==> qc.Some? && Prevoted(cfg.com, b.height, b.round, OfBlock(b), qc.value))
  }

  lemma ProposalMeaning(cfg: Config, s: NodeState, b: Block)
    ensures ProposalVerdict(cfg, s, b) == Pass <==> Acceptable(cfg, s, b)
  {
    var key := ProposalKey(b.height, b.round, b.proposerId);
    assert forall k :: k in s.proposals && k.height == b.height && k.round == b.round && k.proposerId == b.proposerId ==> k == key;
  }

  lemma CertificateMeaning(cfg: Config, b: Block, qc: Option<Certificate>)
    ensures PrevoteVerdict(cfg, b, qc) == Pass <==> qc.Some? && Prevoted(cfg.com, b.height, b.round, OfBlock(b), qc.value)
  {
    if qc.Some? { VerdictMeaning(qc.value, cfg.com); }
  }

  lemma CastMeaning(cfg: Config, s: NodeState, b: Block, stage: Stage)
    requires b.height > 0
    ensures Cast(cfg, s, b, stage).1.Ok? <==> Unlocked(s, b) && Undecided(s, b, stage)
  {
    var key := VoteKey(b.height, b.round, stage);
    assert forall k :: k in s.votes && k.height == b.height && k.round == b.round && k.stage == stage ==> k == key;
  }

  /** A vote is given if and only if the block may be voted for. */
  lemma VoteMeaning(cfg: Config, s: NodeState, b: Block, stage: Stage, qc: Option<Certificate>)
    ensures VoteOn(cfg, s, b, stage, qc).1.Ok? <==> MayVote(cfg, s, b, stage, qc)
  {
    ProposalMeaning(cfg, s, b);
    CertificateMeaning(cfg, b, qc);
    if ProposalVerdict(cfg, s, b) == Pass { CastMeaning(cfg, RecordProposal(s, b), b, stage); }
  }

  /** For a validator whose log is a chain, continuing it is a matter of replaying it. */
  lemma ContinuesMeaning(com: Committee, s: NodeState, b: Block)
    requires ChainInv(com, s)
    ensures Continues(s, b) <==>
      && b.height == |s.commits| + 1 && b.previousHash == TipHash(s.commits)
      && var m := Replay(Inputs(s.commits) + [b.transactions]); m.Ok? && m.value.digest == b.stateDigest
  {
    assert (Inputs(s.commits) + [b.transactions])[..|s.commits|] == Inputs(s.commits);
  }

  // ---- What a request does -------------------------------------------------------------------

  /** The vote given: the one recorded for the round and stage, or a new one. */
  function Given(cfg: Config, s: NodeState, b: Block, stage: Stage): Vote
  {
    var key := VoteKey(b.height, b.round, stage);
    if key in s.votes then s.votes[key] else SignVote(b.height, b.round, stage, OfBlock(b), cfg.id, cfg.com.algorithm)
  }

  /** Only the entries of one height changed. */
  predicate SameRounds(a: map<nat, nat>, b: map<nat, nat>, height: nat)
  {
    forall h :: h in a.Keys + b.Keys && h != height ==> RoundAt(a, h) == RoundAt(b, h)
  }

  /** A vote that is given is recorded, with the proposal and its round; a new precommit locks its block. */
  lemma VoteEffect(cfg: Config, s: NodeState, b: Block, stage: Stage, qc: Option<Certificate>)
    requires MayVote(cfg, s, b, stage, qc)
    ensures var (s', r) := VoteOn(cfg, s, b, stage, qc);
      var key := VoteKey(b.height, b.round, stage);
      && r == Ok(Given(cfg, s, b, stage)) && r.value.blockHash == OfBlock(b)
      && s'.votes == s.votes[key := r.value]
      && s'.lock == (if stage == Precommit && key !in s.votes then Lock(b.height, b.round, OfBlock(b)) else s.lock)
      && s'.proposals == s.proposals[ProposalKey(b.height, b.round, b.proposerId) := OfBlock(b)]
      && RoundAt(s'.currentRound, b.height) == b.round && SameRounds(s.currentRound, s'.currentRound, b.height)
      && SameRecord(s, s')
  {
    VoteMeaning(cfg, s, b, stage, qc);
    VoteKeepsChain(cfg, s, b, stage, qc);
    ProposalMeaning(cfg, s, b);
    RecordEffect(s, b);
    CastEffect(cfg, RecordProposal(s, b), b, stage);
    assert VoteOn(cfg, s, b, stage, qc) == Cast(cfg, RecordProposal(s, b), b, stage);
  }

  lemma RecordEffect(s: NodeState, b: Block)
    requires RoundAt(s.currentRound, b.height) <= b.round
    ensures var s' := RecordProposal(s, b);
      && s'.votes == s.votes && s'.lock == s.lock
      && s'.proposals == s.proposals[ProposalKey(b.height, b.round, b.proposerId) := OfBlock(b)]
      && RoundAt(s'.currentRound, b.height) == b.round && SameRounds(s.currentRound, s'.currentRound, b.height)
  {
  }

  lemma CastEffect(cfg: Config, s: NodeState, b: Block, stage: Stage)
    requires Cast(cfg, s, b, stage).1.Ok?
    ensures var (s', r) := Cast(cfg, s, b, stage);
      var key := VoteKey(b.height, b.round, stage);
      && r == Ok(Given(cfg, s, b, stage)) && r.value.blockHash == OfBlock(b)
      && s'.votes == s.votes[key := r.value] && s'.proposals == s.proposals && s'.currentRound == s.currentRound
      && s'.lock == (if stage == Precommit && key !in s.votes then Lock(b.height, b.round, OfBlock(b)) else s.lock)
  {
    var key := VoteKey(b.height, b.round, stage);
    if key in s.votes { assert s.votes[key := s.votes[key]] == s.votes; }
  }

  /** A request that is refused leaves votes, lock and log alone. */
  lemma RefusalKeeps(cfg: Config, s: NodeState, b: Block, stage: Stage, qc: Option<Certificate>)
    requires !MayVote(cfg, s, b, stage, qc)
    ensures var (s', r) := VoteOn(cfg, s, b, stage, qc);
      r.Err? && s'.votes == s.votes && s'.lock == s.lock && SameRecord(s, s')
  {
    VoteMeaning(cfg, s, b, stage, qc);
    VoteKeepsChain(cfg, s, b, stage, qc);
  }

  /** The same request again gets the same vote and changes nothing more. */
  lemma VoteAgain(cfg: Config, s: NodeState, b: Block, stage: Stage, qc: Option<Certificate>)
    requires MayVote(cfg, s, b, stage, qc)
    ensures var (s', r) := VoteOn(cfg, s, b, stage, qc); VoteOn(cfg, s', b, stage, qc) == (s', r)
  {
    var (s', r) := VoteOn(cfg, s, b, stage, qc);
    VoteEffect(cfg, s, b, stage, qc);
    VoteStillAllowed(cfg, s, s', b, stage, qc);
    assert s'.proposals[ProposalKey(b.height, b.round, b.proposerId) := b.Hash()] == s'.proposals;
    AgainSame(cfg, s', b, stage, qc, r.value);
  }

  lemma VoteStillAllowed(cfg: Config, s: NodeState, s': NodeState, b: Block, stage: Stage, qc: Option<Certificate>)
    requires MayVote(cfg, s, b, stage, qc) && (s', Ok(Given(cfg, s, b, stage))) == VoteOn(cfg, s, b, stage, qc)
    ensures MayVote(cfg, s', b, stage, qc)
  {
    VoteEffect(cfg, s, b, stage, qc);
  }

  lemma AgainSame(cfg: Config, s: NodeState, b: Block, stage: Stage, qc: Option<Certificate>, v: Vote)
    requires MayVote(cfg, s, b, stage, qc) && VoteKey(b.height, b.round, stage) in s.votes && s.votes[VoteKey(b.height, b.round, stage)] == v
    requires RoundAt(s.currentRound, b.height) == b.round
    requires s.proposals[ProposalKey(b.height, b.round, b.proposerId) := b.Hash()] == s.proposals
    ensures VoteOn(cfg, s, b, stage, qc) == (s, Ok(v))
  {
    ProposalMeaning(cfg, s, b);
    CertificateMeaning(cfg, b, qc);
    assert RecordProposal(s, b) == s;
  }

  /** The complaint is true, or that of the state machine or of the certificate check. */
  predicate Objection(cfg: Config, s: NodeState, b: Block, stage: Stage, qc: Option<Certificate>, e: Rejection)
  {
    || Transition(s.machine, b.transactions) == Err(e)
    || (stage == Precommit && qc.Some? && CertificateVerdict(qc.value, cfg.com) == Fail(e))
    || match e
       case StaleHeight => b.height <= |s.commits|
       case FutureHeight => b.height > |s.commits| + 1
       case StaleRound => b.round < RoundAt(s.currentRound, b.height)
       case EmptyValidatorSet => cfg.com.validatorIds == []
       case WrongProposer => ProposerFor(b.height, b.round, cfg.com.validatorIds) != Ok(b.proposerId)
       case PreviousHashMismatch => b.previousHash != s.lastHash
       case StateDigestMismatch => !Continues(s, b)
       case ConflictingProposal => Continues(s, b) && !Acceptable(cfg, s, b)
       case Locked => !Unlocked(s, b)
       case AlreadyVoted => !Undecided(s, b, stage)
       case MissingPrevoteCertificate => stage == Precommit && qc.None?
       case CertificateMismatch => stage == Precommit && qc.Some? && SlotOf(qc.value).(decision := ToCommit) != Slot(b.height, b.round, Prevote, OfBlock(b), ToCommit)
       case _ => false
  }

  /** A refusal is for a reason. */
  lemma RefusalMeaning(cfg: Config, s: NodeState, b: Block, stage: Stage, qc: Option<Certificate>)
    requires VoteOn(cfg, s, b, stage, qc).1.Err?
    ensures Objection(cfg, s, b, stage, qc, VoteOn(cfg, s, b, stage, qc).1.reason)
  {
    if stage == Precommit && PrevoteVerdict(cfg, b, qc).Fail? {
      CertificateObjection(cfg, s, b, stage, qc);
    } else if ProposalVerdict(cfg, s, b).Fail? {
      ProposalObjection(cfg, s, b, stage, qc);
    } else {
      CastObjection(cfg, s, RecordProposal(s, b), b, stage, qc);
    }
  }

  lemma CertificateObjection(cfg: Config, s: NodeState, b: Block, stage: Stage, qc: Option<Certificate>)
    requires stage == Precommit && PrevoteVerdict(cfg, b, qc).Fail?
    ensures Objection(cfg, s, b, stage, qc, PrevoteVerdict(cfg, b, qc).reason)
  {
  }

  lemma ProposalObjection(cfg: Config, s: NodeState, b: Block, stage: Stage, qc: Option<Certificate>)
    requires ProposalVerdict(cfg, s, b).Fail?
    ensures Objection(cfg, s, b, stage, qc, ProposalVerdict(cfg, s, b).reason)
  {
    ProposalMeaning(cfg, s, b);
  }

  lemma CastObjection(cfg: Config, s: NodeState, recorded: NodeState, b: Block, stage: Stage, qc: Option<Certificate>)
    requires recorded.lock == s.lock && recorded.votes == s.votes && b.height > 0 && Cast(cfg, recorded, b, stage).1.Err?
    ensures Objection(cfg, s, b, stage, qc, Cast(cfg, recorded, b, stage).1.reason)
  {
  }

  /** A peer answers a request with a vote if and only if its proposer signed the proposal and the peer may
      vote for the block; an unsigned one changes nothing. */
  lemma RequestMeaning(cfg: Config, s: NodeState, req: Progress.Request)
    ensures Progress.HandleRequest(cfg, s, req).1.Ok? <==>
      ValidProposal(req.proposal, cfg.com) && MayVote(cfg, s, req.proposal.block, req.stage, req.qc)
    ensures !ValidProposal(req.proposal, cfg.com) ==> Progress.HandleRequest(cfg, s, req).0 == s
  {
    VoteMeaning(cfg, s, req.proposal.block, req.stage, req.qc);
  }

  // ---- Precommits of a run -------------------------------------------------------------------

  function PrevoteOf(id: string, height: nat, round: nat, blockHash: Digest): Signature
  {
    Signed(id, Ballot(height, round, Prevote, blockHash, id, ToCommit))
  }

  /** Without care nothing is asked of restarts. */
  lemma {:induction false} Carefree(com: Committee, g: Safety.Network, steps: seq<Safety.Step>, stages: set<Stage>)
    ensures Safety.CarefulGo(com, g, steps, Safety.Care({}, stages))
    decreases |steps|
  {
    if steps != [] { Carefree(com, g, steps[..|steps| - 1], stages); }
  }

  /** A certificate of prevotes in circulation. */
  predicate Behind(com: Committee, signed: set<Signature>, v: Vote, qc: Certificate)
  {
    Prevoted(com, v.height, v.round, v.blockHash, qc) && Safety.Known(qc, signed)
  }

  ghost predicate Backed(com: Committee, signed: set<Signature>, v: Vote)
  {
    v.stage == Precommit ==> exists qc :: Behind(com, signed, v, qc)
  }

  ghost predicate AllBacked(com: Committee, signed: set<Signature>, sent: seq<Vote>)
  {
    forall i :: 0 <= i < |sent| ==> Backed(com, signed, sent[i])
  }

  lemma BackedMore(com: Committee, signed: set<Signature>, signed': set<Signature>, sent: seq<Vote>)
    requires AllBacked(com, signed, sent) && signed <= signed'
    ensures AllBacked(com, signed', sent)
  {
    forall i | 0 <= i < |sent| && sent[i].stage == Precommit ensures Backed(com, signed', sent[i]) {
      assert Backed(com, signed, sent[i]);
      var qc :| Behind(com, signed, sent[i], qc);
      assert Behind(com, signed', sent[i], qc);
    }
  }

  /** A vote just given is backed by the certificate of the request. */
  lemma GivenBacked(cfg: Config, s: NodeState, b: Block, stage: Stage, qc: Option<Certificate>, signed: set<Signature>)
    requires Safety.VotesRecorded(cfg, s) && IsVoteStage(stage) && (qc.Some? ==> Safety.Known(qc.value, signed))
    ensures AllBacked(cfg.com, signed, Safety.Answer(VoteOn(cfg, s, b, stage, qc).1))
  {
    var r := VoteOn(cfg, s, b, stage, qc).1;
    VoteMeaning(cfg, s, b, stage, qc);
    if r.Ok? {
      VoteEffect(cfg, s, b, stage, qc);
      var v := r.value;
      assert v.height == b.height && v.round == b.round && v.stage == stage;
      assert stage == Precommit ==> Behind(cfg.com, signed, v, qc.value);
    }
  }

  lemma StepBacked(com: Committee, g: Safety.Network, step: Safety.Step, id: string)
    requires Safety.Voting(com, g, Safety.Care({}, {})) && id in g.sent && AllBacked(com, g.signed, g.sent[id])
    ensures id in Safety.Next(com, g, step).sent && AllBacked(com, Safety.Next(com, g, step).signed, Safety.Next(com, g, step).sent[id])
  {
    var g' := Safety.Next(com, g, step);
    Safety.NextKeys(com, g, step);
    SignedGrows(com, g, step);
    BackedMore(com, g.signed, g'.signed, g.sent[id]);
    if step.CastVote? && step.id == id && Safety.Possible(g, step) {
      var r := VoteOn(Config(id, com), g.nodes[id], step.block, step.stage, step.qc).1;
      GivenBacked(Config(id, com), g.nodes[id], step.block, step.stage, step.qc, g'.signed);
      assert g'.sent[id] == g.sent[id] + Safety.Answer(r);
    }
  }

  lemma SignedGrows(com: Committee, g: Safety.Network, step: Safety.Step)
    ensures g.signed <= Safety.Next(com, g, step).signed
  {
  }

  lemma {:induction false} RunBacked(com: Committee, honest: set<string>, steps: seq<Safety.Step>, id: string)
    requires id in honest
    ensures id in Safety.Run(com, honest, steps).sent && AllBacked(com, Safety.Run(com, honest, steps).signed, Safety.Run(com, honest, steps).sent[id])
    decreases |steps|
  {
    if steps != [] {
      var before := steps[..|steps| - 1];
      RunBacked(com, honest, before, id);
      Carefree(com, Safety.Start(honest), before, {});
      Safety.RunKeepsVoting(com, honest, before, Safety.Care({}, {}));
      StepBacked(com, Safety.Run(com, honest, before), steps[|steps| - 1], id);
    }
  }

  /** Behind every precommit that an honest validator sent, in every run whatever the restarts, stands a
      certificate of prevotes for the same block, height and round: at least as many different members as
      the threshold it carries have signed such a prevote, the honest ones among them by sending it. */
  lemma PrecommitsBacked(com: Committee, honest: set<string>, steps: seq<Safety.Step>, id: string, i: nat) returns (qc: Certificate)
    requires id in honest && id in Safety.Run(com, honest, steps).sent
    requires i < |Safety.Run(com, honest, steps).sent[id]| && Safety.Run(com, honest, steps).sent[id][i].stage == Precommit
    ensures var g := Safety.Run(com, honest, steps);
      var v := g.sent[id][i];
      && Prevoted(com, v.height, v.round, v.blockHash, qc)
      && Voters(qc.votes) <= com.identities.Keys && |Voters(qc.votes)| >= qc.threshold >= 1
      && forall x :: x in Voters(qc.votes) ==>
           && PrevoteOf(x, v.height, v.round, v.blockHash) in g.signed
           && (x in honest ==> x in g.sent && Safety.Sent(g.sent[x], PrevoteOf(x, v.height, v.round, v.blockHash)))
  {
    var g := Safety.Run(com, honest, steps);
    RunBacked(com, honest, steps, id);
    assert Backed(com, g.signed, g.sent[id][i]);
    qc :| Behind(com, g.signed, g.sent[id][i], qc);
    Carefree(com, Safety.Start(honest), steps, {});
    Safety.RunKeepsVoting(com, honest, steps, Safety.Care({}, {}));
    Signers(com, g, g.sent[id][i], qc);
  }

  lemma Signers(com: Committee, g: Safety.Network, v: Vote, qc: Certificate)
    requires Behind(com, g.signed, v, qc) && Safety.Unforged(g)
    ensures Voters(qc.votes) <= com.identities.Keys && |Voters(qc.votes)| >= qc.threshold
    ensures forall x :: x in Voters(qc.votes) ==>
      && PrevoteOf(x, v.height, v.round, v.blockHash) in g.signed
      && (x in g.sent ==> Safety.Sent(g.sent[x], PrevoteOf(x, v.height, v.round, v.blockHash)))
  {
    CountVoters(qc.votes);
    VotersMeaning(qc.votes);
    forall x | x in Voters(qc.votes) ensures x in com.identities && PrevoteOf(x, v.height, v.round, v.blockHash) in g.signed {
      var k :| 0 <= k < |qc.votes| && qc.votes[k].voterId == x;
      assert GoodVote(qc.votes[k], SlotOf(qc), com);
    }
  }

  // ---- A thin certificate --------------------------------------------------------------------

  /** The threshold that a prevote certificate carries is not compared with that of the committee: whatever
      the latter is, an honest validator precommits a block for which it alone has prevoted. */
  lemma ThinCertificate(com: Committee, id: string) returns (steps: seq<Safety.Step>, b: Block)
    requires Restarts.Working(com) && id in com.identities
    ensures var g := Safety.Run(com, {id}, steps);
      && g.signed == {PrevoteOf(id, b.height, b.round, b.Hash()), Safety.PrecommitOf(id, b)}
      && id in g.sent && Safety.Sent(g.sent[id], Safety.PrecommitOf(id, b))
  {
    b := Restarts.FirstBlock(com, "x");
    assert Progress.Member(com, id);
    var qc := Restarts.CertificateOf(com, b, Prevote, [id]).(threshold := 1);
    ThinIsValid(com, id, b, qc);
    var start := Safety.Start({id});
    var g := OwnPrevote(com, id, b);
    OwnPrecommit(com, id, b, qc, g);
    var prevote, precommit := Safety.CastVote(id, b, Prevote, None), Safety.CastVote(id, b, Precommit, Some(qc));
    steps := [prevote, precommit];
    Safety.GoTwo(com, start, prevote, precommit);
  }

  lemma OwnPrevote(com: Committee, id: string, b: Block) returns (g: Safety.Network)
    requires Progress.Ready(Config(id, com), INITIAL, INITIAL, b, 0)
    ensures g == Safety.Next(com, Safety.Start({id}), Safety.CastVote(id, b, Prevote, None))
    ensures id in g.nodes && id in g.sent && Progress.Ready(Config(id, com), INITIAL, g.nodes[id], b, 1)
    ensures g.signed == {PrevoteOf(id, b.height, b.round, b.Hash())}
  {
    var s := Restarts.HonestVote(com, Safety.Start({id}), id, b, 0, Prevote, None);
    g := Safety.Next(com, Safety.Start({id}), Safety.CastVote(id, b, Prevote, None));
  }

  lemma OwnPrecommit(com: Committee, id: string, b: Block, qc: Certificate, g: Safety.Network)
    requires id in g.nodes && id in g.sent && Progress.Ready(Config(id, com), INITIAL, g.nodes[id], b, 1)
    requires Prevoted(com, b.height, b.round, b.Hash(), qc) && Safety.Known(qc, g.signed)
    ensures var g' := Safety.Next(com, g, Safety.CastVote(id, b, Precommit, Some(qc)));
      && g'.signed == g.signed + {Safety.PrecommitOf(id, b)}
      && id in g'.sent && Safety.Sent(g'.sent[id], Safety.PrecommitOf(id, b))
  {
    CertificateMeaning(Config("", com), b, Some(qc));
    var s := Restarts.HonestVote(com, g, id, b, 1, Precommit, Some(qc));
    var v := Progress.VoteOf(com, id, b, Precommit);
    assert (g.sent[id] + [v])[|g.sent[id]|].signature == Safety.PrecommitOf(id, b);
  }

  lemma ThinIsValid(com: Committee, id: string, b: Block, qc: Certificate)
    requires Restarts.Working(com) && Progress.Member(com, id) && b.height == 1
    requires qc == Restarts.CertificateOf(com, b, Prevote, [id]).(threshold := 1)
    ensures Prevoted(com, b.height, b.round, b.Hash(), qc)
    ensures forall i :: 0 <= i < |qc.votes| ==> qc.votes[i].signature == PrevoteOf(id, b.height, b.round, b.Hash())
  {
    Progress.MemberVerified(com, id, b, Prevote);
    assert qc.votes == [Progress.VoteOf(com, id, b, Prevote)];
    assert |com.identities| >= 1;
  }
}
