/** When a validator accepts a commit, and what that means over a run (consensus/validator/node.go): a
    commit once accepted is accepted ever after, and no certified one is ever called conflicting. */
module Commits {
  import opened Messages
  import opened StateMachine
  import opened Protocol
  import opened Storage
  import opened Node
  import opened Chain
  import Safety

  /** A block with a certificate of precommits for it, at the committee's threshold, from the scheduled
      proposer. */
  predicate ValidCommit(com: Committee, c: Commit)
  {
    && ValidCertificate(c.certificate, com) && c.certificate.threshold == com.threshold && c.certificate.stage == Precommit
    && SlotOf(c.certificate) == Slot(c.block.height, c.block.round, Precommit, OfBlock(c.block), ToCommit)
    && c.certificate.membershipVersion == c.block.membershipVersion && c.certificate.validatorSetHash == c.block.validatorSetHash
    && ProposerFor(c.block.height, c.block.round, com.validatorIds) == Ok(c.block.proposerId)
    && !Blank(c.block.stateDigest)
  }

  lemma CommitMeaning(com: Committee, c: Commit)
    ensures VerifyCommit(com, c) == Pass <==> ValidCommit(com, c)
  {
    VerdictMeaning(c.certificate, com);
  }

  /** The block is in the log. */
  predicate Holds(s: NodeState, b: Block)
  {
    1 <= b.height <= |s.commits| && s.commits[b.height - 1].block == b
  }

  /** A valid commit at a height of the log changes nothing; it passes if and only if it is the one there. */
  lemma OldCommit(cfg: Config, s: NodeState, c: Commit)
    requires ValidCommit(cfg.com, c) && c.block.height <= |s.commits|
    ensures c.block.height >= 1 && Accept(cfg, s, c).0 == s
    ensures Accept(cfg, s, c).1 == if s.commits[c.block.height - 1].block == c.block then Pass else Fail(ConflictingCommit)
  {
    CommitMeaning(cfg.com, c);
  }

  /** The log goes on with the commit, in no earlier round. */
  predicate Next(cfg: Config, s: NodeState, c: Commit)
  {
    Linked(cfg.com, s.commits + [c]) && RoundAt(s.currentRound, |s.commits| + 1) <= c.block.round
  }

  /** A commit is accepted if and only if it is valid and in the log already, or continues the chain in a round
      that is not over; then it is appended, and otherwise the state stays. */
  lemma AcceptMeaning(cfg: Config, s: NodeState, c: Commit)
    requires ChainInv(cfg.com, s) && StoreInv(cfg, s)
    ensures var (s', r) := Accept(cfg, s, c);
      && (r == Pass <==> (ValidCommit(cfg.com, c) && Holds(s, c.block)) || Next(cfg, s, c))
      && (if Next(cfg, s, c) then s'.commits == s.commits + [c] && ChainInv(cfg.com, s') else s' == s)
  {
    CommitMeaning(cfg.com, c);
    AcceptKeepsChain(cfg, s, c);
    if Next(cfg, s, c) {
      LinkedLast(cfg.com, s.commits, c);
      NextAccepted(cfg, s, c);
    } else if c.block.height <= |s.commits| {
      if ValidCommit(cfg.com, c) { OldCommit(cfg, s, c); }
    } else {
      NotNext(cfg, s, c);
    }
  }

  lemma Free(cfg: Config, s: NodeState)
    requires ChainInv(cfg.com, s) && StoreInv(cfg, s)
    ensures |s.commits| + 1 !in s.store.commits
  {
    LinkedNumbered(cfg.com, s.commits);
    RecordHeights(cfg, s.commits);
  }

  lemma NextAccepted(cfg: Config, s: NodeState, c: Commit)
    requires ChainInv(cfg.com, s) && StoreInv(cfg, s) && Next(cfg, s, c)
    ensures Accept(cfg, s, c).1 == Pass && Accept(cfg, s, c).0.commits == s.commits + [c]
  {
    LinkedLast(cfg.com, s.commits, c);
    Free(cfg, s);
  }

  lemma NotNext(cfg: Config, s: NodeState, c: Commit)
    requires ChainInv(cfg.com, s) && !Next(cfg, s, c) && c.block.height > |s.commits|
    ensures Accept(cfg, s, c).0 == s && Accept(cfg, s, c).1.Fail?
  {
    if VerifyCommit(cfg.com, c) == Pass && NextVerdict(s, c.block) == Pass {
      InputsSnoc(s.commits, c);
      LinkedSnoc(cfg.com, s.commits, c);
    }
  }

  /** An accepted commit locks its block, is stored, moves the machine on and opens round 0 of the next
      height. */
  lemma AcceptEffect(cfg: Config, s: NodeState, c: Commit)
    requires ChainInv(cfg.com, s) && StoreInv(cfg, s) && Next(cfg, s, c)
    ensures var s' := Accept(cfg, s, c).0;
      && s'.lock == Lock(c.block.height, c.block.round, OfBlock(c.block)) && s'.lastHash == OfBlock(c.block)
      && s'.machine.digest == c.block.stateDigest && MachineAfter(s.commits + [c]) == Ok(s'.machine)
      && s'.currentRound == s.currentRound[|s.commits| + 2 := 0]
      && s'.votes == s.votes && s'.proposals == s.proposals
  {
    LinkedLast(cfg.com, s.commits, c);
    Free(cfg, s);
    AcceptKeepsChain(cfg, s, c);
  }

  /** It is stored as one more record, with the state of the validator at its block. */
  lemma AcceptStores(cfg: Config, s: NodeState, c: Commit)
    requires ChainInv(cfg.com, s) && StoreInv(cfg, s) && Next(cfg, s, c)
    ensures var b, store, key := c.block, Accept(cfg, s, c).0.store, cfg.KeyId();
      var record := CommitRecord(b.height, b.round, OfBlock(b), b.stateDigest, Encoded(c), key);
      && store.log == s.store.log + [record] && store.commits == s.store.commits[b.height := record]
      && store.state == Some(ValidatorState(cfg.id, b.height, b.round, OfBlock(b), b.stateDigest, b.height, b.round, OfBlock(b), b.height, key))
  {
    LinkedLast(cfg.com, s.commits, c);
    Free(cfg, s);
  }

  /** The complaint about a commit is true, or that of the state machine or of the certificate check. */
  predicate Objection(cfg: Config, s: NodeState, c: Commit, e: Rejection)
  {
    var b, cert := c.block, c.certificate;
    || Transition(s.machine, b.transactions) == Err(e)
    || CertificateVerdict(cert, cfg.com) == Fail(e)
    || match e
       case HashMismatch => cert.blockHash != OfBlock(b)
       case HeightMismatch => cert.height != b.height
       case RoundMismatch => cert.round != b.round
       case NotPrecommit => cert.stage != Precommit
       case ThresholdMismatch => cert.threshold != cfg.com.threshold
       case MembershipMismatch => (cert.membershipVersion, cert.validatorSetHash) != (b.membershipVersion, b.validatorSetHash)
       case EmptyValidatorSet => cfg.com.validatorIds == []
       case ZeroHeight => b.height == 0
       case WrongProposer => ProposerFor(b.height, b.round, cfg.com.validatorIds) != Ok(b.proposerId)
       case MissingDigest => Blank(b.stateDigest)
       case ConflictingCommit => 1 <= b.height <= |s.commits| && s.commits[b.height - 1].block != b
       case HeightGap => b.height > |s.commits| + 1
       case StaleRound => b.round < RoundAt(s.currentRound, b.height)
       case PreviousHashMismatch => b.previousHash != s.lastHash
       case StateDigestMismatch => Transition(s.machine, b.transactions).Ok? && Transition(s.machine, b.transactions).value.digest != b.stateDigest
       case _ => false
  }

  /** A refusal is for a reason. */
  lemma RefusalMeaning(cfg: Config, s: NodeState, c: Commit)
    requires ChainInv(cfg.com, s) && StoreInv(cfg, s) && Accept(cfg, s, c).1.Fail?
    ensures Objection(cfg, s, c, Accept(cfg, s, c).1.reason)
  {
    Free(cfg, s);
    if VerifyCommit(cfg.com, c).Fail? {
      InvalidObjection(cfg, s, c);
    } else if c.block.height <= |s.commits| {
      CommitMeaning(cfg.com, c);
      OldCommit(cfg, s, c);
    } else {
      NextObjection(cfg, s, c);
    }
  }

  lemma InvalidObjection(cfg: Config, s: NodeState, c: Commit)
    requires VerifyCommit(cfg.com, c).Fail?
    ensures Objection(cfg, s, c, VerifyCommit(cfg.com, c).reason)
  {
  }

  lemma NextObjection(cfg: Config, s: NodeState, c: Commit)
    requires VerifyCommit(cfg.com, c) == Pass && c.block.height > |s.commits| && |s.commits| + 1 !in s.store.commits
    requires Accept(cfg, s, c).1.Fail?
    ensures Objection(cfg, s, c, Accept(cfg, s, c).1.reason)
  {
  }

  // ---- Over runs -----------------------------------------------------------------------------

  /** What the validator of a possible step becomes. */
  function Moved(com: Committee, s: NodeState, step: Safety.Step): NodeState
    requires !step.Sign?
  {
    match step
    case CastVote(id, b, stage, qc) => VoteOn(Config(id, com), s, b, stage, qc).0
    case Deliver(id, c) => Accept(Config(id, com), s, c).0
    case Mark(_, height, round) => Marked(s, height, round)
    case Reboot(_) => Rebooted(s)
  }

  lemma MovedExtends(com: Committee, s: NodeState, step: Safety.Step)
    requires !step.Sign? && ChainInv(com, s) && StoreInv(Config(step.id, com), s)
    ensures s.commits <= Moved(com, s, step).commits
  {
    match step
    case CastVote(id, b, stage, qc) => VoteKeepsChain(Config(id, com), s, b, stage, qc);
    case Deliver(id, c) => AcceptKeepsChain(Config(id, com), s, c);
    case Mark(_, _, _) =>
    case Reboot(_) =>
  }

  lemma StepExtends(com: Committee, g: Safety.Network, step: Safety.Step, id: string)
    requires Safety.Chained(com, g) && id in g.nodes
    ensures id in Safety.Next(com, g, step).nodes && g.nodes[id].commits <= Safety.Next(com, g, step).nodes[id].commits
  {
    if Safety.Possible(g, step) && !step.Sign? && step.id == id {
      assert Safety.LogInv(Config(id, com), g.nodes[id], g.signed);
      MovedExtends(com, g.nodes[id], step);
      assert Safety.Next(com, g, step).nodes[id] == Moved(com, g.nodes[id], step);
    }
  }

  /** Logs only grow at the end. */
  lemma {:induction false} LogsGrow(com: Committee, g: Safety.Network, steps: seq<Safety.Step>, id: string)
    requires Safety.Chained(com, g) && id in g.nodes
    ensures id in Safety.Go(com, g, steps).nodes && g.nodes[id].commits <= Safety.Go(com, g, steps).nodes[id].commits
    decreases |steps|
  {
    if steps != [] {
      var before := steps[..|steps| - 1];
      LogsGrow(com, g, before, id);
      Safety.GoKeepsChained(com, g, before);
      StepExtends(com, Safety.Go(com, g, before), steps[|steps| - 1], id);
    }
  }

  /** A commit that a validator accepted is accepted again at every later point of the run, after any
      restarts, and without effect. */
  lemma AcceptedAgain(com: Committee, honest: set<string>, steps: seq<Safety.Step>, more: seq<Safety.Step>, id: string, c: Commit)
    requires id in honest && id in Safety.Run(com, honest, steps).nodes
    requires Accept(Config(id, com), Safety.Run(com, honest, steps).nodes[id], c).1 == Pass
    requires Safety.Known(c.certificate, Safety.Run(com, honest, steps).signed)
    ensures var g := Safety.Run(com, honest, steps + [Safety.Deliver(id, c)] + more);
      id in g.nodes && Accept(Config(id, com), g.nodes[id], c) == (g.nodes[id], Pass)
  {
    var deliver := Safety.Deliver(id, c);
    var g := Safety.Run(com, honest, steps);
    Safety.RunKeys(com, honest, steps);
    Safety.RunKeepsChained(com, honest, steps);
    DeliveredStays(com, g, more, id, c);
    Safety.GoOn(com, Safety.Start(honest), steps, [deliver]);
    Safety.GoOne(com, g, deliver);
    Safety.GoOn(com, Safety.Start(honest), steps + [deliver], more);
  }

  lemma DeliveredStays(com: Committee, g: Safety.Network, more: seq<Safety.Step>, id: string, c: Commit)
    requires Safety.Chained(com, g) && id in g.nodes && id in g.sent && Safety.Known(c.certificate, g.signed)
    requires Accept(Config(id, com), g.nodes[id], c).1 == Pass
    ensures var g' := Safety.Go(com, Safety.Next(com, g, Safety.Deliver(id, c)), more);
      id in g'.nodes && Accept(Config(id, com), g'.nodes[id], c) == (g'.nodes[id], Pass)
  {
    var g1 := Safety.Next(com, g, Safety.Deliver(id, c));
    Safety.StepKeepsChained(com, g, Safety.Deliver(id, c));
    DeliveredHolds(com, g, id, c);
    HeldStays(com, g1, more, id, c);
  }

  lemma DeliveredHolds(com: Committee, g: Safety.Network, id: string, c: Commit)
    requires Safety.Chained(com, g) && id in g.nodes && id in g.sent && Safety.Known(c.certificate, g.signed)
    requires Accept(Config(id, com), g.nodes[id], c).1 == Pass
    ensures var g1 := Safety.Next(com, g, Safety.Deliver(id, c));
      ValidCommit(com, c) && id in g1.nodes && Holds(g1.nodes[id], c.block)
  {
    assert Safety.LogInv(Config(id, com), g.nodes[id], g.signed);
    AcceptedHolds(Config(id, com), g.nodes[id], c);
    DeliveredIs(com, g, id, c);
  }

  lemma DeliveredIs(com: Committee, g: Safety.Network, id: string, c: Commit)
    requires id in g.nodes && id in g.sent && Safety.Known(c.certificate, g.signed)
    ensures var g1 := Safety.Next(com, g, Safety.Deliver(id, c));
      id in g1.nodes && g1.nodes[id] == Accept(Config(id, com), g.nodes[id], c).0
  {
  }

  lemma HeldStays(com: Committee, g: Safety.Network, more: seq<Safety.Step>, id: string, c: Commit)
    requires Safety.Chained(com, g) && id in g.nodes && ValidCommit(com, c) && Holds(g.nodes[id], c.block)
    ensures var g' := Safety.Go(com, g, more);
      id in g'.nodes && Accept(Config(id, com), g'.nodes[id], c) == (g'.nodes[id], Pass)
  {
    LogsGrow(com, g, more, id);
    var s, s' := g.nodes[id], Safety.Go(com, g, more).nodes[id];
    assert s'.commits[c.block.height - 1] == s.commits[c.block.height - 1];
    OldCommit(Config(id, com), s', c);
  }

  lemma AcceptedHolds(cfg: Config, s: NodeState, c: Commit)
    requires ChainInv(cfg.com, s) && StoreInv(cfg, s) && Accept(cfg, s, c).1 == Pass
    ensures ValidCommit(cfg.com, c) && Holds(Accept(cfg, s, c).0, c.block)
  {
    AcceptMeaning(cfg, s, c);
    if Next(cfg, s, c) {
      LinkedLast(cfg.com, s.commits, c);
      CommitMeaning(cfg.com, c);
    }
  }

  /** Under the conditions of agreement, a certified commit at or below the height of an honest validator is
      the one in its log, and is accepted without effect: it is never called conflicting. */
  lemma NeverConflicting(com: Committee, honest: set<string>, loyal: set<string>, steps: seq<Safety.Step>, id: string, c: Commit)
    requires loyal <= honest && loyal <= com.identities.Keys && Safety.QuorumBound(com, loyal) && id in honest
    requires Safety.CarefulRun(com, honest, steps, Safety.Care(loyal, Safety.PRECOMMITS))
    requires Safety.Certified(com, Safety.Run(com, honest, steps), c)
    ensures id in Safety.Run(com, honest, steps).nodes
    ensures var s := Safety.Run(com, honest, steps).nodes[id];
      c.block.height <= |s.commits| ==> Holds(s, c.block) && Accept(Config(id, com), s, c) == (s, Pass)
  {
    Safety.RunKeys(com, honest, steps);
    Safety.RunKeepsChained(com, honest, steps);
    Safety.RunKeepsVoting(com, honest, steps, Safety.Care(loyal, Safety.PRECOMMITS));
    var g := Safety.Run(com, honest, steps);
    if c.block.height <= |g.nodes[id].commits| { CertifiedHeld(com, g, loyal, id, c); }
  }

  lemma CertifiedHeld(com: Committee, g: Safety.Network, loyal: set<string>, id: string, c: Commit)
    requires Safety.Voting(com, g, Safety.Care(loyal, Safety.PRECOMMITS)) && Safety.Chained(com, g)
    requires loyal <= g.nodes.Keys && loyal <= com.identities.Keys && Safety.QuorumBound(com, loyal)
    requires id in g.nodes && Safety.Certified(com, g, c) && c.block.height <= |g.nodes[id].commits|
    ensures Holds(g.nodes[id], c.block) && Accept(Config(id, com), g.nodes[id], c) == (g.nodes[id], Pass)
  {
    CommitMeaning(com, c);
    OldCommit(Config(id, com), g.nodes[id], c);
    var d := g.nodes[id].commits[c.block.height - 1];
    Safety.LogCertified(com, g, id, c.block.height - 1);
    Safety.CertifiedAgree(com, g, loyal, d, c);
  }
}
