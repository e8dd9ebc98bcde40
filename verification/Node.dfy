/** One validator (consensus/validator/node.go): what it does with a proposal and with a commit.

    `NodeState` is the state of a validator as a value and the functions on it say what each
    request does; class `Validator` performs the same requests on fields that it updates in place.
    The model is the configuration without a consortium manifest, so the validator set is fixed. */
module Node {
  import opened Messages
  import opened StateMachine
  import opened Protocol
  import opened Storage

  datatype Lock = Lock(height: nat, round: nat, blockHash: Digest)

  datatype VoteKey = VoteKey(height: nat, round: nat, stage: Stage)
  datatype ProposalKey = ProposalKey(height: nat, round: nat, proposerId: string)

  datatype Config = Config(id: string, com: Committee)
  {
    function KeyId(): string { if id in com.identities then com.identities[id].keyId else "" }
  }

  datatype NodeState = NodeState(
    commits: seq<Commit>,
    lastHash: Digest,
    machine: MachineState,
    currentRound: map<nat, nat>,
    lock: Lock,
    votes: map<VoteKey, Vote>,
    proposals: map<ProposalKey, Digest>,
    store: CommitStore)

  const NO_LOCK := Lock(0, 0, EMPTY)
  const INITIAL := NodeState([], GENESIS_HASH, GENESIS, map[], NO_LOCK, map[], map[], EMPTY_COMMITS)

  /** A Go map of numbers reads 0 where it has no entry. */
  function RoundAt(rounds: map<nat, nat>, height: nat): nat
  {
    if height in rounds then rounds[height] else 0
  }

  function Marked(s: NodeState, height: nat, round: nat): NodeState
  {
    if round > RoundAt(s.currentRound, height) then s.(currentRound := s.currentRound[height := round]) else s
  }

  // ---- Voting --------------------------------------------------------------------------------

  /** The checks on a proposal that only read the state. */
  function ProposalVerdict(cfg: Config, s: NodeState, b: Block): Outcome
  {
    var expected := |s.commits| + 1;
    if b.height < expected then Fail(StaleHeight)
    else if b.height > expected then Fail(FutureHeight)
    else if b.round < RoundAt(s.currentRound, b.height) then Fail(StaleRound)
    else match ProposerFor(b.height, b.round, cfg.com.validatorIds)
    case Err(e) => Fail(e)
    case Ok(proposer) =>
      if b.proposerId != proposer then Fail(WrongProposer)
      else if b.previousHash != s.lastHash then Fail(PreviousHashMismatch)
      else match Transition(s.machine, b.transactions)
      case Err(e) => Fail(e)
      case Ok(next) =>
        if b.stateDigest != next.digest then Fail(StateDigestMismatch)
        else
          var key := ProposalKey(b.height, b.round, b.proposerId);
          if key in s.proposals && s.proposals[key] != b.Hash() then Fail(ConflictingProposal)
          else Pass
  }

  /** An acceptable proposal is remembered and moves the validator to its round. */
  function RecordProposal(s: NodeState, b: Block): NodeState
  {
    Marked(s.(proposals := s.proposals[ProposalKey(b.height, b.round, b.proposerId) := b.Hash()]), b.height, b.round)
  }

  /** A lock at a height admits no other block at that height, in no round. */
  predicate LockAdmits(lock: Lock, height: nat, blockHash: Digest)
  {
    lock.height == 0 || lock.height != height || lock.blockHash == blockHash
  }

  function PrevoteVerdict(cfg: Config, b: Block, qc: Option<Certificate>): Outcome
  {
    match qc
    case None => Fail(MissingPrevoteCertificate)
    case Some(c) =>
      if c.height != b.height || c.round != b.round || c.stage != Prevote || c.blockHash != b.Hash() then Fail(CertificateMismatch)
      else CertificateVerdict(c, cfg.com)
  }

  /** Voting for an acceptable proposal: the lock and the votes already cast decide. */
  function Cast(cfg: Config, s: NodeState, b: Block, stage: Stage): (NodeState, Result<Vote>)
  {
    var key := VoteKey(b.height, b.round, stage);
    if !LockAdmits(s.lock, b.height, b.Hash()) then (s, Err(Locked))
    else if key in s.votes then
      if s.votes[key].blockHash == b.Hash() then (s, Ok(s.votes[key])) else (s, Err(AlreadyVoted))
    else
      var vote := SignVote(b.height, b.round, stage, b.Hash(), cfg.id, cfg.com.algorithm);
      var voted := s.(votes := s.votes[key := vote]);
      (if stage == Precommit then voted.(lock := Lock(b.height, b.round, b.Hash())) else voted, Ok(vote))
  }

  function VoteOn(cfg: Config, s: NodeState, b: Block, stage: Stage, qc: Option<Certificate>): (NodeState, Result<Vote>)
  {
    var certificate := if stage == Precommit then PrevoteVerdict(cfg, b, qc) else Pass;
    if certificate.Fail? then (s, Err(certificate.reason))
    else
      var verdict := ProposalVerdict(cfg, s, b);
      if verdict.Fail? then (s, Err(verdict.reason))
      else Cast(cfg, RecordProposal(s, b), b, stage)
  }

  // ---- Commits -------------------------------------------------------------------------------

  function VerifyCommit(com: Committee, c: Commit): Outcome
  {
    var b, cert := c.block, c.certificate;
    if b.Hash() != cert.blockHash then Fail(HashMismatch)
    else if b.height != cert.height then Fail(HeightMismatch)
    else if b.round != cert.round then Fail(RoundMismatch)
    else if cert.stage != Precommit then Fail(NotPrecommit)
    else if cert.threshold != com.threshold then Fail(ThresholdMismatch)
    else if b.membershipVersion != cert.membershipVersion || b.validatorSetHash != cert.validatorSetHash then Fail(MembershipMismatch)
    else match ProposerFor(b.height, b.round, com.validatorIds)
    case Err(e) => Fail(e)
    case Ok(proposer) =>
      if b.proposerId != proposer then Fail(WrongProposer)
      else if Blank(b.stateDigest) then Fail(MissingDigest)
      else CertificateVerdict(cert, com)
  }

  function RecordOf(cfg: Config, c: Commit): CommitRecord
  {
    CommitRecord(c.block.height, c.block.round, c.block.Hash(), c.block.stateDigest, Encoded(c), cfg.KeyId())
  }

  function DurableState(cfg: Config, lock: Lock, b: Block): ValidatorState
  {
    ValidatorState(cfg.id, b.height, b.round, b.Hash(), b.stateDigest, lock.height, lock.round, lock.blockHash, b.height, cfg.KeyId())
  }

  /** The checks on a verified commit for the next height. */
  function NextVerdict(s: NodeState, b: Block): Outcome
  {
    if b.height != |s.commits| + 1 then Fail(HeightGap)
    else if b.round < RoundAt(s.currentRound, b.height) then Fail(StaleRound)
    else if b.previousHash != s.lastHash then Fail(PreviousHashMismatch)
    else match Transition(s.machine, b.transactions)
    case Err(e) => Fail(e)
    case Ok(next) => if b.stateDigest != next.digest then Fail(StateDigestMismatch) else Pass
  }

  function Accept(cfg: Config, s: NodeState, c: Commit): (NodeState, Outcome)
  {
    var b := c.block;
    var verified := VerifyCommit(cfg.com, c);
    if verified.Fail? then (s, verified)
    else if b.height <= |s.commits| then
      if b.height == 0 then (s, Fail(ZeroHeight))
      else if s.commits[b.height - 1].block.Hash() == b.Hash() then (s, Pass)
      else (s, Fail(ConflictingCommit))
    else
      var verdict := NextVerdict(s, b);
      if verdict.Fail? then (s, verdict)
      else Installed(cfg, s, c, Transition(s.machine, b.transactions).value)
  }

  /** Locking, saving and appending a commit that passed all checks. */
  function Installed(cfg: Config, s: NodeState, c: Commit, next: MachineState): (NodeState, Outcome)
  {
    var b := c.block;
    var lock := Lock(b.height, b.round, b.Hash());
    match StoreCommit(s.store, RecordOf(cfg, c), DurableState(cfg, lock, b))
    case Err(e) => (s.(lock := lock), Fail(e))
    case Ok(store) =>
      (s.(lock := lock,
          commits := s.commits + [c],
          lastHash := b.Hash(),
          machine := next,
          currentRound := s.currentRound[b.height + 1 := 0],
          store := store),
       Pass)
  }

  // ---- The validator object ------------------------------------------------------------------

  class Validator {
    const cfg: Config
    var commits: seq<Commit>
    var lastHash: Digest
    var machine: Machine
    var currentRound: map<nat, nat>
    var lock: Lock
    var votes: map<VoteKey, Vote>
    var proposals: map<ProposalKey, Digest>
    const store: FileStore

    ghost predicate Valid()
      reads this, store
    {
      store.Valid()
    }

    ghost function View(): NodeState
      reads this, machine, store
    {
      NodeState(commits, lastHash, machine.View(), currentRound, lock, votes, proposals, store.CommitView())
    }

    constructor (cfg: Config, store: FileStore)
      requires store.Valid()
      ensures Valid() && fresh(machine) && this.cfg == cfg && this.store == store
      ensures View() == INITIAL.(store := store.CommitView())
    {
      this.cfg, this.store := cfg, store;
      commits, lastHash, currentRound, lock, votes, proposals := [], GENESIS_HASH, map[], NO_LOCK, map[], map[];
      machine := new Machine();
    }

    method MarkRound(height: nat, round: nat)
      requires Valid()
      modifies this`currentRound
      ensures Valid() && View() == Marked(old(View()), height, round)
    {
      if round > RoundAt(currentRound, height) { currentRound := currentRound[height := round]; }
    }

    method ValidateProposal(b: Block) returns (r: Outcome)
      requires Valid()
      modifies this`proposals, this`currentRound
      ensures Valid() && r == ProposalVerdict(cfg, old(View()), b)
      ensures View() == if r == Pass then RecordProposal(old(View()), b) else old(View())
    {
      var expected := |commits| + 1;
      if b.height < expected { return Fail(StaleHeight); }
      if b.height > expected { return Fail(FutureHeight); }
      if b.round < RoundAt(currentRound, b.height) { return Fail(StaleRound); }
      var proposer := ProposerFor(b.height, b.round, cfg.com.validatorIds);
      if proposer.Err? { return Fail(proposer.reason); }
      if b.proposerId != proposer.value { return Fail(WrongProposer); }
      if b.previousHash != lastHash { return Fail(PreviousHashMismatch); }
      var next := machine.Clone();
      var applied := next.Apply(b.transactions);
      if applied.Err? { return Fail(applied.reason); }
      if b.stateDigest != applied.value.0 { return Fail(StateDigestMismatch); }
      var key := ProposalKey(b.height, b.round, b.proposerId);
      if key in proposals && proposals[key] != b.Hash() { return Fail(ConflictingProposal); }
      proposals := proposals[key := b.Hash()];
      if b.round > RoundAt(currentRound, b.height) { currentRound := currentRound[b.height := b.round]; }
      r := Pass;
    }

    method VoteForProposal(b: Block, stage: Stage, qc: Option<Certificate>) returns (r: Result<Vote>)
      requires Valid()
      modifies this`proposals, this`currentRound, this`votes, this`lock
      ensures Valid() && (View(), r) == VoteOn(cfg, old(View()), b, stage, qc)
    {
      if stage == Precommit {
        if qc.None? { return Err(MissingPrevoteCertificate); }
        var c := qc.value;
        if c.height != b.height || c.round != b.round || c.stage != Prevote || c.blockHash != b.Hash() { return Err(CertificateMismatch); }
        var verdict := VerifyQuorumCertificate(c, cfg.com);
        if verdict.Fail? { return Err(verdict.reason); }
      }
      var verdict := ValidateProposal(b);
      if verdict.Fail? { return Err(verdict.reason); }
      if !LockAdmits(lock, b.height, b.Hash()) { return Err(Locked); }
      var key := VoteKey(b.height, b.round, stage);
      if key in votes {
        if votes[key].blockHash == b.Hash() { return Ok(votes[key]); }
        return Err(AlreadyVoted);
      }
      var vote := SignVote(b.height, b.round, stage, b.Hash(), cfg.id, cfg.com.algorithm);
      votes := votes[key := vote];
      if stage == Precommit { lock := Lock(b.height, b.round, b.Hash()); }
      r := Ok(vote);
    }

    /** The checks on a commit for the next height, with the machine that it leads to. */
    method CheckNext(b: Block) returns (r: Outcome, next: Machine)
      requires Valid()
      ensures fresh(next) && r == NextVerdict(View(), b)
      ensures r == Pass ==> Transition(machine.View(), b.transactions) == Ok(next.View())
    {
      next := machine.Clone();
      if b.height != |commits| + 1 { return Fail(HeightGap), next; }
      if b.round < RoundAt(currentRound, b.height) { return Fail(StaleRound), next; }
      if b.previousHash != lastHash { return Fail(PreviousHashMismatch), next; }
      var applied := next.Apply(b.transactions);
      if applied.Err? { return Fail(applied.reason), next; }
      if b.stateDigest != applied.value.0 { return Fail(StateDigestMismatch), next; }
      r := Pass;
    }

    method ApplyCommit(c: Commit) returns (r: Outcome)
      requires Valid()
      modifies this, store
      ensures Valid() && (View(), r) == Accept(cfg, old(View()), c)
    {
      var b := c.block;
      var verified := VerifyCommit(cfg.com, c);
      if verified.Fail? { return verified; }
      if b.height <= |commits| {
        if b.height == 0 { return Fail(ZeroHeight); }
        if commits[b.height - 1].block.Hash() == b.Hash() { return Pass; }
        return Fail(ConflictingCommit);
      }
      var verdict, next := CheckNext(b);
      if verdict.Fail? { return verdict; }
      r := Install(c, next);
    }

    method Install(c: Commit, next: Machine) returns (r: Outcome)
      requires Valid()
      modifies this, store
      ensures Valid() && (View(), r) == Installed(cfg, old(View()), c, old(next.View()))
    {
      var b := c.block;
      lock := Lock(b.height, b.round, b.Hash());
      var saved := store.SaveCommit(RecordOf(cfg, c), DurableState(cfg, lock, b));
      if saved.Fail? { return saved; }
      commits := commits + [c];
      lastHash := b.Hash();
      machine := next;
      currentRound := currentRound[b.height + 1 := 0];
      r := Pass;
    }
  }
}
