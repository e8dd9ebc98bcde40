/** Runs of a whole network of validators, and what holds in all of them.

    A run is any sequence of steps. Honest validators act only through the requests of module
    `Node`, and may be restarted; every other member of the committee may sign anything under its own
    name, at any time.
    Messages may be lost, repeated and reordered, and a certificate may be put together by anybody,
    but only from signatures that were made. A step that is not possible changes nothing. */
module Safety {
  import opened Messages
  import opened Protocol
  import opened Node
  import opened Chain

  datatype Step =
    | Sign(signature: Signature)
    | Mark(id: string, height: nat, round: nat)
    | CastVote(id: string, block: Block, stage: Stage, qc: Option<Certificate>)
    | Deliver(id: string, commit: Commit)
    | Reboot(id: string)

  /** `sent` lists, for each honest validator, the votes it has answered with, in order. */
  datatype Network = Network(nodes: map<string, NodeState>, signed: set<Signature>, sent: map<string, seq<Vote>>)

  function Start(honest: set<string>): Network
  {
    Network(map id | id in honest :: INITIAL, {}, map id | id in honest :: [])
  }

  /** Every signature of the certificate is in circulation. */
  predicate Known(cert: Certificate, signed: set<Signature>)
  {
    forall i :: 0 <= i < |cert.votes| ==> cert.votes[i].signature in signed
  }

  /** One validator has moved. */
  function Update(g: Network, id: string, s: NodeState, signed: set<Signature>, sent: seq<Vote>): Network
  {
    Network(g.nodes[id := s], signed, g.sent[id := sent])
  }

  function Answer(r: Result<Vote>): seq<Vote>
  {
    if r.Ok? then [r.value] else []
  }

  function SignatureOf(r: Result<Vote>): set<Signature>
  {
    if r.Ok? then {r.value.signature} else {}
  }

  predicate Possible(g: Network, step: Step)
  {
    match step
    case Sign(signature) => !(signature.Signed? && signature.signer in g.nodes)
    case Mark(id, _, _) => id in g.nodes && id in g.sent
    case CastVote(id, _, stage, qc) => id in g.nodes && id in g.sent && IsVoteStage(stage) && (qc.Some? ==> Known(qc.value, g.signed))
    case Deliver(id, commit) => id in g.nodes && id in g.sent && Known(commit.certificate, g.signed)
    case Reboot(id) => id in g.nodes && id in g.sent
  }

  function Next(com: Committee, g: Network, step: Step): Network
  {
    if !Possible(g, step) then g else
    match step
    case Sign(signature) => g.(signed := g.signed + {signature})
    case Mark(id, height, round) => Update(g, id, Marked(g.nodes[id], height, round), g.signed, g.sent[id])
    case CastVote(id, block, stage, qc) =>
      var (s, r) := VoteOn(Config(id, com), g.nodes[id], block, stage, qc);
      Update(g, id, s, g.signed + SignatureOf(r), g.sent[id] + Answer(r))
    case Deliver(id, commit) => Update(g, id, Accept(Config(id, com), g.nodes[id], commit).0, g.signed, g.sent[id])
    case Reboot(id) => Update(g, id, Rebooted(g.nodes[id]), g.signed, g.sent[id])
  }

  /** Further steps from a given state of the network. */
  function Go(com: Committee, g: Network, steps: seq<Step>): Network
    decreases |steps|
  {
    if steps == [] then g else Next(com, Go(com, g, steps[..|steps| - 1]), steps[|steps| - 1])
  }

  function Run(com: Committee, honest: set<string>, steps: seq<Step>): Network
  {
    Go(com, Start(honest), steps)
  }

  lemma {:induction false} GoOn(com: Committee, g: Network, a: seq<Step>, b: seq<Step>)
    ensures Go(com, g, a + b) == Go(com, Go(com, g, a), b)
    decreases |b|
  {
    if b == [] {
      assert a + b == a;
    } else {
      assert (a + b)[..|a + b| - 1] == a + b[..|b| - 1];
      GoOn(com, g, a, b[..|b| - 1]);
    }
  }

  lemma GoOne(com: Committee, g: Network, step: Step)
    ensures Go(com, g, [step]) == Next(com, g, step)
  {
    assert [step][..0] == [];
  }

  lemma GoTwo(com: Committee, g: Network, a: Step, b: Step)
    ensures Go(com, g, [a, b]) == Next(com, Next(com, g, a), b)
  {
    assert [a, b][..1] == [a];
    GoOne(com, g, a);
  }

  // ---- What one validator keeps --------------------------------------------------------------

  function KeyOf(v: Vote): VoteKey
  {
    VoteKey(v.height, v.round, v.stage)
  }

  /** Within a height and among votes of the given stages, rounds never go back, each round and stage
      has one block, and after a precommit every vote is for the precommitted block. */
  predicate Orderly(sent: seq<Vote>, stages: set<Stage>)
  {
    forall i, j :: 0 <= i < j < |sent| && sent[i].stage in stages && sent[j].stage in stages && sent[i].height == sent[j].height ==>
      InTurn(sent[i], sent[j])
  }

  predicate InTurn(v: Vote, w: Vote)
  {
    && v.round <= w.round
    && (v.round == w.round && v.stage == w.stage ==> v.blockHash == w.blockHash)
    && (v.stage == Precommit ==> w.blockHash == v.blockHash)
  }

  /** A vote that the validator signed for a block of that height and round. */
  predicate Own(cfg: Config, v: Vote)
  {
    && IsVoteStage(v.stage) && v == SignVote(v.height, v.round, v.stage, v.blockHash, cfg.id, cfg.com.algorithm)
    && v.blockHash.OfBlock? && v.blockHash.block.height == v.height && v.blockHash.block.round == v.round
  }

  predicate VotesRecorded(cfg: Config, s: NodeState)
  {
    forall k :: k in s.votes ==> k.height <= |s.commits| + 1 && KeyOf(s.votes[k]) == k && Own(cfg, s.votes[k])
  }

  /** A precommit at the height in progress is what the lock is for. */
  predicate PrecommitsLocked(s: NodeState)
  {
    forall k :: k in s.votes && k.stage == Precommit && k.height == |s.commits| + 1 ==>
      s.lock.height == k.height && s.lock.blockHash == s.votes[k].blockHash
  }

  /** A vote sent is remembered at least until its height is over. */
  predicate Remembered(s: NodeState, v: Vote)
  {
    && v.height <= |s.commits| + 1
    && (v.height == |s.commits| + 1 ==>
         KeyOf(v) in s.votes && s.votes[KeyOf(v)] == v && v.round <= RoundAt(s.currentRound, v.height))
  }

  predicate SentRecorded(cfg: Config, s: NodeState, sent: seq<Vote>, stages: set<Stage>)
  {
    && (forall i :: 0 <= i < |sent| ==> Own(cfg, sent[i]))
    && forall i :: 0 <= i < |sent| && sent[i].stage in stages ==> Remembered(s, sent[i])
  }

  predicate StoreBehind(s: NodeState)
  {
    forall h :: h in s.store.commits ==> h <= |s.commits|
  }

  predicate VoterInv(cfg: Config, s: NodeState, sent: seq<Vote>, stages: set<Stage>)
  {
    && VotesRecorded(cfg, s) && PrecommitsLocked(s)
    && SentRecorded(cfg, s, sent, stages) && Orderly(sent, stages) && StoreBehind(s)
  }

  lemma MarkKeepsVoter(cfg: Config, s: NodeState, sent: seq<Vote>, stages: set<Stage>, height: nat, round: nat)
    requires VoterInv(cfg, s, sent, stages)
    ensures VoterInv(cfg, Marked(s, height, round), sent, stages)
  {
    var s' := Marked(s, height, round);
    forall i | 0 <= i < |sent| && sent[i].stage in stages ensures Remembered(s', sent[i]) { assert Remembered(s, sent[i]); }
  }

  lemma VoteKeepsVoter(cfg: Config, s: NodeState, sent: seq<Vote>, stages: set<Stage>, b: Block, stage: Stage, qc: Option<Certificate>)
    requires VoterInv(cfg, s, sent, stages) && IsVoteStage(stage)
    ensures var (s', r) := VoteOn(cfg, s, b, stage, qc);
      VoterInv(cfg, s', sent + Answer(r), stages)
  {
    assert sent + [] == sent;
    if ProposalVerdict(cfg, s, b) == Pass {
      RecordKeepsVoter(cfg, s, sent, stages, b);
      CastKeepsVoter(cfg, RecordProposal(s, b), sent, stages, b, stage);
    }
  }

  lemma RecordKeepsVoter(cfg: Config, s: NodeState, sent: seq<Vote>, stages: set<Stage>, b: Block)
    requires VoterInv(cfg, s, sent, stages)
    ensures VoterInv(cfg, RecordProposal(s, b), sent, stages)
  {
    var recorded := s.(proposals := s.proposals[ProposalKey(b.height, b.round, b.proposerId) := b.Hash()]);
    forall i | 0 <= i < |sent| && sent[i].stage in stages ensures Remembered(recorded, sent[i]) { assert Remembered(s, sent[i]); }
    MarkKeepsVoter(cfg, recorded, sent, stages, b.height, b.round);
  }

  lemma CastKeepsVoter(cfg: Config, s: NodeState, sent: seq<Vote>, stages: set<Stage>, b: Block, stage: Stage)
    requires VoterInv(cfg, s, sent, stages) && IsVoteStage(stage)
    requires b.height == |s.commits| + 1 && RoundAt(s.currentRound, b.height) == b.round
    ensures var (s', r) := Cast(cfg, s, b, stage);
      VoterInv(cfg, s', sent + Answer(r), stages)
  {
    var (s', r) := Cast(cfg, s, b, stage);
    assert sent + [] == sent;
    if r.Ok? {
      NewVoteOrderly(cfg, s, sent, stages, r.value);
      if VoteKey(b.height, b.round, stage) in s.votes {
        MoreSent(cfg, s, sent, stages, r.value);
      } else {
        NewVoteKeeps(cfg, s, b, stage, s', r.value);
        NewVoteRemembered(cfg, s, sent, stages, s', r.value);
      }
    }
  }

  lemma NewVoteKeeps(cfg: Config, s: NodeState, b: Block, stage: Stage, s': NodeState, v: Vote)
    requires VotesRecorded(cfg, s) && PrecommitsLocked(s) && IsVoteStage(stage)
    requires b.height == |s.commits| + 1 && VoteKey(b.height, b.round, stage) !in s.votes
    requires LockAdmits(s.lock, b.height, b.Hash()) && Cast(cfg, s, b, stage) == (s', Ok(v))
    ensures VotesRecorded(cfg, s') && PrecommitsLocked(s') && Own(cfg, v)
  {
    forall k | k in s.votes && k.stage == Precommit && k.height == b.height ensures s.votes[k].blockHash == b.Hash() {
      assert s.lock.height == k.height;
    }
  }

  lemma MoreSent(cfg: Config, s: NodeState, sent: seq<Vote>, stages: set<Stage>, v: Vote)
    requires SentRecorded(cfg, s, sent, stages) && Own(cfg, v) && Remembered(s, v)
    ensures SentRecorded(cfg, s, sent + [v], stages)
  {
  }

  lemma NewVoteRemembered(cfg: Config, s: NodeState, sent: seq<Vote>, stages: set<Stage>, s': NodeState, v: Vote)
    requires SentRecorded(cfg, s, sent, stages) && KeyOf(v) !in s.votes && Own(cfg, v) && v.height == |s.commits| + 1
    requires s'.votes == s.votes[KeyOf(v) := v] && s'.commits == s.commits && s'.currentRound == s.currentRound
    requires v.round <= RoundAt(s.currentRound, v.height)
    ensures SentRecorded(cfg, s', sent + [v], stages)
  {
    forall i | 0 <= i < |sent| && sent[i].stage in stages ensures Remembered(s', sent[i]) { assert Remembered(s, sent[i]); }
    MoreSent(cfg, s', sent, stages, v);
  }

  /** A vote that the current round and the lock allow continues the list in order. */
  lemma NewVoteOrderly(cfg: Config, s: NodeState, sent: seq<Vote>, stages: set<Stage>, v: Vote)
    requires SentRecorded(cfg, s, sent, stages) && Orderly(sent, stages) && PrecommitsLocked(s)
    requires v.height == |s.commits| + 1 && RoundAt(s.currentRound, v.height) <= v.round
    requires s.lock.height == v.height ==> s.lock.blockHash == v.blockHash
    requires KeyOf(v) in s.votes ==> s.votes[KeyOf(v)].blockHash == v.blockHash
    ensures Orderly(sent + [v], stages)
  {
    forall i | 0 <= i < |sent| && sent[i].stage in stages && sent[i].height == v.height ensures InTurn(sent[i], v) {
      assert Remembered(s, sent[i]);
    }
  }

  lemma CommitKeepsVoter(cfg: Config, s: NodeState, sent: seq<Vote>, stages: set<Stage>, c: Commit)
    requires VoterInv(cfg, s, sent, stages)
    ensures VoterInv(cfg, Accept(cfg, s, c).0, sent, stages)
  {
    AcceptShape(cfg, s, c);
    var s' := Accept(cfg, s, c).0;
    forall i | 0 <= i < |sent| && sent[i].stage in stages ensures Remembered(s', sent[i]) { assert Remembered(s, sent[i]); }
  }

  /** A commit that is accepted opens the next height; otherwise nothing that votes depend on changes. */
  lemma AcceptShape(cfg: Config, s: NodeState, c: Commit)
    requires StoreBehind(s)
    ensures var s' := Accept(cfg, s, c).0;
      && s'.votes == s.votes && StoreBehind(s')
      && (s' == s || |s'.commits| == |s.commits| + 1)
  {
  }

  /** The validator has nothing recorded for these stages at the height in progress. */
  predicate Idle(s: NodeState, stages: set<Stage>)
  {
    forall k :: k in s.votes && k.stage in stages ==> k.height != |s.commits| + 1
  }

  lemma RebootKeepsVoter(cfg: Config, s: NodeState, sent: seq<Vote>, stages: set<Stage>)
    requires VoterInv(cfg, s, sent, stages) && Idle(s, stages)
    ensures VoterInv(cfg, Rebooted(s), sent, stages)
  {
    forall i | 0 <= i < |sent| && sent[i].stage in stages ensures Remembered(Rebooted(s), sent[i]) {
      assert Remembered(s, sent[i]);
    }
  }

  // ---- What the network keeps ----------------------------------------------------------------

  /** Which votes of the height in progress restarts may not make forget: those of the given stages, of
      the loyal validators. */
  datatype Care = Care(loyal: set<string>, stages: set<Stage>)
  {
    function Of(id: string): set<Stage> { if id in loyal then stages else {} }
  }

  /** The signature is that of a vote sent. */
  predicate Sent(sent: seq<Vote>, x: Signature)
  {
    exists i :: 0 <= i < |sent| && sent[i].signature == x
  }

  /** A ballot under the name of an honest validator is one that it sent. */
  predicate Unforged(g: Network)
  {
    forall x :: x in g.signed && x.Signed? && x.signer in g.sent ==> Sent(g.sent[x.signer], x)
  }

  predicate Voting(com: Committee, g: Network, care: Care)
  {
    && g.sent.Keys == g.nodes.Keys && Unforged(g)
    && forall id :: id in g.nodes ==> VoterInv(Config(id, com), g.nodes[id], g.sent[id], care.Of(id))
  }

  lemma SentMore(sent: seq<Vote>, more: seq<Vote>, x: Signature)
    requires Sent(sent, x) || Sent(more, x)
    ensures Sent(sent + more, x)
  {
    if Sent(sent, x) {
      var i :| 0 <= i < |sent| && sent[i].signature == x;
      assert (sent + more)[i].signature == x;
    } else {
      var i :| 0 <= i < |more| && more[i].signature == x;
      assert (sent + more)[|sent| + i].signature == x;
    }
  }

  /** A step of one validator that keeps its own invariant keeps the network's. */
  lemma OneStep(com: Committee, g: Network, id: string, s: NodeState, care: Care, signed: set<Signature>, more: seq<Vote>)
    requires Voting(com, g, care) && id in g.nodes && VoterInv(Config(id, com), s, g.sent[id] + more, care.Of(id))
    requires forall x :: x in signed ==> x in g.signed || (x.Signed? && x.signer == id && Sent(more, x))
    ensures Voting(com, Update(g, id, s, signed, g.sent[id] + more), care)
  {
    var g' := Update(g, id, s, signed, g.sent[id] + more);
    forall x | x in g'.signed && x.Signed? && x.signer in g'.sent ensures Sent(g'.sent[x.signer], x) {
      if x.signer == id {
        assert x in g.signed ==> Sent(g.sent[id], x);
        SentMore(g.sent[id], more, x);
      }
    }
  }

  /** The step is no restart of a validator that would forget votes under care. */
  predicate Careful(g: Network, step: Step, care: Care)
  {
    step.Reboot? && step.id in g.nodes ==> Idle(g.nodes[step.id], care.Of(step.id))
  }

  lemma StepKeepsVoting(com: Committee, g: Network, step: Step, care: Care)
    requires Voting(com, g, care) && Careful(g, step, care)
    ensures Voting(com, Next(com, g, step), care) && Next(com, g, step).nodes.Keys == g.nodes.Keys
  {
    NextKeys(com, g, step);
    if Possible(g, step) {
      match step
      case Sign(signature) =>
      case CastVote(id, block, stage, qc) => VoteKeepsVoting(com, g, id, block, stage, qc, care);
      case Mark(_, _, _) => OthersKeepVoting(com, g, step, care);
      case Deliver(_, _) => OthersKeepVoting(com, g, step, care);
      case Reboot(_) => OthersKeepVoting(com, g, step, care);
    }
  }

  lemma OthersKeepVoting(com: Committee, g: Network, step: Step, care: Care)
    requires Voting(com, g, care) && Careful(g, step, care) && Possible(g, step) && (step.Mark? || step.Deliver? || step.Reboot?)
    ensures Voting(com, Next(com, g, step), care)
  {
    var id := step.id;
    var cfg, s, sent := Config(id, com), g.nodes[id], g.sent[id];
    var s' := Next(com, g, step).nodes[id];
    match step {
      case Mark(_, height, round) => MarkKeepsVoter(cfg, s, sent, care.Of(id), height, round);
      case Deliver(_, commit) => CommitKeepsVoter(cfg, s, sent, care.Of(id), commit);
      case Reboot(_) => RebootKeepsVoter(cfg, s, sent, care.Of(id));
    }
    QuietStep(com, g, id, s', care);
  }

  /** A step without a vote. */
  lemma QuietStep(com: Committee, g: Network, id: string, s: NodeState, care: Care)
    requires Voting(com, g, care) && id in g.nodes && VoterInv(Config(id, com), s, g.sent[id], care.Of(id))
    ensures Voting(com, Update(g, id, s, g.signed, g.sent[id]), care)
  {
    assert g.sent[id] + [] == g.sent[id];
    OneStep(com, g, id, s, care, g.signed, []);
  }

  /** What a vote answer is. */
  lemma VoteAnswer(cfg: Config, s: NodeState, block: Block, stage: Stage, qc: Option<Certificate>)
    requires VotesRecorded(cfg, s) && IsVoteStage(stage)
    ensures var r := VoteOn(cfg, s, block, stage, qc).1;
      r.Ok? ==> r.value.signature.Signed? && r.value.signature.signer == cfg.id
  {
  }

  lemma VoteKeepsVoting(com: Committee, g: Network, id: string, block: Block, stage: Stage, qc: Option<Certificate>, care: Care)
    requires Voting(com, g, care) && Possible(g, CastVote(id, block, stage, qc))
    ensures Voting(com, Next(com, g, CastVote(id, block, stage, qc)), care)
  {
    var cfg := Config(id, com);
    var (s, r) := VoteOn(cfg, g.nodes[id], block, stage, qc);
    VoteKeepsVoter(cfg, g.nodes[id], g.sent[id], care.Of(id), block, stage, qc);
    VoteAnswer(cfg, g.nodes[id], block, stage, qc);
    if r.Ok? { assert Sent(Answer(r), r.value.signature) by { assert Answer(r)[0].signature == r.value.signature; } }
    OneStep(com, g, id, s, care, g.signed + SignatureOf(r), Answer(r));
  }

  /** No restart on the way makes a validator forget votes under care. */
  predicate CarefulGo(com: Committee, g: Network, steps: seq<Step>, care: Care)
    decreases |steps|
  {
    steps != [] ==>
      && CarefulGo(com, g, steps[..|steps| - 1], care)
      && Careful(Go(com, g, steps[..|steps| - 1]), steps[|steps| - 1], care)
  }

  predicate CarefulRun(com: Committee, honest: set<string>, steps: seq<Step>, care: Care)
  {
    CarefulGo(com, Start(honest), steps, care)
  }

  lemma {:induction false} CarefulOn(com: Committee, g: Network, a: seq<Step>, b: seq<Step>, care: Care)
    ensures CarefulGo(com, g, a + b, care) <==> CarefulGo(com, g, a, care) && CarefulGo(com, Go(com, g, a), b, care)
    decreases |b|
  {
    if b == [] {
      assert a + b == a;
    } else {
      assert (a + b)[..|a + b| - 1] == a + b[..|b| - 1];
      GoOn(com, g, a, b[..|b| - 1]);
      CarefulOn(com, g, a, b[..|b| - 1], care);
    }
  }

  lemma {:induction false} GoKeepsVoting(com: Committee, g: Network, steps: seq<Step>, care: Care)
    requires Voting(com, g, care) && CarefulGo(com, g, steps, care)
    ensures Voting(com, Go(com, g, steps), care)
    decreases |steps|
  {
    if steps != [] {
      var before := steps[..|steps| - 1];
      GoKeepsVoting(com, g, before, care);
      StepKeepsVoting(com, Go(com, g, before), steps[|steps| - 1], care);
    }
  }

  lemma {:induction false} GoKeys(com: Committee, g: Network, steps: seq<Step>)
    ensures Go(com, g, steps).nodes.Keys == g.nodes.Keys && Go(com, g, steps).sent.Keys == g.sent.Keys
    decreases |steps|
  {
    if steps != [] {
      GoKeys(com, g, steps[..|steps| - 1]);
      NextKeys(com, Go(com, g, steps[..|steps| - 1]), steps[|steps| - 1]);
    }
  }

  lemma RunKeys(com: Committee, honest: set<string>, steps: seq<Step>)
    ensures Run(com, honest, steps).nodes.Keys == honest == Run(com, honest, steps).sent.Keys
  {
    GoKeys(com, Start(honest), steps);
  }

  lemma RunKeepsVoting(com: Committee, honest: set<string>, steps: seq<Step>, care: Care)
    requires CarefulRun(com, honest, steps, care)
    ensures Voting(com, Run(com, honest, steps), care) && Run(com, honest, steps).nodes.Keys == honest
  {
    GoKeepsVoting(com, Start(honest), steps, care);
    RunKeys(com, honest, steps);
  }

  lemma NextKeys(com: Committee, g: Network, step: Step)
    ensures Next(com, g, step).nodes.Keys == g.nodes.Keys && Next(com, g, step).sent.Keys == g.sent.Keys
  {
  }

  predicate CommitsKnown(commits: seq<Commit>, signed: set<Signature>)
  {
    forall k :: 0 <= k < |commits| ==> Known(commits[k].certificate, signed)
  }

  predicate LogInv(cfg: Config, s: NodeState, signed: set<Signature>)
  {
    ChainInv(cfg.com, s) && StoreInv(cfg, s) && CommitsKnown(s.commits, signed)
  }

  predicate Chained(com: Committee, g: Network)
  {
    forall id :: id in g.nodes ==> LogInv(Config(id, com), g.nodes[id], g.signed)
  }

  /** A step of one validator, with more signatures in circulation, keeps the logs of the others. */
  lemma OneLog(com: Committee, g: Network, id: string, s: NodeState, signed: set<Signature>, sent: seq<Vote>)
    requires Chained(com, g) && g.signed <= signed && LogInv(Config(id, com), s, signed)
    ensures Chained(com, Update(g, id, s, signed, sent))
  {
    forall x | x in g.nodes ensures CommitsKnown(g.nodes[x].commits, signed) {
      assert LogInv(Config(x, com), g.nodes[x], g.signed);
    }
  }

  /** Votes and rounds are not part of the log. */
  lemma SameLog(cfg: Config, s: NodeState, t: NodeState, signed: set<Signature>, signed': set<Signature>)
    requires LogInv(cfg, s, signed) && signed <= signed'
    requires SameRecord(s, t)
    ensures LogInv(cfg, t, signed')
  {
  }

  lemma StepKeepsChained(com: Committee, g: Network, step: Step)
    requires Chained(com, g)
    ensures Chained(com, Next(com, g, step))
  {
    if Possible(g, step) {
      match step
      case Sign(signature) => SignKeepsChained(com, g, signature);
      case Mark(id, height, round) =>
        SameLogKept(com, g, id, Marked(g.nodes[id], height, round));
      case CastVote(id, block, stage, qc) => VoteKeepsChained(com, g, id, block, stage, qc);
      case Deliver(id, commit) =>
        AcceptKeepsLog(Config(id, com), g.nodes[id], commit, g.signed);
        OneLog(com, g, id, Accept(Config(id, com), g.nodes[id], commit).0, g.signed, g.sent[id]);
      case Reboot(id) => SameLogKept(com, g, id, Rebooted(g.nodes[id]));
    }
  }

  lemma SameLogKept(com: Committee, g: Network, id: string, s: NodeState)
    requires Chained(com, g) && id in g.nodes && id in g.sent && SameRecord(g.nodes[id], s)
    ensures Chained(com, Update(g, id, s, g.signed, g.sent[id]))
  {
    SameLog(Config(id, com), g.nodes[id], s, g.signed, g.signed);
    OneLog(com, g, id, s, g.signed, g.sent[id]);
  }

  lemma SignKeepsChained(com: Committee, g: Network, x: Signature)
    requires Chained(com, g)
    ensures Chained(com, g.(signed := g.signed + {x}))
  {
    forall id | id in g.nodes ensures LogInv(Config(id, com), g.nodes[id], g.signed + {x}) {
      SameLog(Config(id, com), g.nodes[id], g.nodes[id], g.signed, g.signed + {x});
    }
  }

  lemma VoteKeepsChained(com: Committee, g: Network, id: string, block: Block, stage: Stage, qc: Option<Certificate>)
    requires Chained(com, g) && Possible(g, CastVote(id, block, stage, qc))
    ensures Chained(com, Next(com, g, CastVote(id, block, stage, qc)))
  {
    var (s, r) := VoteOn(Config(id, com), g.nodes[id], block, stage, qc);
    VoteKeepsChain(Config(id, com), g.nodes[id], block, stage, qc);
    SameLog(Config(id, com), g.nodes[id], s, g.signed, g.signed + SignatureOf(r));
    OneLog(com, g, id, s, g.signed + SignatureOf(r), g.sent[id] + Answer(r));
  }

  lemma AcceptKeepsLog(cfg: Config, s: NodeState, c: Commit, signed: set<Signature>)
    requires LogInv(cfg, s, signed) && Known(c.certificate, signed)
    ensures LogInv(cfg, Accept(cfg, s, c).0, signed)
  {
    AcceptKeepsChain(cfg, s, c);
  }

  lemma {:induction false} GoKeepsChained(com: Committee, g: Network, steps: seq<Step>)
    requires Chained(com, g)
    ensures Chained(com, Go(com, g, steps))
    decreases |steps|
  {
    if steps != [] {
      var before := steps[..|steps| - 1];
      GoKeepsChained(com, g, before);
      StepKeepsChained(com, Go(com, g, before), steps[|steps| - 1]);
    }
  }

  lemma RunKeepsChained(com: Committee, honest: set<string>, steps: seq<Step>)
    ensures Chained(com, Run(com, honest, steps))
  {
    GoKeepsChained(com, Start(honest), steps);
  }

  // ---- Main theorems -------------------------------------------------------------------------

  const BALLOTS: set<Stage> := {Prevote, Precommit}
  const PRECOMMITS: set<Stage> := {Precommit}

  /** Every honest validator votes in order, over every run in which no restart makes it forget a vote of
      the height in progress; after a precommit it never votes in another round of that height. */
  lemma HonestVoter(com: Committee, honest: set<string>, steps: seq<Step>, id: string)
    requires id in honest && CarefulRun(com, honest, steps, Care({id}, BALLOTS))
    ensures id in Run(com, honest, steps).sent
    ensures var sent := Run(com, honest, steps).sent[id];
      && Orderly(sent, BALLOTS)
      && forall i, j :: 0 <= i < j < |sent| && sent[i].height == sent[j].height && sent[i].stage == Precommit ==>
           sent[j].round == sent[i].round && sent[j].blockHash == sent[i].blockHash
  {
    RunKeepsVoting(com, honest, steps, Care({id}, BALLOTS));
    var g := Run(com, honest, steps);
    var sent := g.sent[id];
    assert VoterInv(Config(id, com), g.nodes[id], sent, BALLOTS);
    forall i, j | 0 <= i < j < |sent| && sent[i].height == sent[j].height && sent[i].stage == Precommit
      ensures sent[j].round == sent[i].round && sent[j].blockHash == sent[i].blockHash
    {
      assert Own(Config(id, com), sent[i]) && Own(Config(id, com), sent[j]) && InTurn(sent[i], sent[j]);
    }
  }

  /** The committee outvotes those that are not loyal twice over: any two quorums share a loyal member. */
  predicate QuorumBound(com: Committee, loyal: set<string>)
  {
    2 * com.threshold > |com.identities| + |com.identities.Keys - loyal|
  }

  /** An accepted commit, put together from signatures that were made. */
  predicate Certified(com: Committee, g: Network, c: Commit)
  {
    VerifyCommit(com, c) == Pass && Known(c.certificate, g.signed)
  }

  function PrecommitOf(id: string, b: Block): Signature
  {
    Signed(id, Ballot(b.height, b.round, Precommit, b.Hash(), id, ToCommit))
  }

  /** What an accepted commit is certified for. */
  lemma VerifiedCertificate(com: Committee, c: Commit)
    requires VerifyCommit(com, c) == Pass
    ensures ValidCertificate(c.certificate, com) && c.certificate.threshold == com.threshold
    ensures SlotOf(c.certificate) == Slot(c.block.height, c.block.round, Precommit, c.block.Hash(), ToCommit)
  {
    VerdictMeaning(c.certificate, com);
  }

  lemma CertifiedQuorum(com: Committee, g: Network, c: Commit)
    requires Certified(com, g, c)
    ensures Voters(c.certificate.votes) <= com.identities.Keys && |Voters(c.certificate.votes)| >= com.threshold
    ensures forall x :: x in Voters(c.certificate.votes) ==> PrecommitOf(x, c.block) in g.signed
  {
    VerifiedCertificate(com, c);
    CountVoters(c.certificate.votes);
    QuorumSigned(com, c.block, c.certificate.votes, g.signed);
  }

  lemma QuorumSigned(com: Committee, b: Block, votes: seq<Vote>, signed: set<Signature>)
    requires forall i :: 0 <= i < |votes| ==> votes[i].signature in signed
    requires forall i :: 0 <= i < |votes| ==> GoodVote(votes[i], Slot(b.height, b.round, Precommit, b.Hash(), ToCommit), com)
    ensures forall x :: x in Voters(votes) ==> x in com.identities && PrecommitOf(x, b) in signed
  {
    VotersMeaning(votes);
    forall x | x in Voters(votes) ensures x in com.identities && PrecommitOf(x, b) in signed {
      var i :| 0 <= i < |votes| && votes[i].voterId == x;
      assert GoodVote(votes[i], Slot(b.height, b.round, Precommit, b.Hash(), ToCommit), com);
    }
  }

  /** Agreement: in every run, if only validators that are not loyal are ever restarted so that they forget a
      precommit of the height in progress, and any two quorums share a loyal member, any two commits that a
      validator would accept at one height, whatever their rounds, carry the same block. */
  lemma Agreement(com: Committee, honest: set<string>, loyal: set<string>, steps: seq<Step>, c: Commit, d: Commit)
    requires loyal <= honest && loyal <= com.identities.Keys && QuorumBound(com, loyal)
    requires CarefulRun(com, honest, steps, Care(loyal, PRECOMMITS))
    requires Certified(com, Run(com, honest, steps), c) && Certified(com, Run(com, honest, steps), d)
    requires c.block.height == d.block.height
    ensures c.block == d.block
  {
    RunKeepsVoting(com, honest, steps, Care(loyal, PRECOMMITS));
    CertifiedAgree(com, Run(com, honest, steps), loyal, c, d);
  }

  lemma CertifiedAgree(com: Committee, g: Network, loyal: set<string>, c: Commit, d: Commit)
    requires Voting(com, g, Care(loyal, PRECOMMITS)) && loyal <= g.nodes.Keys && loyal <= com.identities.Keys && QuorumBound(com, loyal)
    requires Certified(com, g, c) && Certified(com, g, d) && c.block.height == d.block.height
    ensures c.block == d.block
  {
    var x := CommonSigner(com, g, loyal, c, d);
    SamePrecommit(Config(x, com), g.nodes[x], g.sent[x], c.block, d.block);
  }

  /** Two certified commits share a loyal validator that precommitted both. */
  lemma CommonSigner(com: Committee, g: Network, loyal: set<string>, c: Commit, d: Commit) returns (x: string)
    requires Unforged(g) && loyal <= g.sent.Keys && loyal <= com.identities.Keys && QuorumBound(com, loyal)
    requires Certified(com, g, c) && Certified(com, g, d)
    ensures x in loyal
    ensures Sent(g.sent[x], PrecommitOf(x, c.block)) && Sent(g.sent[x], PrecommitOf(x, d.block))
  {
    CertifiedQuorum(com, g, c);
    CertifiedQuorum(com, g, d);
    assert |com.identities| == |com.identities.Keys|;
    x := QuorumsMeet(com.identities.Keys, com.identities.Keys - loyal, Voters(c.certificate.votes), Voters(d.certificate.votes), com.threshold);
    assert PrecommitOf(x, c.block) in g.signed && PrecommitOf(x, d.block) in g.signed;
  }

  /** An honest validator precommits one block per height. */
  lemma SamePrecommit(cfg: Config, s: NodeState, sent: seq<Vote>, b: Block, e: Block)
    requires VoterInv(cfg, s, sent, PRECOMMITS) && b.height == e.height
    requires Sent(sent, PrecommitOf(cfg.id, b)) && Sent(sent, PrecommitOf(cfg.id, e))
    ensures b == e
  {
    var i :| 0 <= i < |sent| && sent[i].signature == PrecommitOf(cfg.id, b);
    var j :| 0 <= j < |sent| && sent[j].signature == PrecommitOf(cfg.id, e);
    assert Own(cfg, sent[i]) && Own(cfg, sent[j]);
    assert i < j ==> InTurn(sent[i], sent[j]);
    assert j < i ==> InTurn(sent[j], sent[i]);
  }

  /** The replicated log: under the same conditions the logs of two honest validators agree block for block
      as far as both go, each is linked from GENESIS, and validators at the same height have the same last
      hash and the same machine. */
  lemma ReplicatedLog(com: Committee, honest: set<string>, loyal: set<string>, steps: seq<Step>, i: string, j: string)
    requires loyal <= honest && loyal <= com.identities.Keys && QuorumBound(com, loyal) && i in honest && j in honest
    requires CarefulRun(com, honest, steps, Care(loyal, PRECOMMITS))
    ensures var g := Run(com, honest, steps);
      && i in g.nodes && j in g.nodes
      && ChainInv(com, g.nodes[i])
      && (forall k :: 0 <= k < |g.nodes[i].commits| && k < |g.nodes[j].commits| ==>
           g.nodes[i].commits[k].block == g.nodes[j].commits[k].block)
      && (|g.nodes[i].commits| == |g.nodes[j].commits| ==>
           g.nodes[i].lastHash == g.nodes[j].lastHash && g.nodes[i].machine == g.nodes[j].machine)
  {
    RunKeepsVoting(com, honest, steps, Care(loyal, PRECOMMITS));
    RunKeepsChained(com, honest, steps);
    LogsAgree(com, Run(com, honest, steps), loyal, i, j);
  }

  lemma LogsAgree(com: Committee, g: Network, loyal: set<string>, i: string, j: string)
    requires Voting(com, g, Care(loyal, PRECOMMITS)) && Chained(com, g)
    requires loyal <= g.nodes.Keys && loyal <= com.identities.Keys && QuorumBound(com, loyal)
    requires i in g.nodes && j in g.nodes
    ensures forall k :: 0 <= k < |g.nodes[i].commits| && k < |g.nodes[j].commits| ==>
      g.nodes[i].commits[k].block == g.nodes[j].commits[k].block
    ensures |g.nodes[i].commits| == |g.nodes[j].commits| ==>
      g.nodes[i].lastHash == g.nodes[j].lastHash && g.nodes[i].machine == g.nodes[j].machine
  {
    var a, b := g.nodes[i].commits, g.nodes[j].commits;
    forall k | 0 <= k < |a| && k < |b| ensures a[k].block == b[k].block {
      LogCertified(com, g, i, k);
      LogCertified(com, g, j, k);
      CertifiedAgree(com, g, loyal, a[k], b[k]);
    }
    if |a| == |b| { SameBlocks(a, b); }
  }

  lemma LogCertified(com: Committee, g: Network, i: string, k: nat)
    requires Chained(com, g) && i in g.nodes && k < |g.nodes[i].commits|
    ensures Certified(com, g, g.nodes[i].commits[k]) && g.nodes[i].commits[k].block.height == k + 1
  {
    LinkedNumbered(com, g.nodes[i].commits);
    LinkedVerified(com, g.nodes[i].commits, k);
  }

  // ---- A block that enough validators have precommitted --------------------------------------

  /** The loyal validators that have precommitted the block. */
  function Precommitters(g: Network, loyal: set<string>, b: Block): set<string>
  {
    set id | id in loyal && id in g.sent && Sent(g.sent[id], PrecommitOf(id, b))
  }

  lemma NextSent(com: Committee, g: Network, step: Step, id: string, x: Signature)
    requires id in g.sent && Sent(g.sent[id], x)
    ensures id in Next(com, g, step).sent && Sent(Next(com, g, step).sent[id], x)
  {
    if Possible(g, step) && step.CastVote? && step.id == id {
      var r := VoteOn(Config(id, com), g.nodes[id], step.block, step.stage, step.qc).1;
      SentMore(g.sent[id], Answer(r), x);
    }
  }

  /** What was sent stays sent. */
  lemma {:induction false} StaysSent(com: Committee, g: Network, steps: seq<Step>, id: string, x: Signature)
    requires id in g.sent && Sent(g.sent[id], x)
    ensures id in Go(com, g, steps).sent && Sent(Go(com, g, steps).sent[id], x)
    decreases |steps|
  {
    if steps != [] {
      StaysSent(com, g, steps[..|steps| - 1], id, x);
      NextSent(com, Go(com, g, steps[..|steps| - 1]), steps[|steps| - 1], id, x);
    }
  }

  /** If at some point of a run fewer validators than the threshold are without a loyal precommit for a
      block, then from there on no other block of that height is ever certified, committed or not. */
  lemma OnlyThatBlock(com: Committee, honest: set<string>, loyal: set<string>, steps: seq<Step>, more: seq<Step>, b: Block, d: Commit)
    requires loyal <= honest && CarefulRun(com, honest, steps + more, Care(loyal, PRECOMMITS))
    requires |com.identities.Keys - Precommitters(Run(com, honest, steps), loyal, b)| < com.threshold
    requires Certified(com, Run(com, honest, steps + more), d) && d.block.height == b.height
    ensures d.block == b
  {
    RunKeepsVoting(com, honest, steps + more, Care(loyal, PRECOMMITS));
    GoOn(com, Start(honest), steps, more);
    OnlyBlockLeft(com, Run(com, honest, steps), loyal, more, b, d);
  }

  lemma OnlyBlockLeft(com: Committee, g: Network, loyal: set<string>, more: seq<Step>, b: Block, d: Commit)
    requires Voting(com, Go(com, g, more), Care(loyal, PRECOMMITS))
    requires |com.identities.Keys - Precommitters(g, loyal, b)| < com.threshold
    requires Certified(com, Go(com, g, more), d) && d.block.height == b.height
    ensures d.block == b
  {
    var g', ready := Go(com, g, more), Precommitters(g, loyal, b);
    CertifiedQuorum(com, g', d);
    var voters := Voters(d.certificate.votes);
    if voters !! ready { SubsetSize(voters, com.identities.Keys - ready); }
    var x :| x in voters && x in ready;
    StaysSent(com, g, more, x, PrecommitOf(x, b));
    assert PrecommitOf(x, d.block) in g'.signed;
    SamePrecommit(Config(x, com), g'.nodes[x], g'.sent[x], b, d.block);
  }

  // ---- A height that is dead -----------------------------------------------------------------

  /** The validator is at the block's height, beyond its round, without a precommit for it. */
  predicate Beyond(g: Network, q: string, b: Block)
  {
    && q in g.nodes && q in g.sent && |g.nodes[q].commits| + 1 == b.height
    && RoundAt(g.nodes[q].currentRound, b.height) > b.round && !Sent(g.sent[q], PrecommitOf(q, b))
  }

  /** It can only vote for later rounds. */
  lemma BeyondVotes(com: Committee, g: Network, care: Care, q: string, b: Block, e: Block, stage: Stage, qc: Option<Certificate>)
    requires Voting(com, g, care) && Beyond(g, q, b) && Possible(g, CastVote(q, e, stage, qc))
    ensures Beyond(Next(com, g, CastVote(q, e, stage, qc)), q, b)
  {
    var cfg, s := Config(q, com), g.nodes[q];
    assert VoterInv(cfg, s, g.sent[q], care.Of(q));
    VoteKeepsChain(cfg, s, e, stage, qc);
    LaterVote(cfg, s, e, stage, qc, b.height, b.round);
    var (s', r) := VoteOn(cfg, s, e, stage, qc);
    NotSentMore(g.sent[q], r, q, b);
    BeyondStays(g, q, b, s', g.signed + SignatureOf(r), g.sent[q] + Answer(r));
  }

  lemma NotSentMore(sent: seq<Vote>, r: Result<Vote>, q: string, b: Block)
    requires !Sent(sent, PrecommitOf(q, b)) && (r.Ok? ==> r.value.signature.Signed? && r.value.signature.ballot.round > b.round)
    ensures !Sent(sent + Answer(r), PrecommitOf(q, b))
  {
  }

  lemma BeyondStays(g: Network, q: string, b: Block, s: NodeState, signed: set<Signature>, sent: seq<Vote>)
    requires Beyond(g, q, b) && s.commits == g.nodes[q].commits && RoundAt(s.currentRound, b.height) > b.round && !Sent(sent, PrecommitOf(q, b))
    ensures Beyond(Update(g, q, s, signed, sent), q, b)
  {
  }

  lemma LaterVote(cfg: Config, s: NodeState, e: Block, stage: Stage, qc: Option<Certificate>, height: nat, round: nat)
    requires VotesRecorded(cfg, s) && IsVoteStage(stage) && height == |s.commits| + 1 && RoundAt(s.currentRound, height) > round
    ensures var (s', r) := VoteOn(cfg, s, e, stage, qc);
      && RoundAt(s'.currentRound, height) > round
      && (r.Ok? ==> r.value.signature.Signed? && r.value.signature.ballot.round > round)
  {
    if ProposalVerdict(cfg, s, e) == Pass {
      var recorded := RecordProposal(s, e);
      assert e.round > round && RoundAt(recorded.currentRound, height) > round;
      assert VotesRecorded(cfg, recorded);
      LaterCast(cfg, recorded, e, stage, round);
    }
  }

  lemma LaterCast(cfg: Config, s: NodeState, e: Block, stage: Stage, round: nat)
    requires VotesRecorded(cfg, s) && IsVoteStage(stage) && e.round > round
    ensures var (s', r) := Cast(cfg, s, e, stage);
      && s'.currentRound == s.currentRound
      && (r.Ok? ==> r.value.signature.Signed? && r.value.signature.ballot.round > round)
  {
  }

  /** A step keeps a validator beyond the block, unless it restarts it or a commit of the height can be
      delivered. */
  lemma StaysBeyond(com: Committee, g: Network, care: Care, step: Step, q: string, b: Block)
    requires Voting(com, g, care) && Beyond(g, q, b) && !(step.Reboot? && step.id == q)
    requires forall c :: Certified(com, g, c) ==> c.block.height != b.height
    ensures Beyond(Next(com, g, step), q, b)
  {
    if Possible(g, step) && !step.Sign? && step.id == q {
      match step
      case CastVote(_, e, stage, qc) => BeyondVotes(com, g, care, q, b, e, stage, qc);
      case Mark(_, _, _) =>
      case Deliver(_, c) => NotAccepted(Config(q, com), g, q, b.height, c);
    }
  }

  lemma NotAccepted(cfg: Config, g: Network, q: string, height: nat, c: Commit)
    requires q in g.nodes && |g.nodes[q].commits| + 1 == height && Known(c.certificate, g.signed)
    requires Certified(cfg.com, g, c) ==> c.block.height != height
    ensures Accept(cfg, g.nodes[q], c).0 == g.nodes[q]
  {
  }

  /** With too few left to certify another block, and too few left to certify this one, no block of the
      height is certified. */
  lemma NoneCertified(com: Committee, g: Network, loyal: set<string>, more: seq<Step>, b: Block, late: set<string>, d: Commit)
    requires Voting(com, Go(com, g, more), Care(loyal, PRECOMMITS))
    requires |com.identities.Keys - Precommitters(g, loyal, b)| < com.threshold && |com.identities.Keys - late| < com.threshold
    requires forall q :: q in late ==> Beyond(Go(com, g, more), q, b)
    ensures Certified(com, Go(com, g, more), d) ==> d.block.height != b.height
  {
    var g' := Go(com, g, more);
    if Certified(com, g', d) && d.block.height == b.height {
      OnlyBlockLeft(com, g, loyal, more, b, d);
      CertifiedQuorum(com, g', d);
      var voters := Voters(d.certificate.votes);
      if voters !! late { SubsetSize(voters, com.identities.Keys - late); }
    }
  }

  lemma {:induction false} AllStayBeyond(com: Committee, g: Network, loyal: set<string>, more: seq<Step>, b: Block, late: set<string>)
    requires Voting(com, g, Care(loyal, PRECOMMITS)) && CarefulGo(com, g, more, Care(loyal, PRECOMMITS))
    requires |com.identities.Keys - Precommitters(g, loyal, b)| < com.threshold && |com.identities.Keys - late| < com.threshold
    requires forall q :: q in late ==> Beyond(g, q, b)
    requires forall i :: 0 <= i < |more| && more[i].Reboot? ==> more[i].id !in late
    ensures forall q :: q in late ==> Beyond(Go(com, g, more), q, b)
    decreases |more|
  {
    if more != [] {
      var before, step := more[..|more| - 1], more[|more| - 1];
      assert forall i :: 0 <= i < |before| ==> before[i] == more[i];
      AllStayBeyond(com, g, loyal, before, b, late);
      GoKeepsVoting(com, g, before, Care(loyal, PRECOMMITS));
      var g' := Go(com, g, before);
      forall c ensures Certified(com, g', c) ==> c.block.height != b.height { NoneCertified(com, g, loyal, before, b, late, c); }
      forall q | q in late ensures Beyond(Next(com, g', step), q, b) { StaysBeyond(com, g', Care(loyal, PRECOMMITS), step, q, b); }
    }
  }

  /** A dead height: if fewer validators than the threshold are without a loyal precommit for a block, and
      fewer than the threshold are not beyond its round without one, no block of its height is ever
      certified, as long as those beyond it are not restarted: a lock is never released. */
  lemma DeadHeight(com: Committee, honest: set<string>, loyal: set<string>, steps: seq<Step>, more: seq<Step>, b: Block, late: set<string>, d: Commit)
    requires loyal <= honest && CarefulRun(com, honest, steps + more, Care(loyal, PRECOMMITS))
    requires |com.identities.Keys - Precommitters(Run(com, honest, steps), loyal, b)| < com.threshold
    requires |com.identities.Keys - late| < com.threshold && forall q :: q in late ==> Beyond(Run(com, honest, steps), q, b)
    requires forall i :: 0 <= i < |more| && more[i].Reboot? ==> more[i].id !in late
    requires Certified(com, Run(com, honest, steps + more), d)
    ensures d.block.height != b.height
  {
    var care := Care(loyal, PRECOMMITS);
    CarefulOn(com, Start(honest), steps, more, care);
    RunKeepsVoting(com, honest, steps, care);
    GoKeepsVoting(com, Run(com, honest, steps), more, care);
    GoOn(com, Start(honest), steps, more);
    AllStayBeyond(com, Run(com, honest, steps), loyal, more, b, late);
    NoneCertified(com, Run(com, honest, steps), loyal, more, b, late, d);
  }
}
