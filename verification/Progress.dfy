/** One round of a proposer: collecting prevotes and precommits, committing and broadcasting
    (consensus/validator/node.go).

    `nodes` holds the validators that answer as module `Node` says; what any other peer answers is
    given by `foreign` and may be anything. */
module Progress {
  import opened Messages
  import opened StateMachine
  import opened Protocol
  import opened Node
  import opened Chain
  import Safety

  type Nodes = map<string, NodeState>

  datatype Request = Request(proposal: Proposal, stage: Stage, qc: Option<Certificate>)

  function NewBlock(cfg: Config, s: NodeState, height: nat, round: nat, payload: string, now: int): Result<Block>
  {
    if height != |s.commits| + 1 then Err(HeightMismatch) else
    var txs := TransactionsFromPayload(payload);
    match Transition(s.machine, txs)
    case Err(e) => Err(e)
    case Ok(next) => Ok(Block(height, round, s.lastHash, payload, txs, next.digest, cfg.id, 0, "", now))
  }

  /** How a peer answers a proposal or a precommit request. */
  function HandleRequest(cfg: Config, s: NodeState, req: Request): (NodeState, Result<Vote>)
  {
    match VerifyProposal(req.proposal, cfg.com)
    case Fail(e) => (s, Err(e))
    case Pass => VoteOn(cfg, s, req.proposal.block, req.stage, req.qc)
  }

  // ---- One validator through the round -------------------------------------------------------

  /** A validator that can still vote for block `b`: the block is acceptable, the lock allows it, and
      in phase 0 neither stage, in phase 1 only the precommit, and in phase 2 nothing is left to vote.
      Its log is that of `base`. */
  predicate Ready(cfg: Config, base: NodeState, s: NodeState, b: Block, phase: nat)
  {
    && s.commits == base.commits && s.lastHash == base.lastHash && s.machine == base.machine && s.store == base.store
    && ProposalVerdict(cfg, s, b) == Pass && LockAdmits(s.lock, b.height, b.Hash())
    && (phase == 0 ==> VoteKey(b.height, b.round, Prevote) !in s.votes)
    && (phase <= 1 ==> VoteKey(b.height, b.round, Precommit) !in s.votes)
  }

  function VoteOf(com: Committee, q: string, b: Block, stage: Stage): Vote
  {
    SignVote(b.height, b.round, stage, b.Hash(), q, com.algorithm)
  }

  /** The request for a phase, acceptable to everybody. */
  predicate Asks(com: Committee, req: Request, phase: nat)
  {
    && VerifyProposal(req.proposal, com) == Pass
    && ((phase == 0 && req.stage == Prevote) ||
        (phase == 1 && req.stage == Precommit && PrevoteVerdict(Config("", com), req.proposal.block, req.qc) == Pass))
  }

  lemma CastAdvances(cfg: Config, base: NodeState, s: NodeState, b: Block, phase: nat, stage: Stage)
    requires Ready(cfg, base, s, b, phase) && ((phase == 0 && stage == Prevote) || (phase == 1 && stage == Precommit))
    ensures var (s', r) := Cast(cfg, RecordProposal(s, b), b, stage);
      r == Ok(VoteOf(cfg.com, cfg.id, b, stage)) && Ready(cfg, base, s', b, phase + 1)
  {
  }

  lemma RequestAdvances(cfg: Config, base: NodeState, s: NodeState, phase: nat, req: Request)
    requires Asks(cfg.com, req, phase) && Ready(cfg, base, s, req.proposal.block, phase)
    ensures var (s', r) := HandleRequest(cfg, s, req);
      && HandleRequest(cfg, s, req) == VoteOn(cfg, s, req.proposal.block, req.stage, req.qc)
      && r == Ok(VoteOf(cfg.com, cfg.id, req.proposal.block, req.stage))
      && Ready(cfg, base, s', req.proposal.block, phase + 1)
  {
    CastAdvances(cfg, base, s, req.proposal.block, phase, req.stage);
  }

  predicate Member(com: Committee, q: string)
  {
    q in com.identities && com.identities[q].algorithm == com.algorithm
  }

  lemma MemberVerified(com: Committee, q: string, b: Block, stage: Stage)
    requires Member(com, q) && b.height > 0 && IsVoteStage(stage)
    ensures VerifyVote(VoteOf(com, q, b, stage), com) == Pass
  {
  }

  /** A ready validator applies a commit of the block. */
  lemma ReadyAccepts(cfg: Config, base: NodeState, s: NodeState, b: Block, c: Commit, phase: nat)
    requires Ready(cfg, base, s, b, phase) && c.block == b && VerifyCommit(cfg.com, c) == Pass
    requires |base.commits| + 1 !in base.store.commits
    ensures var (s', r) := Accept(cfg, s, c);
      && r == Pass && s'.commits == base.commits + [c] && s'.lastHash == b.Hash()
      && Transition(base.machine, b.transactions) == Ok(s'.machine)
  {
  }

  // ---- The loops of the proposer -------------------------------------------------------------

  predicate AllReady(com: Committee, base: Nodes, nodes: Nodes, ids: set<string>, b: Block, phase: nat)
  {
    forall q :: q in ids ==> q in base && q in nodes && Ready(Config(q, com), base[q], nodes[q], b, phase)
  }

  predicate AllVoted(com: Committee, ids: set<string>, b: Block, stage: Stage, votes: seq<Vote>)
  {
    forall q :: q in ids ==> VoteOf(com, q, b, stage) in votes
  }

  predicate AllMembers(com: Committee, ids: set<string>)
  {
    forall q :: q in ids ==> Member(com, q)
  }

  predicate AllVerified(com: Committee, votes: seq<Vote>)
  {
    forall i :: 0 <= i < |votes| ==> VerifyVote(votes[i], com) == Pass
  }

  predicate Distinct(peers: seq<string>)
  {
    forall i, j :: 0 <= i < j < |peers| ==> peers[i] != peers[j]
  }

  predicate Covers(peers: seq<string>, ids: set<string>)
  {
    Distinct(peers) && forall q :: q in ids ==> q in peers
  }

  /** Asking one peer. */
  function Ask(com: Committee, nodes: Nodes, q: string, req: Request, foreign: (string, Stage) -> Option<Vote>): (Nodes, Option<Vote>)
  {
    if q in nodes then
      var (s, r) := HandleRequest(Config(q, com), nodes[q], req);
      (nodes[q := s], if r.Ok? then Some(r.value) else None)
    else (nodes, foreign(q, req.stage))
  }

  /** An answer counts if its signature verifies. */
  function Keep(com: Committee, votes: seq<Vote>, reply: Option<Vote>): seq<Vote>
  {
    if reply.Some? && VerifyVote(reply.value, com) == Pass then votes + [reply.value] else votes
  }

  /** The validators in `waiting` have not been asked, those in `done` have voted. */
  predicate Halfway(com: Committee, base: Nodes, nodes: Nodes, votes: seq<Vote>, waiting: set<string>, done: set<string>, req: Request, phase: nat)
  {
    && AllReady(com, base, nodes, waiting, req.proposal.block, phase)
    && AllReady(com, base, nodes, done, req.proposal.block, phase + 1)
    && AllVoted(com, done, req.proposal.block, req.stage, votes)
  }

  lemma AskWaiting(com: Committee, base: Nodes, nodes: Nodes, votes: seq<Vote>, waiting: set<string>, done: set<string>, q: string,
                   req: Request, phase: nat, foreign: (string, Stage) -> Option<Vote>)
    requires Halfway(com, base, nodes, votes, waiting, done, req, phase) && q in waiting && q !in done
    requires Asks(com, req, phase) && Member(com, q)
    ensures var (nodes', reply) := Ask(com, nodes, q, req, foreign);
      Halfway(com, base, nodes', Keep(com, votes, reply), waiting - {q}, done + {q}, req, phase)
  {
    RequestAdvances(Config(q, com), base[q], nodes[q], phase, req);
    MemberVerified(com, q, req.proposal.block, req.stage);
  }

  lemma AskOther(com: Committee, base: Nodes, nodes: Nodes, votes: seq<Vote>, waiting: set<string>, done: set<string>, q: string,
                 req: Request, phase: nat, foreign: (string, Stage) -> Option<Vote>)
    requires Halfway(com, base, nodes, votes, waiting, done, req, phase) && q !in waiting && q !in done
    ensures var (nodes', reply) := Ask(com, nodes, q, req, foreign);
      Halfway(com, base, nodes', Keep(com, votes, reply), waiting, done, req, phase)
  {
  }

  lemma AskStep(com: Committee, self: string, base: Nodes, nodes: Nodes, votes: seq<Vote>, waiting: set<string>, done: set<string>, q: string,
                req: Request, phase: nat, foreign: (string, Stage) -> Option<Vote>)
    requires Halfway(com, base, nodes, votes, waiting, done, req, phase) && q !in done && q != self
    requires q in waiting ==> Asks(com, req, phase) && Member(com, q)
    ensures var (nodes', reply) := Ask(com, nodes, q, req, foreign);
      && Halfway(com, base, nodes', Keep(com, votes, reply), waiting - {q}, done + waiting * {q}, req, phase)
      && nodes'.Keys == nodes.Keys && (self in nodes ==> nodes'[self] == nodes[self])
  {
    if q in waiting {
      AskWaiting(com, base, nodes, votes, waiting, done, q, req, phase, foreign);
      assert waiting * {q} == {q};
    } else {
      AskOther(com, base, nodes, votes, waiting, done, q, req, phase, foreign);
      assert waiting - {q} == waiting && waiting * {q} == {} && done + {} == done;
    }
  }

  /** Asking the peers in turn, except oneself: what they become, and the votes kept. */
  function AskAll(com: Committee, self: string, nodes: Nodes, votes: seq<Vote>, peers: seq<string>, req: Request,
                  foreign: (string, Stage) -> Option<Vote>): (Nodes, seq<Vote>)
    decreases |peers|
  {
    if peers == [] then (nodes, votes) else
    var (before, kept) := AskAll(com, self, nodes, votes, peers[..|peers| - 1], req, foreign);
    AskNext(com, self, before, kept, peers[|peers| - 1], req, foreign)
  }

  function AskNext(com: Committee, self: string, nodes: Nodes, votes: seq<Vote>, q: string, req: Request,
                   foreign: (string, Stage) -> Option<Vote>): (Nodes, seq<Vote>)
  {
    if q == self then (nodes, votes) else
    var (nodes', reply) := Ask(com, nodes, q, req, foreign);
    (nodes', Keep(com, votes, reply))
  }

  /** The request loop: every verified answer is kept. */
  method CollectVotes(com: Committee, self: string, nodes0: Nodes, peers: seq<string>, req: Request, own: Vote,
                      foreign: (string, Stage) -> Option<Vote>)
    returns (nodes: Nodes, votes: seq<Vote>)
    ensures (nodes, votes) == AskAll(com, self, nodes0, [own], peers, req, foreign)
  {
    nodes, votes := nodes0, [own];
    for n := 0 to |peers|
      invariant (nodes, votes) == AskAll(com, self, nodes0, [own], peers[..n], req, foreign)
    {
      assert peers[..n + 1][..n] == peers[..n];
      var q := peers[n];
      if q != self {
        var (nodes', reply) := Ask(com, nodes, q, req, foreign);
        nodes := nodes';
        if reply.Some? && VerifyVote(reply.value, com) == Pass { votes := votes + [reply.value]; }
      }
    }
    assert peers[..|peers|] == peers;
  }

  /** Votes are only added, and only verified ones. */
  lemma {:induction false} AskAllKeeps(com: Committee, self: string, nodes: Nodes, votes: seq<Vote>, peers: seq<string>, req: Request,
                                       foreign: (string, Stage) -> Option<Vote>)
    ensures var (nodes', votes') := AskAll(com, self, nodes, votes, peers, req, foreign);
      && nodes'.Keys == nodes.Keys && (self in nodes ==> nodes'[self] == nodes[self])
      && (forall v :: v in votes ==> v in votes')
      && (AllVerified(com, votes) ==> AllVerified(com, votes'))
    decreases |peers|
  {
    if peers != [] {
      AskAllKeeps(com, self, nodes, votes, peers[..|peers| - 1], req, foreign);
    }
  }

  function Names(peers: seq<string>): set<string> { set q | q in peers }

  /** If the peers in `ids` are ready, each that was asked has voted and moved on, whatever the others
      answer. */
  lemma {:induction false} AskAllReady(com: Committee, self: string, base: Nodes, nodes: Nodes, votes: seq<Vote>, peers: seq<string>,
                                       ids: set<string>, req: Request, phase: nat, foreign: (string, Stage) -> Option<Vote>)
    requires self !in ids && Distinct(peers) && AllMembers(com, ids) && (ids != {} ==> Asks(com, req, phase))
    requires AllReady(com, base, nodes, ids, req.proposal.block, phase)
    ensures var (nodes', votes') := AskAll(com, self, nodes, votes, peers, req, foreign);
      Halfway(com, base, nodes', votes', ids - Names(peers), ids * Names(peers), req, phase)
    decreases |peers|
  {
    if peers == [] {
      assert ids - Names(peers) == ids && ids * Names(peers) == {};
    } else {
      var before, q := peers[..|peers| - 1], peers[|peers| - 1];
      AskAllReady(com, self, base, nodes, votes, before, ids, req, phase, foreign);
      NamesMore(peers, ids);
      var (nodes1, votes1) := AskAll(com, self, nodes, votes, before, req, foreign);
      if q == self {
        assert ids - {q} == ids;
      } else {
        AskStep(com, self, base, nodes1, votes1, ids - Names(before), ids * Names(before), q, req, phase, foreign);
      }
    }
  }

  lemma NamesMore(peers: seq<string>, ids: set<string>)
    requires peers != [] && Distinct(peers)
    ensures var before, q := peers[..|peers| - 1], peers[|peers| - 1];
      && q !in Names(before)
      && ids - Names(peers) == ids - Names(before) - {q}
      && ids * Names(peers) == ids * Names(before) + (ids - Names(before)) * {q}
  {
    var before, q := peers[..|peers| - 1], peers[|peers| - 1];
    assert forall x :: x in peers <==> x in before || x == q;
  }

  /** The peer answers with a vote that its voter, a committee member, signed. */
  predicate Replies(com: Committee, nodes: Nodes, q: string, req: Request, foreign: (string, Stage) -> Option<Vote>, v: Vote)
  {
    && ValidVote(v, com)
    && if q in nodes then HandleRequest(Config(q, com), nodes[q], req).1 == Ok(v) else foreign(q, req.stage) == Some(v)
  }

  /** Every peer but oneself is asked once, in the state it is in at the beginning. */
  lemma {:induction false} AskAllNodes(com: Committee, self: string, nodes: Nodes, votes: seq<Vote>, peers: seq<string>, req: Request,
                                       foreign: (string, Stage) -> Option<Vote>, q: string)
    requires Distinct(peers) && q in nodes
    ensures var after := AskAll(com, self, nodes, votes, peers, req, foreign).0;
      after.Keys == nodes.Keys && after[q] == if q in peers && q != self then HandleRequest(Config(q, com), nodes[q], req).0 else nodes[q]
    decreases |peers|
  {
    if peers != [] {
      var before, p := peers[..|peers| - 1], peers[|peers| - 1];
      AskAllNodes(com, self, nodes, votes, before, req, foreign, q);
      assert q in peers <==> q in before || q == p;
      assert p !in before;
    }
  }

  /** The votes collected are those given and exactly the valid answers of the peers asked. */
  lemma {:induction false} AskAllVotes(com: Committee, self: string, nodes: Nodes, votes: seq<Vote>, peers: seq<string>, req: Request,
                                       foreign: (string, Stage) -> Option<Vote>, v: Vote)
    requires Distinct(peers)
    ensures v in AskAll(com, self, nodes, votes, peers, req, foreign).1 <==>
      v in votes || exists q :: q in peers && q != self && Replies(com, nodes, q, req, foreign, v)
    decreases |peers|
  {
    if peers != [] {
      var before, p := peers[..|peers| - 1], peers[|peers| - 1];
      AskAllVotes(com, self, nodes, votes, before, req, foreign, v);
      AskNextVotes(com, self, nodes, votes, peers, req, foreign, v);
      assert forall q :: q in peers <==> q in before || q == p;
    }
  }

  lemma AskNextVotes(com: Committee, self: string, nodes: Nodes, votes: seq<Vote>, peers: seq<string>, req: Request,
                     foreign: (string, Stage) -> Option<Vote>, v: Vote)
    requires Distinct(peers) && peers != []
    ensures var before, p := peers[..|peers| - 1], peers[|peers| - 1];
      v in AskAll(com, self, nodes, votes, peers, req, foreign).1 <==>
        v in AskAll(com, self, nodes, votes, before, req, foreign).1 || (p != self && Replies(com, nodes, p, req, foreign, v))
  {
    var before, p := peers[..|peers| - 1], peers[|peers| - 1];
    var nodes1 := AskAll(com, self, nodes, votes, before, req, foreign).0;
    assert p !in before;
    AskAllKeeps(com, self, nodes, votes, before, req, foreign);
    if p in nodes { AskAllNodes(com, self, nodes, votes, before, req, foreign, p); }
    AskReplies(com, nodes, nodes1, p, req, foreign, v);
  }

  lemma AskReplies(com: Committee, nodes: Nodes, nodes1: Nodes, p: string, req: Request, foreign: (string, Stage) -> Option<Vote>, v: Vote)
    requires nodes1.Keys == nodes.Keys && (p in nodes ==> nodes1[p] == nodes[p])
    ensures Ask(com, nodes1, p, req, foreign).1 == Some(v) && VerifyVote(v, com) == Pass <==> Replies(com, nodes, p, req, foreign, v)
  {
  }

  /** Delivering a commit to the peers in turn, except oneself. */
  function DeliverAll(com: Committee, self: string, nodes: Nodes, peers: seq<string>, c: Commit): Nodes
    decreases |peers|
  {
    if peers == [] then nodes else
    DeliverNext(com, self, DeliverAll(com, self, nodes, peers[..|peers| - 1], c), peers[|peers| - 1], c)
  }

  function DeliverNext(com: Committee, self: string, nodes: Nodes, q: string, c: Commit): Nodes
  {
    if q != self && q in nodes then nodes[q := Accept(Config(q, com), nodes[q], c).0] else nodes
  }

  /** Broadcasting a commit: every peer that is there applies it or refuses it. */
  method Broadcast(com: Committee, self: string, nodes0: Nodes, peers: seq<string>, c: Commit) returns (nodes: Nodes)
    ensures nodes == DeliverAll(com, self, nodes0, peers, c)
  {
    nodes := nodes0;
    for n := 0 to |peers|
      invariant nodes == DeliverAll(com, self, nodes0, peers[..n], c)
    {
      assert peers[..n + 1][..n] == peers[..n];
      if peers[n] != self && peers[n] in nodes {
        nodes := nodes[peers[n] := Accept(Config(peers[n], com), nodes[peers[n]], c).0];
      }
    }
    assert peers[..|peers|] == peers;
  }

  lemma {:induction false} DeliverAllMeaning(com: Committee, self: string, nodes: Nodes, peers: seq<string>, c: Commit, q: string)
    requires Distinct(peers) && q in nodes
    ensures DeliverAll(com, self, nodes, peers, c).Keys == nodes.Keys
    ensures DeliverAll(com, self, nodes, peers, c)[q] ==
      if q in peers && q != self then Accept(Config(q, com), nodes[q], c).0 else nodes[q]
    decreases |peers|
  {
    if peers != [] {
      var before, p := peers[..|peers| - 1], peers[|peers| - 1];
      DeliverAllMeaning(com, self, nodes, before, c, q);
      assert q in peers <==> q in before || q == p;
      assert p !in before;
    }
  }

  // ---- The round as steps of a network -------------------------------------------------------

  /** A vote from elsewhere is not signed under the name of an honest validator, or was made before. */
  predicate Genuine(g: Safety.Network, foreign: (string, Stage) -> Option<Vote>, q: string, stage: Stage)
  {
    foreign(q, stage).Some? ==>
      var x := foreign(q, stage).value.signature;
      x in g.signed || !(x.Signed? && x.signer in g.nodes)
  }

  /** The validators are the honest ones of the network, and nobody else forges their votes. */
  ghost predicate Linked(g: Safety.Network, nodes: Nodes, foreign: (string, Stage) -> Option<Vote>)
  {
    g.nodes == nodes && g.sent.Keys == nodes.Keys && forall q, stage :: Genuine(g, foreign, q, stage)
  }

  predicate Askable(g: Safety.Network, req: Request)
  {
    IsVoteStage(req.stage) && (req.qc.Some? ==> Safety.Known(req.qc.value, g.signed))
  }

  predicate AllKnown(votes: seq<Vote>, signed: set<Signature>)
  {
    forall i :: 0 <= i < |votes| ==> votes[i].signature in signed
  }

  /** The steps lead from the network to one with these validators and at least the same signatures. */
  ghost predicate Follows(com: Committee, g: Safety.Network, steps: seq<Safety.Step>, nodes: Nodes, foreign: (string, Stage) -> Option<Vote>)
  {
    Linked(Safety.Go(com, g, steps), nodes, foreign) && g.signed <= Safety.Go(com, g, steps).signed
  }

  lemma LinkedMore(g: Safety.Network, g': Safety.Network, nodes: Nodes, nodes': Nodes, foreign: (string, Stage) -> Option<Vote>)
    requires Linked(g, nodes, foreign) && g'.nodes == nodes' && nodes'.Keys == nodes.Keys && g'.sent.Keys == g.sent.Keys && g.signed <= g'.signed
    ensures Linked(g', nodes', foreign)
  {
    forall q, stage ensures Genuine(g', foreign, q, stage) { assert Genuine(g, foreign, q, stage); }
  }

  /** Asking a validator for its vote is one step. */
  lemma SimVote(com: Committee, g: Safety.Network, nodes: Nodes, q: string, req: Request, foreign: (string, Stage) -> Option<Vote>)
    requires Linked(g, nodes, foreign) && Askable(g, req) && q in nodes
    ensures var (s, r) := VoteOn(Config(q, com), nodes[q], req.proposal.block, req.stage, req.qc);
      var g' := Safety.Next(com, g, Safety.CastVote(q, req.proposal.block, req.stage, req.qc));
      && Linked(g', nodes[q := s], foreign) && g.signed <= g'.signed
      && (r.Ok? ==> r.value.signature in g'.signed)
  {
    var s := VoteOn(Config(q, com), nodes[q], req.proposal.block, req.stage, req.qc).0;
    var g' := Safety.Next(com, g, Safety.CastVote(q, req.proposal.block, req.stage, req.qc));
    LinkedMore(g, g', nodes, nodes[q := s], foreign);
  }

  /** Asking a peer is at most one step. */
  lemma SimAsk(com: Committee, g: Safety.Network, self: string, nodes: Nodes, votes: seq<Vote>, q: string, req: Request,
               foreign: (string, Stage) -> Option<Vote>) returns (more: seq<Safety.Step>)
    requires Linked(g, nodes, foreign) && Askable(g, req) && AllKnown(votes, g.signed)
    ensures var (nodes', votes') := AskNext(com, self, nodes, votes, q, req, foreign);
      Follows(com, g, more, nodes', foreign) && AllKnown(votes', Safety.Go(com, g, more).signed)
  {
    more := [];
    if q != self && q in nodes {
      if VerifyProposal(req.proposal, com) == Pass {
        more := [Safety.CastVote(q, req.proposal.block, req.stage, req.qc)];
        SimVote(com, g, nodes, q, req, foreign);
      } else {
        assert nodes[q := nodes[q]] == nodes;
      }
    } else if q != self && foreign(q, req.stage).Some? {
      more := [Safety.Sign(foreign(q, req.stage).value.signature)];
      assert Genuine(g, foreign, q, req.stage);
      SimSign(com, g, nodes, foreign(q, req.stage).value.signature, foreign);
    }
  }

  lemma SimSign(com: Committee, g: Safety.Network, nodes: Nodes, x: Signature, foreign: (string, Stage) -> Option<Vote>)
    requires Linked(g, nodes, foreign) && (x in g.signed || !(x.Signed? && x.signer in g.nodes))
    ensures var g' := Safety.Next(com, g, Safety.Sign(x));
      Linked(g', nodes, foreign) && g.signed <= g'.signed && x in g'.signed
  {
    LinkedMore(g, Safety.Next(com, g, Safety.Sign(x)), nodes, nodes, foreign);
  }

  lemma {:induction false} SimAskAll(com: Committee, g: Safety.Network, self: string, nodes: Nodes, votes: seq<Vote>, peers: seq<string>,
                                     req: Request, foreign: (string, Stage) -> Option<Vote>) returns (steps: seq<Safety.Step>)
    requires Linked(g, nodes, foreign) && Askable(g, req) && AllKnown(votes, g.signed)
    ensures var (nodes', votes') := AskAll(com, self, nodes, votes, peers, req, foreign);
      Follows(com, g, steps, nodes', foreign) && AllKnown(votes', Safety.Go(com, g, steps).signed)
    decreases |peers|
  {
    steps := [];
    if peers != [] {
      var before := peers[..|peers| - 1];
      steps := SimAskAll(com, g, self, nodes, votes, before, req, foreign);
      var (nodes1, votes1) := AskAll(com, self, nodes, votes, before, req, foreign);
      var more := SimAsk(com, Safety.Go(com, g, steps), self, nodes1, votes1, peers[|peers| - 1], req, foreign);
      Safety.GoOn(com, g, steps, more);
      steps := steps + more;
    }
  }

  /** A stage: the proposer's own vote, then the peers'. */
  lemma SimStage(com: Committee, g: Safety.Network, self: string, nodes: Nodes, peers: seq<string>, req: Request,
                 foreign: (string, Stage) -> Option<Vote>) returns (steps: seq<Safety.Step>)
    requires Linked(g, nodes, foreign) && Askable(g, req) && self in nodes
    ensures var (s, own) := VoteOn(Config(self, com), nodes[self], req.proposal.block, req.stage, req.qc);
      if own.Err? then Follows(com, g, steps, nodes[self := s], foreign)
      else var (nodes', votes') := AskAll(com, self, nodes[self := s], [own.value], peers, req, foreign);
           Follows(com, g, steps, nodes', foreign) && AllKnown(votes', Safety.Go(com, g, steps).signed)
  {
    var (s, own) := VoteOn(Config(self, com), nodes[self], req.proposal.block, req.stage, req.qc);
    var cast := Safety.CastVote(self, req.proposal.block, req.stage, req.qc);
    SimVote(com, g, nodes, self, req, foreign);
    steps := [cast];
    if own.Ok? {
      var g' := Safety.Next(com, g, cast);
      assert Safety.Go(com, g, [cast]) == g';
      var more := SimAskAll(com, g', self, nodes[self := s], [own.value], peers, req, foreign);
      Safety.GoOn(com, g, [cast], more);
      steps := [cast] + more;
    }
  }

  /** A certificate formed from known votes is known. */
  lemma FormedKnown(cert: Certificate, slot: Slot, votes: seq<Vote>, threshold: int, signed: set<Signature>)
    requires FormedFrom(cert, slot, votes, threshold) && AllKnown(votes, signed)
    ensures Safety.Known(cert, signed)
  {
    forall i | 0 <= i < |cert.votes| ensures cert.votes[i].signature in signed {
      assert Entry(cert.votes[i], votes, slot);
    }
  }

  /** Delivering a commit to a peer is at most one step. */
  lemma SimDeliver(com: Committee, g: Safety.Network, nodes: Nodes, q: string, c: Commit, foreign: (string, Stage) -> Option<Vote>)
    requires Linked(g, nodes, foreign) && Safety.Known(c.certificate, g.signed) && q in nodes
    ensures var g' := Safety.Next(com, g, Safety.Deliver(q, c));
      Linked(g', nodes[q := Accept(Config(q, com), nodes[q], c).0], foreign) && g'.signed == g.signed
  {
    var g' := Safety.Next(com, g, Safety.Deliver(q, c));
    LinkedMore(g, g', nodes, nodes[q := Accept(Config(q, com), nodes[q], c).0], foreign);
  }

  lemma {:induction false} SimDeliverAll(com: Committee, g: Safety.Network, self: string, nodes: Nodes, peers: seq<string>, c: Commit,
                                         foreign: (string, Stage) -> Option<Vote>) returns (steps: seq<Safety.Step>)
    requires Linked(g, nodes, foreign) && Safety.Known(c.certificate, g.signed)
    ensures Linked(Safety.Go(com, g, steps), DeliverAll(com, self, nodes, peers, c), foreign)
    ensures Safety.Go(com, g, steps).signed == g.signed
    decreases |peers|
  {
    steps := [];
    if peers != [] {
      var before, q := peers[..|peers| - 1], peers[|peers| - 1];
      steps := SimDeliverAll(com, g, self, nodes, before, c, foreign);
      var nodes1 := DeliverAll(com, self, nodes, before, c);
      if q != self && q in nodes1 {
        SimDeliver(com, Safety.Go(com, g, steps), nodes1, q, c, foreign);
        Safety.GoOn(com, g, steps, [Safety.Deliver(q, c)]);
        assert Safety.Go(com, Safety.Go(com, g, steps), [Safety.Deliver(q, c)]) == Safety.Next(com, Safety.Go(com, g, steps), Safety.Deliver(q, c));
        steps := steps + [Safety.Deliver(q, c)];
      }
    }
  }

  // ---- The round -----------------------------------------------------------------------------

  /** A validator that shares the proposer's log and has done nothing yet in this round. */
  predicate Fresh(com: Committee, q: string, s: NodeState, p: NodeState, proposer: string, height: nat, round: nat)
  {
    && ChainInv(com, s) && StoreInv(Config(q, com), s) && Member(com, q)
    && |s.commits| + 1 == height && s.lastHash == p.lastHash && s.machine == p.machine
    && s.lock.height != height && RoundAt(s.currentRound, height) <= round
    && VoteKey(height, round, Prevote) !in s.votes && VoteKey(height, round, Precommit) !in s.votes
    && ProposalKey(height, round, proposer) !in s.proposals
  }

  /** Enough validators, the scheduled proposer among them, are at the start of the round. */
  predicate Quorate(com: Committee, nodes: Nodes, self: string, ids: set<string>, height: nat, round: nat)
  {
    && self in ids && self != "" && ids <= nodes.Keys && 0 < com.threshold <= |ids|
    && ProposerFor(height, round, com.validatorIds) == Ok(self)
    && forall q :: q in ids ==> Fresh(com, q, nodes[q], nodes[self], self, height, round)
  }

  predicate Appended(before: NodeState, after: NodeState, c: Commit, payload: string)
  {
    && after.commits == before.commits + [c] && after.lastHash == c.block.Hash()
    && Transition(before.machine, TransactionsFromPayload(payload)) == Ok(after.machine)
  }

  /** All of `ids` have the commit, on top of what they had, and the machine it leads to. */
  predicate Committed(com: Committee, nodes0: Nodes, nodes: Nodes, ids: set<string>, c: Commit, payload: string)
  {
    && VerifyCommit(com, c) == Pass && c.block.payload == payload
    && (forall q :: q in ids ==> q in nodes0 && q in nodes && Appended(nodes0[q], nodes[q], c, payload))
  }

  /** What the proposer's new block is for the validators in `ids`. */
  predicate Launch(com: Committee, nodes: Nodes, self: string, ids: set<string>, b: Block, payload: string)
  {
    && self in ids && AllReady(com, nodes, nodes, ids, b, 0) && AllMembers(com, ids) && 0 < com.threshold <= |ids|
    && VerifyProposal(SignProposal(b, self, com.algorithm), com) == Pass
    && ProposerFor(b.height, b.round, com.validatorIds) == Ok(b.proposerId)
    && b.membershipVersion == 0 && b.validatorSetHash == "" && !Blank(b.stateDigest)
    && b.payload == payload && b.transactions == TransactionsFromPayload(payload)
    && forall q :: q in ids ==> q in nodes && |nodes[q].commits| + 1 !in nodes[q].store.commits
  }

  lemma NewBlockReady(com: Committee, nodes: Nodes, self: string, ids: set<string>, height: nat, round: nat, payload: string, now: int)
    requires Quorate(com, nodes, self, ids, height, round)
    ensures var r := NewBlock(Config(self, com), nodes[self], height, round, payload, now);
      r.Ok? && Launch(com, nodes, self, ids, r.value, payload)
  {
    var p := nodes[self];
    RunMeaning(Inputs(p.commits));
    PayloadApplies(p.machine, payload);
    TipNonEmpty(p.commits);
    var b := NewBlock(Config(self, com), p, height, round, payload, now).value;
    forall q | q in ids
      ensures Ready(Config(q, com), nodes[q], nodes[q], b, 0) && Member(com, q)
      ensures |nodes[q].commits| + 1 !in nodes[q].store.commits
    {
      FreshReady(com, q, nodes[q], p, self, b);
    }
  }

  lemma FreshReady(com: Committee, q: string, s: NodeState, p: NodeState, self: string, b: Block)
    requires Fresh(com, q, s, p, self, b.height, b.round) && ProposerFor(b.height, b.round, com.validatorIds) == Ok(self)
    requires b.proposerId == self && b.previousHash == p.lastHash
    requires Transition(p.machine, b.transactions).Ok? && Transition(p.machine, b.transactions).value.digest == b.stateDigest
    ensures Ready(Config(q, com), s, s, b, 0) && Member(com, q) && |s.commits| + 1 !in s.store.commits
  {
    NextHeightFree(Config(q, com), s);
  }

  lemma NextHeightFree(cfg: Config, s: NodeState)
    requires ChainInv(cfg.com, s) && StoreInv(cfg, s)
    ensures |s.commits| + 1 !in s.store.commits
  {
    LinkedNumbered(cfg.com, s.commits);
    RecordHeights(cfg, s.commits);
  }

  lemma PayloadApplies(m: MachineState, payload: string)
    requires m.digest != EMPTY && !Blank(m.digest)
    ensures var r := Transition(m, TransactionsFromPayload(payload)); r.Ok? && !Blank(r.value.digest)
  {
    FreshSucceeds(m.applied, TransactionsFromPayload(payload));
  }

  lemma TipNonEmpty(commits: seq<Commit>)
    ensures TipHash(commits) != EMPTY
  {
  }

  /** A certificate for the block at a stage, as the proposer forms it. */
  predicate Certifies(com: Committee, cert: Certificate, b: Block, stage: Stage)
  {
    && ValidCertificate(cert, com) && cert.threshold == com.threshold
    && cert.height == b.height && cert.round == b.round && cert.stage == stage && cert.blockHash == b.Hash()
    && cert.membershipVersion == 0 && cert.validatorSetHash == ""
  }

  /** Votes of all of `ids` among verified votes make a quorum. */
  lemma EnoughVotes(com: Committee, b: Block, stage: Stage, votes: seq<Vote>, ids: set<string>)
    requires IsVoteStage(stage) && AllVoted(com, ids, b, stage, votes) && com.threshold <= |ids|
    ensures |Supporters(votes, Slot(b.height, b.round, stage, b.Hash(), ToCommit))| >= com.threshold
  {
    var slot := Slot(b.height, b.round, stage, b.Hash(), ToCommit);
    CollectedMeaning(votes, slot);
    forall q | q in ids ensures q in Supporters(votes, slot) {
      var v := VoteOf(com, q, b, stage);
      assert v in votes;
      var i :| 0 <= i < |votes| && votes[i] == v;
      assert Supports(votes[i], slot);
    }
    SubsetSize(ids, Supporters(votes, slot));
  }

  /** The proposer votes, and with the answers of the peers there are enough voters for the block. */
  predicate Carried(com: Committee, self: string, nodes: Nodes, peers: seq<string>, req: Request, foreign: (string, Stage) -> Option<Vote>)
    requires self in nodes
  {
    var b := req.proposal.block;
    var (s, own) := VoteOn(Config(self, com), nodes[self], b, req.stage, req.qc);
    && own.Ok?
    && var votes := AskAll(com, self, nodes[self := s], [own.value], peers, req, foreign).1;
       0 < com.threshold <= |Supporters(votes, Slot(b.height, b.round, req.stage, b.Hash(), ToCommit))|
  }

  /** One stage of the round: the proposer votes, asks the peers and forms a certificate. If the
      validators are those of a network, the stage is a sequence of its steps. */
  method RunStage(com: Committee, self: string, nodes0: Nodes, peers: seq<string>, req: Request,
                  foreign: (string, Stage) -> Option<Vote>, ghost base: Nodes, ghost ids: set<string>, ghost phase: nat, ghost g: Safety.Network)
    returns (nodes: Nodes, r: Result<Certificate>, ghost steps: seq<Safety.Step>)
    requires self in nodes0
    requires AllReady(com, base, nodes0, ids, req.proposal.block, phase)
    requires ids != {} ==> self in ids && Covers(peers, ids - {self}) && AllMembers(com, ids) && Asks(com, req, phase) && 0 < com.threshold <= |ids|
    ensures nodes.Keys == nodes0.Keys
    ensures AllReady(com, base, nodes, ids, req.proposal.block, phase + 1)
    ensures ids != {} ==> r.Ok? && Certifies(com, r.value, req.proposal.block, req.stage)
    ensures IsVoteStage(req.stage) ==> (r.Ok? <==> Carried(com, self, nodes0, peers, req, foreign))
    ensures Linked(g, nodes0, foreign) && Askable(g, req) ==> Follows(com, g, steps, nodes, foreign)
    ensures Linked(g, nodes0, foreign) && Askable(g, req) && r.Ok? ==> Safety.Known(r.value, Safety.Go(com, g, steps).signed)
  {
    if ids != {} { StageEnds(com, self, nodes0, base, peers, ids, req, phase, foreign); }
    var (s, own) := VoteOn(Config(self, com), nodes0[self], req.proposal.block, req.stage, req.qc);
    steps := [];
    if Linked(g, nodes0, foreign) && Askable(g, req) { steps := SimStage(com, g, self, nodes0, peers, req, foreign); }
    nodes := nodes0[self := s];
    if own.Err? { return nodes, Err(own.reason), steps; }
    AskAllKeeps(com, self, nodes, [own.value], peers, req, foreign);
    var votes;
    nodes, votes := CollectVotes(com, self, nodes, peers, req, own.value, foreign);
    r := CertifyVotes(com, req, votes, ids, Safety.Go(com, g, steps).signed);
  }

  /** Forming the certificate of a stage. */
  method CertifyVotes(com: Committee, req: Request, votes: seq<Vote>, ghost ids: set<string>, ghost signed: set<Signature>) returns (r: Result<Certificate>)
    ensures var b := req.proposal.block;
      var slot := Slot(b.height, b.round, req.stage, b.Hash(), ToCommit);
      && (IsVoteStage(req.stage) ==> (r.Ok? <==> 0 < com.threshold <= |Supporters(votes, slot)|))
      && (r.Ok? && AllVerified(com, votes) && b.height > 0 && IsVoteStage(req.stage) ==> Certifies(com, r.value, b, req.stage))
      && (r.Ok? && AllKnown(votes, signed) && IsVoteStage(req.stage) ==> Safety.Known(r.value, signed))
  {
    var b := req.proposal.block;
    r := FormStageQuorumCertificate(b.height, b.round, req.stage, b.Hash(), votes, com.threshold);
    if r.Ok? && IsVoteStage(req.stage) {
      var slot := Slot(b.height, b.round, req.stage, b.Hash(), ToCommit);
      if AllVerified(com, votes) { FormedIsValid(r.value, com, slot, votes, com.threshold); }
      if AllKnown(votes, signed) { FormedKnown(r.value, slot, votes, com.threshold, signed); }
    }
  }

  lemma StageDone(com: Committee, self: string, nodes: Nodes, req: Request, base: Nodes, ids: set<string>, phase: nat, votes: seq<Vote>)
    requires self in ids && self in base && self in nodes && IsVoteStage(req.stage) && com.threshold <= |ids|
    requires Ready(Config(self, com), base[self], nodes[self], req.proposal.block, phase + 1)
    requires AllReady(com, base, nodes, ids - {self}, req.proposal.block, phase + 1)
    requires AllVoted(com, ids - {self}, req.proposal.block, req.stage, votes) && VoteOf(com, self, req.proposal.block, req.stage) in votes
    ensures AllReady(com, base, nodes, ids, req.proposal.block, phase + 1)
    ensures var b := req.proposal.block;
      |Supporters(votes, Slot(b.height, b.round, req.stage, b.Hash(), ToCommit))| >= com.threshold
  {
    EnoughVotes(com, req.proposal.block, req.stage, votes, ids);
  }

  /** A stage among ready validators: all of them have voted, and that is enough for a certificate. */
  lemma StageEnds(com: Committee, self: string, nodes: Nodes, base: Nodes, peers: seq<string>, ids: set<string>, req: Request,
                  phase: nat, foreign: (string, Stage) -> Option<Vote>)
    requires self in nodes && self in ids && Covers(peers, ids - {self}) && AllMembers(com, ids) && Asks(com, req, phase)
    requires AllReady(com, base, nodes, ids, req.proposal.block, phase) && com.threshold <= |ids|
    ensures var (s, own) := VoteOn(Config(self, com), nodes[self], req.proposal.block, req.stage, req.qc);
      && own.Ok?
      && var (nodes', votes') := AskAll(com, self, nodes[self := s], [own.value], peers, req, foreign);
      && AllReady(com, base, nodes', ids, req.proposal.block, phase + 1) && AllVerified(com, votes')
      && EnoughFor(com, req, votes')
  {
    OwnVote(com, self, nodes, req, base, ids, phase);
    var (s, own) := VoteOn(Config(self, com), nodes[self], req.proposal.block, req.stage, req.qc);
    StageReady(com, self, base, nodes[self := s], own.value, peers, ids, req, phase, foreign);
    AskAllKeeps(com, self, nodes[self := s], [own.value], peers, req, foreign);
    var (nodes', votes') := AskAll(com, self, nodes[self := s], [own.value], peers, req, foreign);
    StageDone(com, self, nodes', req, base, ids, phase, votes');
  }

  /** Enough votes for a certificate of the request. */
  predicate EnoughFor(com: Committee, req: Request, votes: seq<Vote>)
  {
    var b := req.proposal.block;
    IsVoteStage(req.stage) && b.height > 0 && |Supporters(votes, Slot(b.height, b.round, req.stage, b.Hash(), ToCommit))| >= com.threshold
  }

  /** After the request loop every ready validator has voted. */
  lemma StageReady(com: Committee, self: string, base: Nodes, nodes: Nodes, own: Vote, peers: seq<string>, ids: set<string>, req: Request,
                   phase: nat, foreign: (string, Stage) -> Option<Vote>)
    requires self in ids && Covers(peers, ids - {self}) && AllMembers(com, ids) && Asks(com, req, phase)
    requires AllReady(com, base, nodes, ids - {self}, req.proposal.block, phase) && VerifyVote(own, com) == Pass
    ensures var (nodes', votes') := AskAll(com, self, nodes, [own], peers, req, foreign);
      && AllReady(com, base, nodes', ids - {self}, req.proposal.block, phase + 1)
      && AllVoted(com, ids - {self}, req.proposal.block, req.stage, votes') && own in votes' && AllVerified(com, votes')
  {
    AskAllReady(com, self, base, nodes, [own], peers, ids - {self}, req, phase, foreign);
    AskAllKeeps(com, self, nodes, [own], peers, req, foreign);
    assert (ids - {self}) * Names(peers) == ids - {self};
    assert own in [own];
  }

  /** The proposer's own vote is that of a ready validator; the others wait. */
  lemma OwnVote(com: Committee, self: string, nodes0: Nodes, req: Request, base: Nodes, ids: set<string>, phase: nat)
    requires self in nodes0 && self in ids && AllMembers(com, ids) && Asks(com, req, phase)
    requires AllReady(com, base, nodes0, ids, req.proposal.block, phase)
    ensures var (s, own) := VoteOn(Config(self, com), nodes0[self], req.proposal.block, req.stage, req.qc);
      && own == Ok(VoteOf(com, self, req.proposal.block, req.stage)) && VerifyVote(own.value, com) == Pass && IsVoteStage(req.stage)
      && Ready(Config(self, com), base[self], s, req.proposal.block, phase + 1)
      && AllReady(com, base, nodes0[self := s], ids - {self}, req.proposal.block, phase)
  {
    RequestAdvances(Config(self, com), base[self], nodes0[self], phase, req);
    MemberVerified(com, self, req.proposal.block, req.stage);
  }

  /** The prevote certificate of a stage is what the precommit request needs. */
  lemma NextRequest(com: Committee, proposal: Proposal, qc: Certificate)
    requires VerifyProposal(proposal, com) == Pass && Certifies(com, qc, proposal.block, Prevote)
    ensures Asks(com, Request(proposal, Precommit, Some(qc)), 1)
  {
    VerdictMeaning(qc, com);
  }

  /** A block with its precommit certificate is a commit that everybody verifies. */
  lemma CommitVerifies(com: Committee, b: Block, qc: Certificate)
    requires Certifies(com, qc, b, Precommit) && ProposerFor(b.height, b.round, com.validatorIds) == Ok(b.proposerId)
    requires b.membershipVersion == 0 && b.validatorSetHash == "" && !Blank(b.stateDigest)
    ensures VerifyCommit(com, Commit(b, qc)) == Pass
  {
    VerdictMeaning(qc, com);
  }

  /** One round commits: if enough validators, the scheduled proposer among them, share a log and have
      not acted in this round, then the proposer's round yields a commit and all of them apply it,
      whatever every other peer answers. In a network the round is a sequence of steps, at the end of
      which the commit is certified. */
  method ProposeRound(com: Committee, self: string, nodes0: Nodes, height: nat, round: nat, payload: string, now: int,
                      peers: seq<string>, peers': seq<string>, peers'': seq<string>,
                      foreign: (string, Stage) -> Option<Vote>, ghost ids: set<string>, ghost g: Safety.Network)
    returns (nodes: Nodes, r: Result<Commit>, ghost steps: seq<Safety.Step>)
    requires self in nodes0 && Distinct(peers'')
    requires ids != {} ==> Quorate(com, nodes0, self, ids, height, round)
    requires ids != {} ==> Covers(peers, ids - {self}) && Covers(peers', ids - {self}) && Covers(peers'', ids - {self})
    ensures nodes.Keys == nodes0.Keys
    ensures ids != {} ==> r.Ok? && Committed(com, nodes0, nodes, ids, r.value, payload)
    ensures r.Ok? ==> r.value.block.height == height && r.value.block.round == round
    ensures Linked(g, nodes0, foreign) ==> Follows(com, g, steps, nodes, foreign)
    ensures Linked(g, nodes0, foreign) && r.Ok? ==> Safety.Known(r.value.certificate, Safety.Go(com, g, steps).signed)
  {
    if ids != {} { NewBlockReady(com, nodes0, self, ids, height, round, payload, now); }
    var made := NewBlock(Config(self, com), nodes0[self], height, round, payload, now);
    if made.Err? { return nodes0, Err(made.reason), []; }
    nodes, r, steps := RunBlock(com, self, nodes0, made.value, payload, peers, peers', peers'', foreign, ids, g);
  }

  method RunBlock(com: Committee, self: string, nodes0: Nodes, b: Block, ghost payload: string, peers: seq<string>, peers': seq<string>, peers'': seq<string>,
                  foreign: (string, Stage) -> Option<Vote>, ghost ids: set<string>, ghost g: Safety.Network)
    returns (nodes: Nodes, r: Result<Commit>, ghost steps: seq<Safety.Step>)
    requires self in nodes0 && Distinct(peers'')
    requires ids != {} ==> Launch(com, nodes0, self, ids, b, payload)
    requires ids != {} ==> Covers(peers, ids - {self}) && Covers(peers', ids - {self}) && Covers(peers'', ids - {self})
    ensures nodes.Keys == nodes0.Keys
    ensures ids != {} ==> r.Ok? && Committed(com, nodes0, nodes, ids, r.value, payload)
    ensures r.Ok? ==> r.value.block == b
    ensures Linked(g, nodes0, foreign) ==> Follows(com, g, steps, nodes, foreign)
    ensures Linked(g, nodes0, foreign) && r.Ok? ==> Safety.Known(r.value.certificate, Safety.Go(com, g, steps).signed)
  {
    var proposal := SignProposal(b, self, com.algorithm);
    var qc, qc';
    nodes, qc, steps := RunStage(com, self, nodes0, peers, Request(proposal, Prevote, None), foreign, nodes0, ids, 0, g);
    if qc.Err? { return nodes, Err(qc.reason), steps; }
    if ids != {} { NextRequest(com, proposal, qc.value); }
    ghost var more, last;
    ghost var g1 := Safety.Go(com, g, steps);
    nodes, qc', more := RunStage(com, self, nodes, peers', Request(proposal, Precommit, Some(qc.value)), foreign, nodes0, ids, 1, g1);
    if Linked(g, nodes0, foreign) { FollowOn(com, g, steps, more, nodes, foreign); }
    steps := steps + more;
    if qc'.Err? { return nodes, Err(qc'.reason), steps; }
    if ids != {} { CommitVerifies(com, b, qc'.value); }
    ghost var g2 := Safety.Go(com, g, steps);
    nodes, r, last := Finish(com, self, nodes, Commit(b, qc'.value), peers'', foreign, nodes0, ids, payload, g2);
    if Linked(g, nodes0, foreign) { FollowOn(com, g, steps, last, nodes, foreign); }
    steps := steps + last;
  }

  lemma FollowOn(com: Committee, g: Safety.Network, steps: seq<Safety.Step>, more: seq<Safety.Step>, nodes: Nodes, foreign: (string, Stage) -> Option<Vote>)
    requires g.signed <= Safety.Go(com, g, steps).signed && Follows(com, Safety.Go(com, g, steps), more, nodes, foreign)
    ensures Follows(com, g, steps + more, nodes, foreign)
    ensures Safety.Go(com, g, steps + more) == Safety.Go(com, Safety.Go(com, g, steps), more)
  {
    Safety.GoOn(com, g, steps, more);
  }

  /** Applying the commit locally and broadcasting it. */
  method Finish(com: Committee, self: string, nodes0: Nodes, c: Commit, peers: seq<string>, ghost foreign: (string, Stage) -> Option<Vote>,
                ghost base: Nodes, ghost ids: set<string>, ghost payload: string, ghost g: Safety.Network)
    returns (nodes: Nodes, r: Result<Commit>, ghost steps: seq<Safety.Step>)
    requires self in nodes0 && Distinct(peers) && AllReady(com, base, nodes0, ids, c.block, 2)
    requires ids != {} ==> self in ids && Covers(peers, ids - {self}) && VerifyCommit(com, c) == Pass
    requires forall q :: q in ids ==> q in base && |base[q].commits| + 1 !in base[q].store.commits
    requires ids != {} ==> c.block.payload == payload && c.block.transactions == TransactionsFromPayload(payload)
    ensures nodes.Keys == nodes0.Keys && (r.Ok? ==> r.value == c)
    ensures ids != {} ==> r.Ok? && Committed(com, base, nodes, ids, r.value, payload)
    ensures Linked(g, nodes0, foreign) && Safety.Known(c.certificate, g.signed) ==> Follows(com, g, steps, nodes, foreign)
  {
    steps := [];
    if Linked(g, nodes0, foreign) && Safety.Known(c.certificate, g.signed) { steps := SimFinish(com, g, self, nodes0, peers, c, foreign); }
    if ids != {} { FinishReady(com, self, nodes0, c, peers, base, ids, payload); }
    FinishKeys(com, self, nodes0, c, peers);
    var (s, applied) := Accept(Config(self, com), nodes0[self], c);
    nodes := nodes0[self := s];
    if applied.Fail? { return nodes, Err(applied.reason), steps; }
    nodes := Broadcast(com, self, nodes, peers, c);
    r := Ok(c);
  }

  lemma FinishKeys(com: Committee, self: string, nodes: Nodes, c: Commit, peers: seq<string>)
    requires self in nodes && Distinct(peers)
    ensures DeliverAll(com, self, nodes[self := Accept(Config(self, com), nodes[self], c).0], peers, c).Keys == nodes.Keys
  {
    DeliverAllMeaning(com, self, nodes[self := Accept(Config(self, com), nodes[self], c).0], peers, c, self);
  }

  /** Ready validators all take the commit. */
  lemma FinishReady(com: Committee, self: string, nodes: Nodes, c: Commit, peers: seq<string>, base: Nodes, ids: set<string>, payload: string)
    requires self in nodes && self in ids && Covers(peers, ids - {self}) && AllReady(com, base, nodes, ids, c.block, 2)
    requires forall q :: q in ids ==> q in base && |base[q].commits| + 1 !in base[q].store.commits
    requires VerifyCommit(com, c) == Pass && c.block.payload == payload && c.block.transactions == TransactionsFromPayload(payload)
    ensures var (s, r) := Accept(Config(self, com), nodes[self], c);
      r == Pass && Committed(com, base, DeliverAll(com, self, nodes[self := s], peers, c), ids, c, payload)
  {
    var s := Accept(Config(self, com), nodes[self], c).0;
    forall q | q in ids ensures TakenBy(com, base, nodes, DeliverAll(com, self, nodes[self := s], peers, c), q, c, payload) {
      ReadyTakes(com, self, nodes, c, peers, base, q, payload);
    }
    assert TakenBy(com, base, nodes, DeliverAll(com, self, nodes[self := s], peers, c), self, c, payload);
  }

  predicate TakenBy(com: Committee, base: Nodes, nodes: Nodes, after: Nodes, q: string, c: Commit, payload: string)
  {
    && q in base && q in nodes && q in after
    && Accept(Config(q, com), nodes[q], c).1 == Pass && Appended(base[q], after[q], c, payload)
  }

  lemma ReadyTakes(com: Committee, self: string, nodes: Nodes, c: Commit, peers: seq<string>, base: Nodes, q: string, payload: string)
    requires self in nodes && q in base && q in nodes && (q == self || q in peers) && Distinct(peers)
    requires Ready(Config(q, com), base[q], nodes[q], c.block, 2) && |base[q].commits| + 1 !in base[q].store.commits
    requires VerifyCommit(com, c) == Pass && c.block.transactions == TransactionsFromPayload(payload)
    ensures TakenBy(com, base, nodes, DeliverAll(com, self, nodes[self := Accept(Config(self, com), nodes[self], c).0], peers, c), q, c, payload)
  {
    ReadyAccepts(Config(q, com), base[q], nodes[q], c.block, c, 2);
    DeliverAllMeaning(com, self, nodes[self := Accept(Config(self, com), nodes[self], c).0], peers, c, q);
  }

  lemma SimFinish(com: Committee, g: Safety.Network, self: string, nodes: Nodes, peers: seq<string>, c: Commit,
                  foreign: (string, Stage) -> Option<Vote>) returns (steps: seq<Safety.Step>)
    requires Linked(g, nodes, foreign) && Safety.Known(c.certificate, g.signed) && self in nodes
    ensures var (s, r) := Accept(Config(self, com), nodes[self], c);
      Follows(com, g, steps, if r.Fail? then nodes[self := s] else DeliverAll(com, self, nodes[self := s], peers, c), foreign)
  {
    var (s, r) := Accept(Config(self, com), nodes[self], c);
    var own := Safety.Deliver(self, c);
    SimDeliver(com, g, nodes, self, c, foreign);
    assert Safety.Go(com, g, [own]) == Safety.Next(com, g, own);
    steps := [own];
    if r == Pass {
      var more := SimDeliverAll(com, Safety.Next(com, g, own), self, nodes[self := s], peers, c, foreign);
      Safety.GoOn(com, g, [own], more);
      steps := [own] + more;
    }
  }

  /** Progress in every reachable state of a network: where enough validators are at the start of a
      round, further steps certify a commit of the proposer's payload, and all of them have it. */
  method ProposeInRun(com: Committee, honest: set<string>, ghost before: seq<Safety.Step>, self: string, nodes0: Nodes, height: nat, round: nat,
                      payload: string, now: int, peers: seq<string>, peers': seq<string>, peers'': seq<string>,
                      foreign: (string, Stage) -> Option<Vote>, ghost ids: set<string>)
    returns (nodes: Nodes, r: Result<Commit>, ghost more: seq<Safety.Step>)
    requires nodes0 == Safety.Run(com, honest, before).nodes && Quorate(com, nodes0, self, ids, height, round)
    requires Covers(peers, ids - {self}) && Covers(peers', ids - {self}) && Covers(peers'', ids - {self})
    requires forall q, stage :: Genuine(Safety.Run(com, honest, before), foreign, q, stage)
    ensures r.Ok? && r.value.block.height == height && Committed(com, nodes0, nodes, ids, r.value, payload)
    ensures Safety.Run(com, honest, before + more).nodes == nodes
    ensures Safety.Certified(com, Safety.Run(com, honest, before + more), r.value)
  {
    ghost var g := Safety.Run(com, honest, before);
    RunLinked(com, honest, before, foreign);
    nodes, r, more := ProposeRound(com, self, nodes0, height, round, payload, now, peers, peers', peers'', foreign, ids, g);
    EndsCertified(com, honest, before, more, nodes0, nodes, foreign, ids, r.value, payload);
  }

  lemma RunLinked(com: Committee, honest: set<string>, steps: seq<Safety.Step>, foreign: (string, Stage) -> Option<Vote>)
    requires forall q, stage :: Genuine(Safety.Run(com, honest, steps), foreign, q, stage)
    ensures Linked(Safety.Run(com, honest, steps), Safety.Run(com, honest, steps).nodes, foreign)
  {
    Safety.RunKeys(com, honest, steps);
  }

  lemma EndsCertified(com: Committee, honest: set<string>, before: seq<Safety.Step>, more: seq<Safety.Step>, nodes0: Nodes, nodes: Nodes,
                      foreign: (string, Stage) -> Option<Vote>, ids: set<string>, c: Commit, payload: string)
    requires Follows(com, Safety.Run(com, honest, before), more, nodes, foreign) && Committed(com, nodes0, nodes, ids, c, payload)
    requires Safety.Known(c.certificate, Safety.Go(com, Safety.Run(com, honest, before), more).signed)
    ensures Safety.Run(com, honest, before + more).nodes == nodes
    ensures Safety.Certified(com, Safety.Run(com, honest, before + more), c)
  {
    Safety.GoOn(com, Safety.Start(honest), before, more);
  }
}
