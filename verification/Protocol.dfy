/** Proposals, votes and quorum certificates (consensus/protocol/protocol.go).

    A signature is a value that names its signer and what was signed; any other string is `Junk`.
    Unforgeability is therefore a statement about which signatures are in circulation. */
module Protocol {
  import opened Messages
  import opened Ordering

  datatype Stage = Unset | Prevote | Precommit | OtherStage(name: string)
  datatype Decision = ToCommit | OtherDecision(name: string)

  /** What a voter signs. */
  datatype Ballot = Ballot(height: nat, round: nat, stage: Stage, blockHash: Digest, voterId: string, decision: Decision)

  datatype Signature = Junk(text: string) | Signed(signer: string, ballot: Ballot) | SignedHash(signer: string, hash: Digest)

  datatype Vote = Vote(
    height: nat,
    round: nat,
    stage: Stage,
    blockHash: Digest,
    voterId: string,
    decision: Decision,
    algorithm: string,
    signature: Signature)

  datatype Certificate = Certificate(
    height: nat,
    round: nat,
    stage: Stage,
    blockHash: Digest,
    decision: Decision,
    threshold: int,
    membershipVersion: nat,
    validatorSetHash: string,
    voteCount: int,
    votes: seq<Vote>)

  datatype Proposal = Proposal(block: Block, round: nat, algorithm: string, signature: Signature)

  datatype Commit = Commit(block: Block, certificate: Certificate)

  datatype Identity = Identity(algorithm: string, keyId: string)

  /** The fixed validator set, the quorum threshold and the algorithm of the local verifier. */
  datatype Committee = Committee(identities: map<string, Identity>, validatorIds: seq<string>, threshold: int, algorithm: string)

  function NormalizeStage(stage: Stage): Stage
  {
    if stage == Unset then Precommit else stage
  }

  predicate IsVoteStage(stage: Stage)
  {
    stage == Prevote || stage == Precommit
  }

  function ProposerFor(height: nat, round: nat, validatorIds: seq<string>): Result<string>
  {
    if |validatorIds| == 0 then Err(EmptyValidatorSet)
    else if height == 0 then Err(ZeroHeight)
    else Ok(validatorIds[(height - 1 + round) % |validatorIds|])
  }

  /** The first validator proposes first, and a round or a height later it is the next one's turn. */
  lemma ProposerRotates(height: nat, round: nat, validatorIds: seq<string>) returns (k: nat)
    requires height > 0 && validatorIds != []
    ensures ProposerFor(1, 0, validatorIds) == Ok(validatorIds[0])
    ensures k < |validatorIds| && ProposerFor(height, round, validatorIds) == Ok(validatorIds[k])
    ensures var next := if k + 1 < |validatorIds| then k + 1 else 0;
      ProposerFor(height, round + 1, validatorIds) == ProposerFor(height + 1, round, validatorIds) == Ok(validatorIds[next])
  {
    var n := |validatorIds|;
    k := (height - 1 + round) % n;
    if n > 1 { Remainder(height - 1 + round, n, 1); }
  }

  /** The round is one of as many as there are validators, and schedules the k-th. */
  predicate Turn(height: nat, first: nat, validatorIds: seq<string>, k: nat, round: nat)
    requires k < |validatorIds|
  {
    first <= round < first + |validatorIds| && ProposerFor(height, round, validatorIds) == Ok(validatorIds[k])
  }

  predicate AllDifferent(ids: seq<string>)
  {
    forall i, j :: 0 <= i < j < |ids| ==> ids[i] != ids[j]
  }

  /** Within any window of as many rounds as there are validators, every validator is scheduled, and if
      the ids are distinct exactly once. */
  lemma EveryValidatorProposes(height: nat, first: nat, validatorIds: seq<string>, k: nat)
    requires height > 0 && k < |validatorIds|
    ensures exists round :: Turn(height, first, validatorIds, k, round)
    ensures AllDifferent(validatorIds) ==>
      forall r, q :: Turn(height, first, validatorIds, k, r) && Turn(height, first, validatorIds, k, q) ==> r == q
  {
    var n := |validatorIds|;
    var x := InWindow(height - 1 + first, n, k);
    assert Turn(height, first, validatorIds, k, x - (height - 1));
    if AllDifferent(validatorIds) {
      forall r, q | Turn(height, first, validatorIds, k, r) && Turn(height, first, validatorIds, k, q) ensures r == q {
        TurnOnce(height, first, validatorIds, k, r, q);
      }
    }
  }

  lemma TurnOnce(height: nat, first: nat, validatorIds: seq<string>, k: nat, r: nat, q: nat)
    requires height > 0 && k < |validatorIds| && AllDifferent(validatorIds)
    requires Turn(height, first, validatorIds, k, r) && Turn(height, first, validatorIds, k, q)
    ensures r == q
  {
    var n := |validatorIds|;
    var x, y := (height - 1 + r) % n, (height - 1 + q) % n;
    assert validatorIds[x] == validatorIds[y];
    assert x == y;
    OnceInWindow(height - 1 + r, height - 1 + q, n);
  }

  /** Among `n` numbers in a row one leaves the remainder `k`. */
  lemma InWindow(start: nat, n: nat, k: nat) returns (x: nat)
    requires k < n
    ensures start <= x < start + n && x % n == k
  {
    var m := start % n;
    x := start + (if k >= m then k - m else k - m + n);
    Remainder(start, n, if k >= m then k - m else k - m + n);
  }

  /** The remainder of a sum, one wrap at most. */
  lemma Remainder(start: nat, n: nat, d: nat)
    requires 0 < n && d < n
    ensures (start + d) % n == if start % n + d < n then start % n + d else start % n + d - n
  {
    var m, q := start % n, start / n;
    assert start == n * q + m;
    if m + d < n {
      Unique(start + d, n, q, m + d);
    } else {
      assert start + d == n * (q + 1) + (m + d - n);
      Unique(start + d, n, q + 1, m + d - n);
    }
  }

  lemma Unique(x: nat, n: nat, q: nat, m: nat)
    requires m < n && x == n * q + m
    ensures x % n == m
  {
    var p, r := x / n, x % n;
    assert n * (p - q) == m - r;
    if p > q { Scale(n, p - q); } else if p < q { Scale(n, q - p); }
  }

  lemma Scale(n: nat, d: nat)
    requires d >= 1
    ensures n * d >= n
  {
    assert n * d == n + n * (d - 1);
  }

  /** Numbers of such a row with the same remainder are the same. */
  lemma OnceInWindow(x: nat, y: nat, n: nat)
    requires 0 < n && x % n == y % n && x < y + n && y < x + n
    ensures x == y
  {
    if x < y { Remainder(x, n, y - x); } else if y < x { Remainder(y, n, x - y); }
  }

  function SignProposal(block: Block, signer: string, algorithm: string): Proposal
  {
    Proposal(block, block.round, algorithm, SignedHash(signer, block.Hash()))
  }

  /** A proposal that its proposer, a committee member of the right algorithm, signed. */
  predicate ValidProposal(p: Proposal, com: Committee)
  {
    && p.block.height > 0 && p.block.previousHash != EMPTY && p.block.proposerId != "" && p.round == p.block.round
    && p.block.proposerId in com.identities
    && com.identities[p.block.proposerId].algorithm == com.algorithm == p.algorithm
    && p.signature == SignedHash(p.block.proposerId, OfBlock(p.block))
  }

  function VerifyProposal(p: Proposal, com: Committee): (r: Outcome)
    ensures r == Pass <==> ValidProposal(p, com)
  {
    if p.block.height == 0 then Fail(ZeroHeight)
    else if p.block.previousHash == EMPTY then Fail(MissingPreviousHash)
    else if p.block.proposerId == "" then Fail(MissingProposer)
    else if p.round != p.block.round then Fail(RoundMismatch)
    else if p.block.proposerId !in com.identities then Fail(UnknownIdentity)
    else if com.identities[p.block.proposerId].algorithm != p.algorithm then Fail(AlgorithmMismatch)
    else if com.algorithm != p.algorithm then Fail(AlgorithmMismatch)
    else if p.signature != SignedHash(p.block.proposerId, p.block.Hash()) then Fail(BadSignature)
    else Pass
  }

  function SignVote(height: nat, round: nat, stage: Stage, blockHash: Digest, voterId: string, algorithm: string): Vote
  {
    var st := NormalizeStage(stage);
    Vote(height, round, st, blockHash, voterId, ToCommit, algorithm,
         Signed(voterId, Ballot(height, round, st, blockHash, voterId, ToCommit)))
  }

  function BallotOf(v: Vote): Ballot
  {
    Ballot(v.height, v.round, NormalizeStage(v.stage), v.blockHash, v.voterId, v.decision)
  }

  /** A vote that its voter, a committee member of the right algorithm, signed. */
  predicate ValidVote(v: Vote, com: Committee)
  {
    var stage := if v.stage == Unset then Precommit else v.stage;
    && v.decision == ToCommit && (stage == Prevote || stage == Precommit) && v.height > 0 && v.blockHash != EMPTY
    && v.voterId in com.identities && com.identities[v.voterId].algorithm == com.algorithm == v.algorithm
    && v.signature == Signed(v.voterId, Ballot(v.height, v.round, stage, v.blockHash, v.voterId, ToCommit))
  }

  function VerifyVote(v: Vote, com: Committee): (r: Outcome)
    ensures r == Pass <==> ValidVote(v, com)
  {
    if v.decision != ToCommit then Fail(BadDecision)
    else if !IsVoteStage(NormalizeStage(v.stage)) then Fail(BadStage)
    else if v.height == 0 then Fail(ZeroHeight)
    else if v.blockHash == EMPTY then Fail(MissingBlockHash)
    else if v.voterId !in com.identities then Fail(UnknownIdentity)
    else if com.identities[v.voterId].algorithm != v.algorithm then Fail(AlgorithmMismatch)
    else if com.algorithm != v.algorithm then Fail(AlgorithmMismatch)
    else if v.signature != Signed(v.voterId, BallotOf(v)) then Fail(BadSignature)
    else Pass
  }

  // ---- Verifying a certificate ---------------------------------------------------------------

  /** What a certificate is about; its stage is never `Unset`. */
  datatype Slot = Slot(height: nat, round: nat, stage: Stage, blockHash: Digest, decision: Decision)

  function SlotOf(cert: Certificate): Slot
  {
    Slot(cert.height, cert.round, NormalizeStage(cert.stage), cert.blockHash, cert.decision)
  }

  predicate Supports(v: Vote, slot: Slot)
  {
    slot == Slot(v.height, v.round, NormalizeStage(v.stage), v.blockHash, v.decision)
  }

  predicate DistinctVoters(votes: seq<Vote>)
  {
    forall i, j :: 0 <= i < j < |votes| ==> votes[i].voterId != votes[j].voterId
  }

  function Voters(votes: seq<Vote>): set<string>
    decreases |votes|
  {
    if votes == [] then {} else Voters(votes[..|votes| - 1]) + {votes[|votes| - 1].voterId}
  }

  lemma {:induction false} VotersMeaning(votes: seq<Vote>)
    ensures forall x :: x in Voters(votes) <==> exists i :: 0 <= i < |votes| && votes[i].voterId == x
    decreases |votes|
  {
    if votes != [] {
      var init := votes[..|votes| - 1];
      VotersMeaning(init);
      forall x ensures x in Voters(votes) <==> exists i :: 0 <= i < |votes| && votes[i].voterId == x {
        if i :| 0 <= i < |votes| && votes[i].voterId == x {
          if i < |init| { assert init[i].voterId == x; }
        }
      }
    }
  }

  lemma {:induction false} CountVoters(votes: seq<Vote>)
    requires DistinctVoters(votes)
    ensures |Voters(votes)| == |votes|
    decreases |votes|
  {
    if votes != [] {
      CountVoters(votes[..|votes| - 1]);
      VotersMeaning(votes[..|votes| - 1]);
    }
  }

  predicate GoodVote(v: Vote, slot: Slot, com: Committee)
  {
    Supports(v, slot) && ValidVote(v, com)
  }

  /** What makes a certificate acceptable: at least as many distinct committee members as the
      threshold it carries, each with a valid signature on its block at its height, round and stage. */
  predicate ValidCertificate(cert: Certificate, com: Committee)
  {
    && cert.decision == ToCommit && IsVoteStage(NormalizeStage(cert.stage))
    && cert.height > 0 && cert.blockHash != EMPTY && 0 < cert.threshold <= |com.identities|
    && (forall i :: 0 <= i < |cert.votes| ==> GoodVote(cert.votes[i], SlotOf(cert), com))
    && DistinctVoters(cert.votes)
    && cert.voteCount == |cert.votes|
    && |cert.votes| >= cert.threshold
  }

  function HeaderVerdict(cert: Certificate, com: Committee): Outcome
  {
    if cert.decision != ToCommit then Fail(BadDecision)
    else if !IsVoteStage(NormalizeStage(cert.stage)) then Fail(BadStage)
    else if cert.height == 0 then Fail(ZeroHeight)
    else if cert.blockHash == EMPTY then Fail(MissingBlockHash)
    else if cert.threshold <= 0 then Fail(BadThreshold)
    else if cert.threshold > |com.identities| then Fail(ThresholdTooLarge)
    else Pass
  }

  function VoteVerdict(v: Vote, slot: Slot, com: Committee, seen: set<string>): Outcome
  {
    if !Supports(v, slot) then Fail(VoteMismatch)
    else if v.voterId in seen then Fail(DuplicateVote)
    else VerifyVote(v, com)
  }

  /** The first complaint about one of the votes. */
  function VotesVerdict(votes: seq<Vote>, slot: Slot, com: Committee): Outcome
    decreases |votes|
  {
    if votes == [] then Pass else
    var init := votes[..|votes| - 1];
    match VotesVerdict(init, slot, com)
    case Fail(e) => Fail(e)
    case Pass => VoteVerdict(votes[|votes| - 1], slot, com, Voters(init))
  }

  function CertificateVerdict(cert: Certificate, com: Committee): Outcome
  {
    match HeaderVerdict(cert, com)
    case Fail(e) => Fail(e)
    case Pass =>
      match VotesVerdict(cert.votes, SlotOf(cert), com)
      case Fail(e) => Fail(e)
      case Pass =>
        if cert.voteCount != |cert.votes| then Fail(VoteCountMismatch)
        else if |cert.votes| < cert.threshold then Fail(InsufficientVotes)
        else Pass
  }

  lemma {:induction false} VotesVerdictMeaning(votes: seq<Vote>, slot: Slot, com: Committee)
    ensures VotesVerdict(votes, slot, com) == Pass <==>
      (forall i :: 0 <= i < |votes| ==> GoodVote(votes[i], slot, com)) && DistinctVoters(votes)
    decreases |votes|
  {
    if votes != [] {
      var init, last := votes[..|votes| - 1], votes[|votes| - 1];
      VotesVerdictMeaning(init, slot, com);
      assert forall i :: 0 <= i < |init| ==> init[i] == votes[i];
      DistinctVotersSnoc(votes);
    }
  }

  lemma DistinctVotersSnoc(votes: seq<Vote>)
    requires votes != []
    ensures var n := |votes| - 1;
      DistinctVoters(votes) <==> DistinctVoters(votes[..n]) && votes[n].voterId !in Voters(votes[..n])
  {
    var n := |votes| - 1;
    VotersMeaning(votes[..n]);
    assert forall i :: 0 <= i < n ==> votes[..n][i] == votes[i];
    if votes[n].voterId in Voters(votes[..n]) {
      var i :| 0 <= i < n && votes[..n][i].voterId == votes[n].voterId;
      assert votes[i].voterId == votes[n].voterId;
    }
  }

  lemma VerdictMeaning(cert: Certificate, com: Committee)
    ensures CertificateVerdict(cert, com) == Pass <==> ValidCertificate(cert, com)
  {
    VotesVerdictMeaning(cert.votes, SlotOf(cert), com);
  }

  lemma {:induction false} VotesVerdictStays(votes: seq<Vote>, slot: Slot, com: Committee, n: nat)
    requires n <= |votes| && VotesVerdict(votes[..n], slot, com) != Pass
    ensures VotesVerdict(votes, slot, com) == VotesVerdict(votes[..n], slot, com)
    decreases |votes| - n
  {
    if n < |votes| {
      assert votes[..n + 1][..n] == votes[..n];
      VotesVerdictStays(votes, slot, com, n + 1);
    } else {
      assert votes[..n] == votes;
    }
  }

  lemma VotesVerdictSnoc(votes: seq<Vote>, slot: Slot, com: Committee, n: nat)
    requires n < |votes| && VotesVerdict(votes[..n], slot, com) == Pass
    ensures VotesVerdict(votes[..n + 1], slot, com) == VoteVerdict(votes[n], slot, com, Voters(votes[..n]))
    ensures Voters(votes[..n + 1]) == Voters(votes[..n]) + {votes[n].voterId}
    ensures VoteVerdict(votes[n], slot, com, Voters(votes[..n])) == Pass ==> votes[n].voterId !in Voters(votes[..n])
  {
    assert votes[..n + 1][..n] == votes[..n] && votes[..n + 1][n] == votes[n];
  }

  method VerifyQuorumCertificate(cert: Certificate, com: Committee) returns (r: Outcome)
    ensures r == CertificateVerdict(cert, com)
    ensures r == Pass <==> ValidCertificate(cert, com)
  {
    VerdictMeaning(cert, com);
    var header := HeaderVerdict(cert, com);
    if header != Pass { return header; }
    var verdict, unique := CheckVotes(cert.votes, SlotOf(cert), com);
    if verdict != Pass { return verdict; }
    if cert.voteCount != |cert.votes| { return Fail(VoteCountMismatch); }
    if |unique| < cert.threshold { return Fail(InsufficientVotes); }
    r := Pass;
  }

  method CheckVotes(votes: seq<Vote>, slot: Slot, com: Committee) returns (r: Outcome, unique: set<string>)
    ensures r == VotesVerdict(votes, slot, com)
    ensures r == Pass ==> unique == Voters(votes) && |unique| == |votes|
  {
    unique := {};
    for n := 0 to |votes|
      invariant VotesVerdict(votes[..n], slot, com) == Pass
      invariant unique == Voters(votes[..n]) && |unique| == n
    {
      VotesVerdictSnoc(votes, slot, com, n);
      r := VoteVerdict(votes[n], slot, com, unique);
      if r != Pass {
        VotesVerdictStays(votes, slot, com, n + 1);
        return;
      }
      unique := unique + {votes[n].voterId};
    }
    assert votes[..|votes|] == votes;
    r := Pass;
  }

  // ---- Forming a certificate -----------------------------------------------------------------

  /** The voters with a supporting vote. */
  function Supporters(votes: seq<Vote>, slot: Slot): set<string>
  {
    Collected(votes, slot).Keys
  }

  /** For every supporter its supporting vote, the earliest one, with the stage written out. */
  function Collected(votes: seq<Vote>, slot: Slot): map<string, Vote>
    decreases |votes|
  {
    if votes == [] then map[] else
    var before, v := Collected(votes[..|votes| - 1], slot), votes[|votes| - 1];
    if Supports(v, slot) && v.voterId !in before then before[v.voterId := v.(stage := slot.stage)] else before
  }

  /** The k-th vote is the first one in support from its voter. */
  predicate IsFirst(votes: seq<Vote>, slot: Slot, k: nat)
    requires k < |votes|
  {
    Supports(votes[k], slot) && forall j :: 0 <= j < k && Supports(votes[j], slot) ==> votes[j].voterId != votes[k].voterId
  }

  /** A certificate entry: the first supporting vote of its voter, with the stage written out. */
  predicate Entry(v: Vote, votes: seq<Vote>, slot: Slot)
  {
    exists k :: 0 <= k < |votes| && IsFirst(votes, slot, k) && v == votes[k].(stage := slot.stage)
  }

  /** Every voter in support is in `ids`. */
  predicate CoversSupport(ids: set<string>, votes: seq<Vote>, slot: Slot)
  {
    forall i :: 0 <= i < |votes| && Supports(votes[i], slot) ==> votes[i].voterId in ids
  }

  lemma {:induction false} CollectedMeaning(votes: seq<Vote>, slot: Slot)
    ensures CoversSupport(Supporters(votes, slot), votes, slot)
    ensures forall id :: id in Collected(votes, slot) ==>
      Collected(votes, slot)[id].voterId == id && Entry(Collected(votes, slot)[id], votes, slot)
    decreases |votes|
  {
    if votes != [] {
      var n := |votes| - 1;
      var init := votes[..n];
      CollectedMeaning(init, slot);
      assert forall i :: 0 <= i < n ==> init[i] == votes[i];
      forall id | id in Collected(votes, slot)
        ensures Collected(votes, slot)[id].voterId == id && Entry(Collected(votes, slot)[id], votes, slot)
      {
        if id in Collected(init, slot) {
          var k :| 0 <= k < n && IsFirst(init, slot, k) && Collected(init, slot)[id] == init[k].(stage := slot.stage);
          assert IsFirst(votes, slot, k);
        } else {
          assert IsFirst(votes, slot, n);
        }
      }
    }
  }

  predicate IncreasingVoters(votes: seq<Vote>)
  {
    forall i, j :: 0 <= i < j < |votes| ==> Less(votes[i].voterId, votes[j].voterId)
  }

  /** The certificate that the votes determine: one entry for every supporter, its first supporting
      vote with the stage written out, in increasing order of voter id. */
  predicate FormedFrom(cert: Certificate, slot: Slot, votes: seq<Vote>, threshold: int)
  {
    && cert == Certificate(slot.height, slot.round, slot.stage, slot.blockHash, slot.decision, threshold, 0, "", |cert.votes|, cert.votes)
    && IncreasingVoters(cert.votes)
    && CoversSupport(Voters(cert.votes), votes, slot)
    && forall i :: 0 <= i < |cert.votes| ==> Entry(cert.votes[i], votes, slot)
  }

  /** Forming succeeds exactly when the threshold is positive, the stage is a vote stage and enough
      distinct voters support the block. */
  method FormStageQuorumCertificate(height: nat, round: nat, stage: Stage, blockHash: Digest, votes: seq<Vote>, threshold: int)
    returns (r: Result<Certificate>)
    ensures var slot := Slot(height, round, NormalizeStage(stage), blockHash, ToCommit);
      && (r.Ok? <==> threshold > 0 && IsVoteStage(slot.stage) && |Supporters(votes, slot)| >= threshold)
      && (r.Ok? ==> FormedFrom(r.value, slot, votes, threshold))
    ensures r.Err? ==> r.reason == (if threshold <= 0 then BadThreshold
                                    else if !IsVoteStage(NormalizeStage(stage)) then BadStage else InsufficientVotes)
  {
    var slot := Slot(height, round, NormalizeStage(stage), blockHash, ToCommit);
    if threshold <= 0 { return Err(BadThreshold); }
    if !IsVoteStage(slot.stage) { return Err(BadStage); }
    var unique: map<string, Vote> := map[];
    var n := 0;
    while n < |votes|
      invariant 0 <= n <= |votes| && unique == Collected(votes[..n], slot)
    {
      assert votes[..n + 1][..n] == votes[..n];
      if Supports(votes[n], slot) && votes[n].voterId !in unique {
        unique := unique[votes[n].voterId := votes[n].(stage := slot.stage)];
      }
      n := n + 1;
    }
    assert votes[..n] == votes;
    if |unique| < threshold { return Err(InsufficientVotes); }
    assert |unique| == |unique.Keys|;
    var listed := ListVotes(votes, slot, unique);
    r := Ok(Certificate(height, round, slot.stage, blockHash, ToCommit, threshold, 0, "", |unique|, listed));
  }

  method ListVotes(ghost votes: seq<Vote>, ghost slot: Slot, unique: map<string, Vote>) returns (listed: seq<Vote>)
    requires unique == Collected(votes, slot)
    ensures |listed| == |unique| && IncreasingVoters(listed) && Voters(listed) == unique.Keys
    ensures CoversSupport(Voters(listed), votes, slot)
    ensures forall i :: 0 <= i < |listed| ==> Entry(listed[i], votes, slot)
  {
    CollectedMeaning(votes, slot);
    var ids := SortedKeys(unique.Keys);
    listed := [];
    assert forall id :: id in ids <==> id in Elements(ids);
    for n := 0 to |ids|
      invariant |listed| == n
      invariant forall i :: 0 <= i < n ==> ids[i] in unique && listed[i] == unique[ids[i]] && listed[i].voterId == ids[i]
    {
      assert ids[n] in unique;
      listed := listed + [unique[ids[n]]];
    }
    ListedFully(listed, ids, unique);
  }

  lemma ListedFully(listed: seq<Vote>, ids: seq<string>, unique: map<string, Vote>)
    requires |listed| == |ids| && StrictlySorted(ids) && Elements(ids) == unique.Keys
    requires forall i :: 0 <= i < |ids| ==> listed[i].voterId == ids[i]
    ensures |listed| == |unique| && IncreasingVoters(listed) && Voters(listed) == unique.Keys
  {
    VotersListed(listed, ids);
    StrictlySortedDistinct(ids);
    CountVoters(listed);
    assert |unique| == |unique.Keys|;
  }

  lemma VotersListed(votes: seq<Vote>, ids: seq<string>)
    requires |ids| == |votes| && forall i :: 0 <= i < |votes| ==> ids[i] == votes[i].voterId
    ensures Elements(ids) == Voters(votes)
  {
    VotersMeaning(votes);
    forall x ensures x in Elements(ids) <==> x in Voters(votes) {
      if x in Voters(votes) { var i :| 0 <= i < |votes| && votes[i].voterId == x; assert ids[i] == x; }
      if x in ids { var i :| 0 <= i < |ids| && ids[i] == x; assert votes[i].voterId == x; }
    }
  }

  /** The voters of a formed certificate are exactly the supporters. */
  lemma FormedVoters(cert: Certificate, slot: Slot, votes: seq<Vote>, threshold: int)
    requires FormedFrom(cert, slot, votes, threshold)
    ensures Voters(cert.votes) == Supporters(votes, slot) && DistinctVoters(cert.votes)
    ensures |cert.votes| == |Supporters(votes, slot)|
  {
    forall x | x in Voters(cert.votes) ensures x in Supporters(votes, slot) {
      VotersMeaning(cert.votes);
      var i :| 0 <= i < |cert.votes| && cert.votes[i].voterId == x;
      EntrySupports(cert.votes[i], votes, slot);
    }
    forall x | x in Supporters(votes, slot) ensures x in Voters(cert.votes) {
      CollectedMeaning(votes, slot);
      EntryVoter(Collected(votes, slot)[x], votes, slot, Voters(cert.votes));
    }
    forall i, j | 0 <= i < j < |cert.votes| ensures cert.votes[i].voterId != cert.votes[j].voterId { Irreflexive(cert.votes[i].voterId); }
    CountVoters(cert.votes);
  }

  lemma EntryVoter(v: Vote, votes: seq<Vote>, slot: Slot, ids: set<string>)
    requires Entry(v, votes, slot) && CoversSupport(ids, votes, slot)
    ensures v.voterId in ids
  {
    var k :| 0 <= k < |votes| && IsFirst(votes, slot, k) && v == votes[k].(stage := slot.stage);
  }

  lemma EntrySupports(v: Vote, votes: seq<Vote>, slot: Slot)
    requires Entry(v, votes, slot)
    ensures v.voterId in Supporters(votes, slot)
  {
    CollectedMeaning(votes, slot);
    EntryVoter(v, votes, slot, Supporters(votes, slot));
  }

  lemma EntryVerified(v: Vote, votes: seq<Vote>, slot: Slot, com: Committee)
    requires Entry(v, votes, slot) && IsVoteStage(slot.stage)
    requires forall i :: 0 <= i < |votes| ==> VerifyVote(votes[i], com) == Pass
    ensures GoodVote(v, slot, com) && v.voterId in com.identities
    ensures slot.decision == ToCommit && slot.height > 0 && slot.blockHash != EMPTY
  {
    var k :| 0 <= k < |votes| && IsFirst(votes, slot, k) && v == votes[k].(stage := slot.stage);
    assert VerifyVote(votes[k], com) == Pass;
  }

  lemma EntryUnique(v: Vote, w: Vote, votes: seq<Vote>, slot: Slot)
    requires Entry(v, votes, slot) && Entry(w, votes, slot) && v.voterId == w.voterId
    ensures v == w
  {
    var k :| 0 <= k < |votes| && IsFirst(votes, slot, k) && v == votes[k].(stage := slot.stage);
    var j :| 0 <= j < |votes| && IsFirst(votes, slot, j) && w == votes[j].(stage := slot.stage);
    assert k == j;
  }

  function VoterIds(votes: seq<Vote>): (ids: seq<string>)
    ensures |ids| == |votes| && forall i :: 0 <= i < |votes| ==> ids[i] == votes[i].voterId
    decreases |votes|
  {
    if votes == [] then [] else VoterIds(votes[..|votes| - 1]) + [votes[|votes| - 1].voterId]
  }

  /** Nothing about the certificate is left open by `FormedFrom`. */
  lemma FormedUnique(a: Certificate, b: Certificate, slot: Slot, votes: seq<Vote>, threshold: int)
    requires FormedFrom(a, slot, votes, threshold) && FormedFrom(b, slot, votes, threshold)
    ensures a == b
  {
    FormedVoters(a, slot, votes, threshold);
    FormedVoters(b, slot, votes, threshold);
    var ids, ids' := VoterIds(a.votes), VoterIds(b.votes);
    VotersListed(a.votes, ids);
    VotersListed(b.votes, ids');
    StrictlySortedUnique(ids, ids');
    forall i | 0 <= i < |a.votes| ensures a.votes[i] == b.votes[i] {
      assert ids[i] == ids'[i];
      EntryUnique(a.votes[i], b.votes[i], votes, slot);
    }
  }

  /** A certificate formed from verified votes passes verification; in particular its threshold does
      not exceed the number of identities. */
  lemma FormedIsValid(cert: Certificate, com: Committee, slot: Slot, votes: seq<Vote>, threshold: int)
    requires FormedFrom(cert, slot, votes, threshold)
    requires 0 < threshold <= |Supporters(votes, slot)| && IsVoteStage(slot.stage)
    requires forall i :: 0 <= i < |votes| ==> VerifyVote(votes[i], com) == Pass
    ensures ValidCertificate(cert, com)
  {
    FormedVoters(cert, slot, votes, threshold);
    forall i | 0 <= i < |cert.votes| ensures GoodVote(cert.votes[i], slot, com) && cert.votes[i].voterId in com.identities {
      EntryVerified(cert.votes[i], votes, slot, com);
    }
    assert Voters(cert.votes) <= com.identities.Keys by { VotersMeaning(cert.votes); }
    SubsetSize(Voters(cert.votes), com.identities.Keys);
    assert |com.identities.Keys| == |com.identities|;
    EntryVerified(cert.votes[0], votes, slot, com);
  }

  lemma SubsetSize<T>(a: set<T>, b: set<T>)
    requires a <= b
    ensures |a| <= |b|
  {
    assert b == a + (b - a);
  }

  // ---- Quorum intersection -------------------------------------------------------------------

  /** Two quorums of `t` out of `all` share a member outside `faulty` as soon as 2t exceeds
      |all| + |faulty|. */
  lemma QuorumsMeet(all: set<string>, faulty: set<string>, p: set<string>, q: set<string>, t: int) returns (x: string)
    requires p <= all && q <= all && |p| >= t && |q| >= t && 2 * t > |all| + |faulty|
    ensures x in p && x in q && x !in faulty
  {
    SubsetSize(p + q, all);
    assert |p + q| == |p| + |q| - |p * q|;
    if p * q <= faulty { SubsetSize(p * q, faulty); assert false; }
    x :| x in p * q && x !in faulty;
  }
}
