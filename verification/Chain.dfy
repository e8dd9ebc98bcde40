/** What a validator's commit log is: a chain of certified blocks whose replay gives its machine, and
    what its store holds of it. */
module Chain {
  import opened Messages
  import opened StateMachine
  import opened Protocol
  import opened Storage
  import opened Node

  function Last<T>(s: seq<T>): T
    requires s != []
  {
    s[|s| - 1]
  }

  function Init<T>(s: seq<T>): seq<T>
    requires s != []
  {
    s[..|s| - 1]
  }

  function TipHash(commits: seq<Commit>): Digest
  {
    if commits == [] then GENESIS_HASH else Last(commits).block.Hash()
  }

  /** The transactions of the blocks, block by block. */
  function Inputs(commits: seq<Commit>): (inputs: seq<seq<Transaction>>)
    ensures |inputs| == |commits|
    decreases |commits|
  {
    if commits == [] then [] else Inputs(Init(commits)) + [Last(commits).block.transactions]
  }

  /** The machine after the blocks, from genesis. */
  function MachineAfter(commits: seq<Commit>): Result<MachineState>
  {
    Replay(Inputs(commits))
  }

  /** Heights 1, 2, ..., hashes linked from GENESIS, every block certified, and every block naming
      the digest of the machine that replaying the log up to it gives. */
  predicate Linked(com: Committee, commits: seq<Commit>)
    decreases |commits|
  {
    commits == [] ||
    (var b := Last(commits).block;
     && Linked(com, Init(commits))
     && b.height == |commits|
     && b.previousHash == TipHash(Init(commits))
     && VerifyCommit(com, Last(commits)) == Pass
     && MachineAfter(commits).Ok? && MachineAfter(commits).value.digest == b.stateDigest)
  }

  predicate ChainInv(com: Committee, s: NodeState)
  {
    && Linked(com, s.commits)
    && s.lastHash == TipHash(s.commits)
    && MachineAfter(s.commits) == Ok(s.machine)
  }

  function Records(cfg: Config, commits: seq<Commit>): (records: seq<CommitRecord>)
    ensures |records| == |commits| && forall i :: 0 <= i < |commits| ==> records[i] == RecordOf(cfg, commits[i])
    decreases |commits|
  {
    if commits == [] then [] else Records(cfg, Init(commits)) + [RecordOf(cfg, Last(commits))]
  }

  function LockOf(b: Block): Lock
  {
    Lock(b.height, b.round, b.Hash())
  }

  /** The store holds a record of every commit, and the state as of the last one. */
  predicate StoreInv(cfg: Config, s: NodeState)
  {
    && s.store.log == Records(cfg, s.commits)
    && s.store.commits == ByHeight(s.store.log)
    && s.store.state == (if s.commits == [] then None
                         else Some(DurableState(cfg, LockOf(Last(s.commits).block), Last(s.commits).block)))
  }

  /** A validator restarted from its store: everything that is only in memory is gone; the lock is that of the last committed block. */
  function Rebooted(s: NodeState): NodeState
  {
    INITIAL.(commits := s.commits, lastHash := s.lastHash, machine := s.machine, store := s.store,
             lock := if s.commits == [] then NO_LOCK else LockOf(Last(s.commits).block))
  }

  lemma InputsSnoc(commits: seq<Commit>, c: Commit)
    ensures Inputs(commits + [c]) == Inputs(commits) + [c.block.transactions]
    ensures MachineAfter(commits + [c]) == match MachineAfter(commits) case Err(e) => Err(e) case Ok(m) => Transition(m, c.block.transactions)
  {
    assert Init(commits + [c]) == commits;
    assert Inputs(commits + [c])[..|commits|] == Inputs(commits);
  }

  lemma RecordsSnoc(cfg: Config, commits: seq<Commit>, c: Commit)
    ensures Records(cfg, commits + [c]) == Records(cfg, commits) + [RecordOf(cfg, c)]
    ensures ByHeight(Records(cfg, commits + [c])) == ByHeight(Records(cfg, commits))[c.block.height := RecordOf(cfg, c)]
  {
    assert Init(commits + [c]) == commits;
    assert (Records(cfg, commits) + [RecordOf(cfg, c)])[..|commits|] == Records(cfg, commits);
  }

  /** What a chain says of its last commit. */
  lemma LinkedLast(com: Committee, init: seq<Commit>, c: Commit)
    requires Linked(com, init + [c])
    ensures Linked(com, init) && TipHash(init + [c]) == c.block.Hash()
    ensures c.block.height == |init| + 1 && c.block.previousHash == TipHash(init) && VerifyCommit(com, c) == Pass
    ensures MachineAfter(init).Ok? && Transition(MachineAfter(init).value, c.block.transactions) == MachineAfter(init + [c])
    ensures MachineAfter(init + [c]).Ok? && MachineAfter(init + [c]).value.digest == c.block.stateDigest
  {
    assert Init(init + [c]) == init;
    InputsSnoc(init, c);
  }

  predicate Numbered(commits: seq<Commit>)
  {
    forall k :: 0 <= k < |commits| ==> commits[k].block.height == k + 1
  }

  lemma LinkedNumbered(com: Committee, commits: seq<Commit>)
    requires Linked(com, commits)
    ensures Numbered(commits)
  {
    forall k | 0 <= k < |commits| ensures commits[k].block.height == k + 1 { LinkedHeight(com, commits, k); }
  }

  lemma {:induction false} LinkedHeight(com: Committee, commits: seq<Commit>, k: nat)
    requires Linked(com, commits) && k < |commits|
    ensures commits[k].block.height == k + 1
    decreases |commits|
  {
    if k < |commits| - 1 {
      LinkedHeight(com, Init(commits), k);
      assert Init(commits)[k] == commits[k];
    }
  }

  lemma {:induction false} LinkedVerified(com: Committee, commits: seq<Commit>, k: nat)
    requires Linked(com, commits) && k < |commits|
    ensures VerifyCommit(com, commits[k]) == Pass
    decreases |commits|
  {
    if k < |commits| - 1 {
      LinkedVerified(com, Init(commits), k);
      assert Init(commits)[k] == commits[k];
    }
  }

  lemma RecordHeights(cfg: Config, commits: seq<Commit>)
    requires Numbered(commits)
    ensures forall h :: h in ByHeight(Records(cfg, commits)) ==> 1 <= h <= |commits|
    ensures DistinctHeights(Records(cfg, commits))
  {
    ByHeightMeaning(Records(cfg, commits));
  }

  lemma LinkedSnoc(com: Committee, commits: seq<Commit>, c: Commit)
    requires Linked(com, commits) && VerifyCommit(com, c) == Pass
    requires c.block.height == |commits| + 1 && c.block.previousHash == TipHash(commits)
    requires MachineAfter(commits + [c]).Ok? && MachineAfter(commits + [c]).value.digest == c.block.stateDigest
    ensures Linked(com, commits + [c]) && TipHash(commits + [c]) == c.block.Hash()
  {
    assert Init(commits + [c]) == commits;
  }

  /** The effect of a commit: nothing, or the next block appended, locked and stored. */
  lemma AcceptCases(cfg: Config, s: NodeState, c: Commit)
    requires |s.commits| + 1 !in s.store.commits
    ensures var (s', r) := Accept(cfg, s, c);
      s' == s ||
      (&& VerifyCommit(cfg.com, c) == Pass && NextVerdict(s, c.block) == Pass && r == Pass
       && s' == Installed(cfg, s, c, Transition(s.machine, c.block.transactions).value).0
       && s'.commits == s.commits + [c])
  {
  }

  lemma InstalledKeepsChain(cfg: Config, s: NodeState, c: Commit, next: MachineState)
    requires ChainInv(cfg.com, s) && VerifyCommit(cfg.com, c) == Pass
    requires c.block.height == |s.commits| + 1 && c.block.previousHash == s.lastHash
    requires Transition(s.machine, c.block.transactions) == Ok(next) && next.digest == c.block.stateDigest
    requires Installed(cfg, s, c, next).1 == Pass
    ensures ChainInv(cfg.com, Installed(cfg, s, c, next).0)
  {
    InputsSnoc(s.commits, c);
    LinkedSnoc(cfg.com, s.commits, c);
  }

  lemma InstalledKeepsStore(cfg: Config, s: NodeState, c: Commit, next: MachineState)
    requires StoreInv(cfg, s) && c.block.height !in s.store.commits
    ensures StoreInv(cfg, Installed(cfg, s, c, next).0)
  {
    RecordsSnoc(cfg, s.commits, c);
  }

  /** A commit that is accepted extends the chain, and a commit that passes all checks is never
      refused by the store. */
  lemma AcceptKeepsChain(cfg: Config, s: NodeState, c: Commit)
    requires ChainInv(cfg.com, s) && StoreInv(cfg, s)
    ensures var s' := Accept(cfg, s, c).0;
      && ChainInv(cfg.com, s') && StoreInv(cfg, s')
      && (s' == s || (s'.commits == s.commits + [c] && VerifyCommit(cfg.com, c) == Pass))
  {
    LinkedNumbered(cfg.com, s.commits);
    RecordHeights(cfg, s.commits);
    AcceptCases(cfg, s, c);
    if Accept(cfg, s, c).0 != s {
      var next := Transition(s.machine, c.block.transactions).value;
      InstalledKeepsChain(cfg, s, c, next);
      InstalledKeepsStore(cfg, s, c, next);
    }
  }

  /** Voting leaves the log, the machine and the store alone. */
  lemma VoteKeepsChain(cfg: Config, s: NodeState, b: Block, stage: Stage, qc: Option<Certificate>)
    ensures SameRecord(s, VoteOn(cfg, s, b, stage, qc).0)
  {
    CastKeepsRecord(cfg, RecordProposal(s, b), b, stage);
  }

  predicate SameRecord(s: NodeState, t: NodeState)
  {
    t.commits == s.commits && t.lastHash == s.lastHash && t.machine == s.machine && t.store == s.store
  }

  lemma CastKeepsRecord(cfg: Config, s: NodeState, b: Block, stage: Stage)
    ensures SameRecord(s, Cast(cfg, s, b, stage).0)
  {
  }

  lemma {:induction false} LinkedPrefix(com: Committee, commits: seq<Commit>, n: nat)
    requires Linked(com, commits) && n <= |commits|
    ensures Linked(com, commits[..n])
    decreases |commits|
  {
    if n == |commits| {
      assert commits[..n] == commits;
    } else {
      LinkedPrefix(com, Init(commits), n);
      assert Init(commits)[..n] == commits[..n];
    }
  }

  /** The same blocks give the same inputs, whatever their certificates. */
  lemma {:induction false} SameBlocks(a: seq<Commit>, b: seq<Commit>)
    requires |a| == |b| && forall k :: 0 <= k < |a| ==> a[k].block == b[k].block
    ensures Inputs(a) == Inputs(b) && TipHash(a) == TipHash(b)
    decreases |a|
  {
    if a != [] {
      assert forall k :: 0 <= k < |a| - 1 ==> Init(a)[k] == a[k] && Init(b)[k] == b[k];
      SameBlocks(Init(a), Init(b));
    }
  }
}
