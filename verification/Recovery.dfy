/** Restarting a validator from its disk (consensus/validator/node.go, core/storage/file.go). */
module Recovery {
  import opened Messages
  import opened StateMachine
  import opened Protocol
  import opened Storage
  import opened Node
  import opened Chain
  import Safety

  predicate KeyKnown(cfg: Config, keyId: string)
  {
    keyId == "" || keyId == cfg.KeyId()
  }

  /** The checks on the next stored record, after the given commits. */
  function RecordVerdict(cfg: Config, commits: seq<Commit>, previous: Digest, m: MachineState, r: CommitRecord): Result<(Commit, MachineState)>
  {
    if r.height != |commits| + 1 then Err(HeightMismatch)
    else if !KeyKnown(cfg, r.identityKeyId) then Err(UnknownKey)
    else match r.commitJson
    case NoJson => Err(MalformedRecord)
    case Garbage => Err(MalformedRecord)
    case Encoded(c) =>
      if c.block.height != r.height then Err(HeightMismatch)
      else if c.block.Hash() != r.blockHash then Err(HashMismatch)
      else if r.stateDigest != EMPTY && r.stateDigest != c.block.stateDigest then Err(StateDigestMismatch)
      else if c.block.previousHash != previous then Err(PreviousHashMismatch)
      else match VerifyCommit(cfg.com, c)
      case Fail(e) => Err(e)
      case Pass =>
        match Transition(m, c.block.transactions)
        case Err(e) => Err(e)
        case Ok(next) => if c.block.stateDigest != next.digest then Err(StateDigestMismatch) else Ok((c, next))
  }

  datatype Loaded = Loaded(commits: seq<Commit>, lastHash: Digest, machine: MachineState)

  function LoadRecords(cfg: Config, records: seq<CommitRecord>): Result<Loaded>
    decreases |records|
  {
    if records == [] then Ok(Loaded([], GENESIS_HASH, GENESIS)) else
    match LoadRecords(cfg, records[..|records| - 1])
    case Err(e) => Err(e)
    case Ok(l) => AddRecord(cfg, l, records[|records| - 1])
  }

  function AddRecord(cfg: Config, l: Loaded, r: CommitRecord): Result<Loaded>
  {
    match RecordVerdict(cfg, l.commits, l.lastHash, l.machine, r)
    case Err(e) => Err(e)
    case Ok(v) => Ok(Loaded(l.commits + [v.0], v.0.block.Hash(), v.1))
  }

  function StateVerdict(cfg: Config, l: Loaded, state: ValidatorState): Outcome
  {
    if state.nodeId != "" && state.nodeId != cfg.id then Fail(DurableStateMismatch)
    else if !KeyKnown(cfg, state.identityKeyId) then Fail(UnknownKey)
    else if state.height != |l.commits| then Fail(DurableStateMismatch)
    else if l.commits == [] && state.lastHash != EMPTY && state.lastHash != GENESIS_HASH then Fail(DurableStateMismatch)
    else if l.commits != [] && state.lastHash != l.lastHash then Fail(DurableStateMismatch)
    else if state.stateDigest != EMPTY && state.stateDigest != l.machine.digest then Fail(DurableStateMismatch)
    else Pass
  }

  /** The state of a validator that starts from stored records and a stored state. */
  function LoadPersisted(cfg: Config, records: seq<CommitRecord>, store: CommitStore): Result<NodeState>
  {
    match LoadRecords(cfg, records)
    case Err(e) => Err(e)
    case Ok(l) =>
      var s := INITIAL.(commits := l.commits, lastHash := l.lastHash, machine := l.machine, store := store);
      match store.state
      case None => Ok(s)
      case Some(state) =>
        match StateVerdict(cfg, l, state)
        case Fail(e) => Err(e)
        case Pass => Ok(s.(lock := Lock(state.lockedHeight, state.lockedRound, state.lockedBlockHash)))
  }

  lemma {:induction false} LoadRecordsStops(cfg: Config, records: seq<CommitRecord>, n: nat)
    requires n <= |records| && LoadRecords(cfg, records[..n]).Err?
    ensures LoadRecords(cfg, records) == LoadRecords(cfg, records[..n])
    decreases |records| - n
  {
    if n < |records| {
      assert records[..n + 1][..n] == records[..n];
      LoadRecordsStops(cfg, records, n + 1);
    } else {
      assert records[..n] == records;
    }
  }

  /** The loop over the stored records. */
  method ReplayRecords(cfg: Config, records: seq<CommitRecord>) returns (r: Result<Loaded>)
    ensures r == LoadRecords(cfg, records)
  {
    var l := Loaded([], GENESIS_HASH, GENESIS);
    for n := 0 to |records|
      invariant LoadRecords(cfg, records[..n]) == Ok(l)
    {
      assert records[..n + 1][..n] == records[..n];
      r := AddRecord(cfg, l, records[n]);
      if r.Err? {
        LoadRecordsStops(cfg, records, n + 1);
        return;
      }
      l := r.value;
    }
    assert records[..|records|] == records;
    r := Ok(l);
  }

  /** What a validator becomes by loading: log, hash and machine are those loaded, the lock too if a
      state was stored, and the rest stays. */
  function Resumed(before: NodeState, loaded: NodeState): NodeState
  {
    before.(commits := loaded.commits, lastHash := loaded.lastHash, machine := loaded.machine,
            lock := if before.store.state.Some? then loaded.lock else before.lock)
  }

  /** Loading the stored records of the heights `hs` and the stored state. */
  function Resume(cfg: Config, before: NodeState, hs: seq<nat>): Result<NodeState>
    requires forall h :: h in hs ==> h in before.store.commits
  {
    match LoadPersisted(cfg, Pick(before.store.commits, hs), before.store)
    case Err(e) => Err(e)
    case Ok(loaded) => Ok(Resumed(before, loaded))
  }

  /** On a complaint nothing changes. */
  method LoadPersistedState(v: Validator) returns (r: Outcome, ghost hs: seq<nat>)
    requires v.Valid()
    modifies v
    ensures v.Valid() && Increasing(hs) && Lists(hs, old(v.store.commits).Keys)
    ensures var after := Resume(v.cfg, old(v.View()), hs);
      if after.Ok? then r == Pass && v.View() == after.value else r == Fail(after.reason) && v.View() == old(v.View())
  {
    var records, heights := v.store.ListCommits();
    hs := heights;
    var loaded := ReplayRecords(v.cfg, records);
    if loaded.Err? { return Fail(loaded.reason), hs; }
    var l := loaded.value;
    if v.store.state.Some? {
      var state := v.store.state.value;
      var verdict := StateVerdict(v.cfg, l, state);
      if verdict.Fail? { return verdict, hs; }
      v.lock := Lock(state.lockedHeight, state.lockedRound, state.lockedBlockHash);
    }
    v.commits, v.lastHash := l.commits, l.lastHash;
    v.machine := new StateMachine.Machine.Copy(l.machine.digest, l.machine.applied);
    r := Pass;
  }

  // ---- What can be loaded --------------------------------------------------------------------

  /** The record holds the commit. */
  predicate Tells(cfg: Config, r: CommitRecord, c: Commit)
  {
    && r.commitJson == Encoded(c) && r.height == c.block.height && r.blockHash == OfBlock(c.block)
    && (r.stateDigest == EMPTY || r.stateDigest == c.block.stateDigest)
    && (r.identityKeyId == "" || r.identityKeyId == cfg.KeyId())
  }

  predicate Tell(cfg: Config, records: seq<CommitRecord>, commits: seq<Commit>)
  {
    |records| == |commits| && forall k :: 0 <= k < |records| ==> Tells(cfg, records[k], commits[k])
  }

  /** What is loaded is a chain that the records hold. */
  predicate IsLoaded(cfg: Config, records: seq<CommitRecord>, l: Loaded)
  {
    Tell(cfg, records, l.commits) && Linked(cfg.com, l.commits) && l.lastHash == TipHash(l.commits) && MachineAfter(l.commits) == Ok(l.machine)
  }

  lemma AddedRecord(cfg: Config, l: Loaded, r: CommitRecord)
    requires Linked(cfg.com, l.commits) && l.lastHash == TipHash(l.commits) && MachineAfter(l.commits) == Ok(l.machine)
    requires AddRecord(cfg, l, r).Ok?
    ensures var l' := AddRecord(cfg, l, r).value;
      && l'.commits == l.commits + [Last(l'.commits)] && Tells(cfg, r, Last(l'.commits))
      && Linked(cfg.com, l'.commits) && l'.lastHash == TipHash(l'.commits) && MachineAfter(l'.commits) == Ok(l'.machine)
  {
    RecordPasses(cfg, l, r);
    ChainMore(cfg, l, r.commitJson.commit, AddRecord(cfg, l, r).value.machine);
  }

  lemma RecordPasses(cfg: Config, l: Loaded, r: CommitRecord)
    requires AddRecord(cfg, l, r).Ok?
    ensures var l' := AddRecord(cfg, l, r).value;
      && r.commitJson.Encoded?
      && var c := r.commitJson.commit;
      && l' == Loaded(l.commits + [c], c.block.Hash(), l'.machine) && Tells(cfg, r, c)
      && c.block.height == |l.commits| + 1 && c.block.previousHash == l.lastHash && VerifyCommit(cfg.com, c) == Pass
      && Transition(l.machine, c.block.transactions) == Ok(l'.machine) && l'.machine.digest == c.block.stateDigest
  {
  }

  lemma ChainMore(cfg: Config, l: Loaded, c: Commit, m: MachineState)
    requires Linked(cfg.com, l.commits) && l.lastHash == TipHash(l.commits) && MachineAfter(l.commits) == Ok(l.machine)
    requires c.block.height == |l.commits| + 1 && c.block.previousHash == l.lastHash && VerifyCommit(cfg.com, c) == Pass
    requires Transition(l.machine, c.block.transactions) == Ok(m) && m.digest == c.block.stateDigest
    ensures Linked(cfg.com, l.commits + [c]) && TipHash(l.commits + [c]) == c.block.Hash() && MachineAfter(l.commits + [c]) == Ok(m)
  {
    InputsSnoc(l.commits, c);
    LinkedSnoc(cfg.com, l.commits, c);
  }

  lemma {:induction false} LoadedMeaning(cfg: Config, records: seq<CommitRecord>)
    ensures LoadRecords(cfg, records).Ok? ==> IsLoaded(cfg, records, LoadRecords(cfg, records).value)
    decreases |records|
  {
    if records != [] && LoadRecords(cfg, records).Ok? {
      var before := records[..|records| - 1];
      LoadedBefore(cfg, records);
      LoadedMeaning(cfg, before);
      LoadedOn(cfg, records, LoadRecords(cfg, before).value);
    }
  }

  lemma LoadedOn(cfg: Config, records: seq<CommitRecord>, l: Loaded)
    requires records != [] && IsLoaded(cfg, records[..|records| - 1], l) && AddRecord(cfg, l, records[|records| - 1]).Ok?
    ensures IsLoaded(cfg, records, AddRecord(cfg, l, records[|records| - 1]).value)
  {
    assert records == records[..|records| - 1] + [records[|records| - 1]];
    LoadedMore(cfg, records[..|records| - 1], records[|records| - 1], l);
  }

  lemma LoadedBefore(cfg: Config, records: seq<CommitRecord>)
    requires records != [] && LoadRecords(cfg, records).Ok?
    ensures var before := LoadRecords(cfg, records[..|records| - 1]);
      before.Ok? && LoadRecords(cfg, records) == AddRecord(cfg, before.value, records[|records| - 1])
  {
  }

  lemma LoadedMore(cfg: Config, before: seq<CommitRecord>, r: CommitRecord, l: Loaded)
    requires IsLoaded(cfg, before, l) && AddRecord(cfg, l, r).Ok?
    ensures IsLoaded(cfg, before + [r], AddRecord(cfg, l, r).value)
  {
    AddedRecord(cfg, l, r);
    TellMore(cfg, before, r, l.commits, Last(AddRecord(cfg, l, r).value.commits));
  }

  lemma TellMore(cfg: Config, before: seq<CommitRecord>, r: CommitRecord, init: seq<Commit>, c: Commit)
    requires Tells(cfg, r, c)
    ensures Tell(cfg, before + [r], init + [c]) <==> Tell(cfg, before, init)
  {
    if Tell(cfg, before + [r], init + [c]) {
      forall k | 0 <= k < |before| ensures Tells(cfg, before[k], init[k]) { assert Tells(cfg, (before + [r])[k], (init + [c])[k]); }
    }
  }

  /** Records that hold a chain load. */
  lemma {:induction false} RecordsLoad(cfg: Config, records: seq<CommitRecord>, commits: seq<Commit>)
    requires Tell(cfg, records, commits) && Linked(cfg.com, commits)
    ensures MachineAfter(commits).Ok?
    ensures LoadRecords(cfg, records) == Ok(Loaded(commits, TipHash(commits), MachineAfter(commits).value))
    decreases |commits|
  {
    if commits != [] {
      RecordsShorter(cfg, records, commits);
      RecordsLoad(cfg, records[..|records| - 1], Init(commits));
      RecordsOn(cfg, records, commits, LoadRecords(cfg, records[..|records| - 1]).value);
    }
  }

  lemma RecordsShorter(cfg: Config, records: seq<CommitRecord>, commits: seq<Commit>)
    requires Tell(cfg, records, commits) && Linked(cfg.com, commits) && commits != []
    ensures Tell(cfg, records[..|records| - 1], Init(commits)) && Linked(cfg.com, Init(commits))
    ensures Tells(cfg, records[|records| - 1], Last(commits))
  {
    forall k | 0 <= k < |commits| - 1 ensures Tells(cfg, records[..|records| - 1][k], Init(commits)[k]) {
      assert Tells(cfg, records[k], commits[k]);
    }
  }

  lemma RecordsOn(cfg: Config, records: seq<CommitRecord>, commits: seq<Commit>, l: Loaded)
    requires |records| == |commits| > 0 && Tells(cfg, records[|records| - 1], Last(commits)) && Linked(cfg.com, commits)
    requires LoadRecords(cfg, records[..|records| - 1]) == Ok(l)
    requires l.commits == Init(commits) && l.lastHash == TipHash(l.commits) && MachineAfter(l.commits) == Ok(l.machine)
    ensures MachineAfter(commits).Ok?
    ensures LoadRecords(cfg, records) == Ok(Loaded(commits, TipHash(commits), MachineAfter(commits).value))
  {
    assert commits == l.commits + [Last(commits)] && records == records[..|records| - 1] + [records[|records| - 1]];
    LoadsOn(cfg, records[..|records| - 1], records[|records| - 1], l.commits, Last(commits), l);
  }

  lemma LoadsOn(cfg: Config, before: seq<CommitRecord>, r: CommitRecord, init: seq<Commit>, c: Commit, l: Loaded)
    requires Tells(cfg, r, c) && Linked(cfg.com, init + [c]) && LoadRecords(cfg, before) == Ok(l)
    requires l.commits == init && l.lastHash == TipHash(init) && MachineAfter(init) == Ok(l.machine)
    ensures MachineAfter(init + [c]).Ok?
    ensures LoadRecords(cfg, before + [r]) == Ok(Loaded(init + [c], TipHash(init + [c]), MachineAfter(init + [c]).value))
  {
    LinkedLast(cfg.com, init, c);
    LoadsMore(cfg, before, r, init, c, l.machine, MachineAfter(init + [c]).value);
  }

  lemma TellLast(cfg: Config, before: seq<CommitRecord>, r: CommitRecord, init: seq<Commit>, c: Commit)
    requires Tell(cfg, before + [r], init + [c])
    ensures Tells(cfg, r, c) && Tell(cfg, before, init)
  {
    assert Tells(cfg, (before + [r])[|before|], (init + [c])[|before|]);
    TellMore(cfg, before, r, init, c);
  }

  lemma LoadsMore(cfg: Config, records: seq<CommitRecord>, r: CommitRecord, init: seq<Commit>, c: Commit, m: MachineState, next: MachineState)
    requires LoadRecords(cfg, records) == Ok(Loaded(init, TipHash(init), m)) && Tells(cfg, r, c)
    requires c.block.height == |init| + 1 && c.block.previousHash == TipHash(init) && VerifyCommit(cfg.com, c) == Pass
    requires Transition(m, c.block.transactions) == Ok(next) && next.digest == c.block.stateDigest
    ensures LoadRecords(cfg, records + [r]) == Ok(Loaded(init + [c], c.block.Hash(), next))
  {
    RecordLoads(cfg, r, init, c, m, next);
    LoadRecordsSnoc(cfg, records, Loaded(init, TipHash(init), m), r);
  }

  lemma LoadRecordsSnoc(cfg: Config, records: seq<CommitRecord>, l: Loaded, r: CommitRecord)
    requires LoadRecords(cfg, records) == Ok(l)
    ensures LoadRecords(cfg, records + [r]) == AddRecord(cfg, l, r)
  {
    assert (records + [r])[..|records|] == records;
  }

  lemma RecordLoads(cfg: Config, r: CommitRecord, init: seq<Commit>, c: Commit, m: MachineState, next: MachineState)
    requires Tells(cfg, r, c)
    requires c.block.height == |init| + 1 && c.block.previousHash == TipHash(init) && VerifyCommit(cfg.com, c) == Pass
    requires Transition(m, c.block.transactions) == Ok(next) && next.digest == c.block.stateDigest
    ensures AddRecord(cfg, Loaded(init, TipHash(init), m), r) == Ok(Loaded(init + [c], c.block.Hash(), next))
  {
  }

  /** The stored state is of this validator at the end of the chain; an empty log may have an empty hash. */
  predicate Fitting(cfg: Config, commits: seq<Commit>, state: ValidatorState)
  {
    && (state.nodeId == "" || state.nodeId == cfg.id)
    && (state.identityKeyId == "" || state.identityKeyId == cfg.KeyId())
    && state.height == |commits|
    && (state.lastHash == TipHash(commits) || (commits == [] && state.lastHash == EMPTY))
    && (state.stateDigest == EMPTY || (MachineAfter(commits).Ok? && state.stateDigest == MachineAfter(commits).value.digest))
  }

  lemma StateMeaning(cfg: Config, l: Loaded, state: ValidatorState)
    requires l.lastHash == TipHash(l.commits) && MachineAfter(l.commits) == Ok(l.machine)
    ensures StateVerdict(cfg, l, state) == Pass <==> Fitting(cfg, l.commits, state)
  {
  }

  /** The records hold a chain, and the stored state, if there is one, fits it. */
  predicate Loadable(cfg: Config, records: seq<CommitRecord>, state: Option<ValidatorState>, commits: seq<Commit>)
  {
    Tell(cfg, records, commits) && Linked(cfg.com, commits) && (state.Some? ==> Fitting(cfg, commits, state.value))
  }

  /** The validator that starts with a chain; its lock is the one stored. */
  predicate StartsWith(s: NodeState, store: CommitStore, commits: seq<Commit>)
  {
    && s.commits == commits && s.lastHash == TipHash(commits) && MachineAfter(commits) == Ok(s.machine) && s.store == store
    && s.currentRound == map[] && s.votes == map[] && s.proposals == map[]
    && s.lock == match store.state
                 case None => Lock(0, 0, EMPTY)
                 case Some(state) => Lock(state.lockedHeight, state.lockedRound, state.lockedBlockHash)
  }

  /** Loading succeeds if and only if the records hold a chain that the stored state fits, whoever wrote them,
      and then gives that chain. */
  lemma LoadsExactly(cfg: Config, records: seq<CommitRecord>, store: CommitStore)
    ensures LoadPersisted(cfg, records, store).Ok? <==> exists commits :: Loadable(cfg, records, store.state, commits)
    ensures forall commits :: Loadable(cfg, records, store.state, commits) ==>
      LoadPersisted(cfg, records, store).Ok? && StartsWith(LoadPersisted(cfg, records, store).value, store, commits)
  {
    forall commits | Loadable(cfg, records, store.state, commits)
      ensures LoadPersisted(cfg, records, store).Ok? && StartsWith(LoadPersisted(cfg, records, store).value, store, commits)
    {
      LoadableLoads(cfg, records, store, commits);
    }
    if LoadPersisted(cfg, records, store).Ok? {
      LoadedMeaning(cfg, records);
      var l := LoadRecords(cfg, records).value;
      if store.state.Some? { StateMeaning(cfg, l, store.state.value); }
      assert Loadable(cfg, records, store.state, l.commits);
    }
  }

  lemma LoadableLoads(cfg: Config, records: seq<CommitRecord>, store: CommitStore, commits: seq<Commit>)
    requires Loadable(cfg, records, store.state, commits)
    ensures LoadPersisted(cfg, records, store).Ok? && StartsWith(LoadPersisted(cfg, records, store).value, store, commits)
  {
    RecordsLoad(cfg, records, commits);
    if store.state.Some? { StateMeaning(cfg, LoadRecords(cfg, records).value, store.state.value); }
  }

  // ---- The round trip ------------------------------------------------------------------------

  lemma RecordsTell(cfg: Config, commits: seq<Commit>)
    ensures Tell(cfg, Records(cfg, commits), commits)
  {
  }

  lemma ListedRecords(cfg: Config, commits: seq<Commit>, hs: seq<nat>)
    requires Numbered(commits)
    requires Increasing(hs) && Lists(hs, ByHeight(Records(cfg, commits)).Keys)
    ensures Pick(ByHeight(Records(cfg, commits)), hs) == Records(cfg, commits)
  {
    ListedLog(Records(cfg, commits), hs);
  }

  lemma ListedLog(log: seq<CommitRecord>, hs: seq<nat>)
    requires forall i :: 0 <= i < |log| ==> log[i].height == i + 1
    requires Increasing(hs) && Lists(hs, ByHeight(log).Keys)
    ensures Pick(ByHeight(log), hs) == log
  {
    ByHeightMeaning(log);
    forall h | 1 <= h <= |log| ensures h in hs { assert log[h - 1].height == h; }
    CountingUp(hs, |log|);
    var m := ByHeight(log);
    forall i | 0 <= i < |log| ensures m[i + 1] == log[i] { assert m[log[i].height] == log[i]; }
  }

  lemma {:induction false} CountingUp(hs: seq<nat>, n: nat)
    requires Increasing(hs) && forall h :: h in hs <==> 1 <= h <= n
    ensures |hs| == n && forall i :: 0 <= i < n ==> hs[i] == i + 1
    decreases |hs|
  {
    if hs == [] {
      assert n > 0 ==> n in hs;
    } else {
      var last := hs[|hs| - 1];
      assert last in hs && n in hs;
      var i :| 0 <= i < |hs| && hs[i] == n;
      assert last == n;
      var init := hs[..|hs| - 1];
      forall h ensures h in init <==> 1 <= h <= n - 1 {
        if h in init { var j :| 0 <= j < |init| && init[j] == h; assert hs[j] in hs; }
        if 1 <= h <= n - 1 { assert h in hs; var j :| 0 <= j < |hs| && hs[j] == h; assert init[j] == h; }
      }
      CountingUp(init, n - 1);
    }
  }

  /** Every line that the validator wrote for its commits is short. */
  predicate AllShort(cfg: Config, commits: seq<Commit>, size: CommitRecord -> nat)
  {
    forall k :: 0 <= k < |commits| ==> Short(size, RecordOf(cfg, commits[k]))
  }

  /** What was stored loads again to the same log, last hash and machine, locked on the last committed
      block. */
  lemma StateRoundTrip(cfg: Config, s: NodeState, hs: seq<nat>)
    requires ChainInv(cfg.com, s) && StoreInv(cfg, s)
    requires Increasing(hs) && Lists(hs, s.store.commits.Keys)
    ensures LoadPersisted(cfg, Pick(s.store.commits, hs), s.store) == Ok(Rebooted(s))
  {
    LinkedNumbered(cfg.com, s.commits);
    ListedRecords(cfg, s.commits, hs);
    assert Pick(s.store.commits, hs) == Records(cfg, s.commits);
    RecordsTell(cfg, s.commits);
    RecordsLoad(cfg, Records(cfg, s.commits), s.commits);
    StateAccepted(cfg, s);
    LoadsState(cfg, Records(cfg, s.commits), s);
  }

  lemma LoadsState(cfg: Config, records: seq<CommitRecord>, s: NodeState)
    requires LoadRecords(cfg, records) == Ok(Loaded(s.commits, s.lastHash, s.machine)) && StoreInv(cfg, s)
    requires s.store.state.Some? ==> StateVerdict(cfg, Loaded(s.commits, s.lastHash, s.machine), s.store.state.value) == Pass
    ensures LoadPersisted(cfg, records, s.store) == Ok(Rebooted(s))
  {
  }

  /** Recovery round trip: the store can be opened again exactly if every line is short, and then what the
      validator stored loads as it was. */
  lemma RoundTrip(cfg: Config, s: NodeState, hs: seq<nat>, size: CommitRecord -> nat)
    requires ChainInv(cfg.com, s) && StoreInv(cfg, s)
    requires Increasing(hs) && Lists(hs, s.store.commits.Keys)
    ensures LoadCommits(s.store.log, size).Ok? <==> AllShort(cfg, s.commits, size)
    ensures LoadCommits(s.store.log, size).Ok? ==> LoadCommits(s.store.log, size).value == s.store.commits
    ensures LoadPersisted(cfg, Pick(s.store.commits, hs), s.store) == Ok(Rebooted(s))
  {
    LinkedNumbered(cfg.com, s.commits);
    LogLoads(cfg, s.commits, size);
    StateRoundTrip(cfg, s, hs);
  }

  lemma LogLoads(cfg: Config, commits: seq<Commit>, size: CommitRecord -> nat)
    requires Numbered(commits)
    ensures LoadCommits(Records(cfg, commits), size).Ok? <==> AllShort(cfg, commits, size)
    ensures LoadCommits(Records(cfg, commits), size).Ok? ==> LoadCommits(Records(cfg, commits), size).value == ByHeight(Records(cfg, commits))
  {
    RecordHeights(cfg, commits);
    ReplayCommits(Records(cfg, commits), size);
    assert forall k :: 0 <= k < |commits| ==> Records(cfg, commits)[k] == RecordOf(cfg, commits[k]);
  }

  lemma StateAccepted(cfg: Config, s: NodeState)
    requires ChainInv(cfg.com, s) && StoreInv(cfg, s)
    ensures s.commits == [] ==> s.store.state == None
    ensures s.commits != [] ==> s.store.state.Some?
    ensures s.commits != [] ==> StateVerdict(cfg, Loaded(s.commits, s.lastHash, s.machine), s.store.state.value) == Pass
  {
    if s.commits != [] {
      assert Last(s.commits).block.height == |s.commits|;
    }
  }

  /** At every point of every run of the network, what a validator stored can be loaded again exactly if
      all its lines are short, and then the round trip holds. */
  lemma RunsRecover(com: Committee, honest: set<string>, steps: seq<Safety.Step>, id: string, hs: seq<nat>, size: CommitRecord -> nat)
    requires id in honest
    ensures id in Safety.Run(com, honest, steps).nodes
    ensures var s := Safety.Run(com, honest, steps).nodes[id];
      Increasing(hs) && Lists(hs, s.store.commits.Keys) ==>
        && (LoadCommits(s.store.log, size).Ok? <==> AllShort(Config(id, com), s.commits, size))
        && (LoadCommits(s.store.log, size).Ok? ==> LoadCommits(s.store.log, size).value == s.store.commits)
        && LoadPersisted(Config(id, com), Pick(s.store.commits, hs), s.store) == Ok(Rebooted(s))
  {
    Safety.RunKeys(com, honest, steps);
    Safety.RunKeepsChained(com, honest, steps);
    var s := Safety.Run(com, honest, steps).nodes[id];
    if Increasing(hs) && Lists(hs, s.store.commits.Keys) { RoundTrip(Config(id, com), s, hs, size); }
  }

  /** A new validator resumes as the one that stored its state. */
  lemma NewResumes(cfg: Config, s: NodeState, hs: seq<nat>)
    requires ChainInv(cfg.com, s) && StoreInv(cfg, s) && Increasing(hs) && Lists(hs, s.store.commits.Keys)
    ensures Resume(cfg, INITIAL.(store := s.store), hs) == Ok(Rebooted(s))
  {
    StateRoundTrip(cfg, s, hs);
  }

  /** Starting from an open store. */
  method StartFrom(cfg: Config, store: FileStore, ghost s: NodeState) returns (r: Outcome, v: Validator)
    requires store.Valid() && store.CommitView() == s.store && ChainInv(cfg.com, s) && StoreInv(cfg, s)
    ensures r == Pass && fresh(v) && v.Valid() && v.View() == Rebooted(s)
  {
    v := new Validator(cfg, store);
    ghost var hs;
    r, hs := LoadPersistedState(v);
    NewResumes(cfg, s, hs);
  }

  /** What a store opened on a disk keeps of the commits is what the validator stored. */
  lemma SameStore(cfg: Config, disk: Disk, s: NodeState)
    requires ChainInv(cfg.com, s) && StoreInv(cfg, s) && disk.commits == s.store.log && disk.file.Content() == s.store.state
    ensures DistinctHeights(disk.commits) && CommitStore(ByHeight(disk.commits), disk.commits, disk.file.Content()) == s.store
  {
    LinkedNumbered(cfg.com, s.commits);
    RecordHeights(cfg, s.commits);
  }

  /** Opening the store of a validator again and starting from it: it fails exactly if some part of the
      disk cannot be read, and otherwise gives the validator that stored it, rebooted. */
  method Restart(cfg: Config, disk: Disk, z: Sizes, ghost s: NodeState) returns (r: Outcome, v: Validator?)
    requires ChainInv(cfg.com, s) && StoreInv(cfg, s) && disk.commits == s.store.log && disk.file.Content() == s.store.state
    requires DistinctTransactions(disk.idempotency) && UniqueEvidence(disk.evidence)
    ensures r == Pass <==> Readable(disk, z)
    ensures r == Pass ==> v != null && fresh(v) && v.Valid() && v.View() == Rebooted(s)
  {
    SameStore(cfg, disk, s);
    var verdict, store := OpenFileStore(disk, z);
    if verdict.Fail? { return verdict, null; }
    r, v := StartFrom(cfg, store, s);
  }
}
