/** The durable validator store: append-only logs, the maps and indexes kept beside them, and the
    loader that rebuilds the maps from the logs (core/storage/file.go, core/storage/memory.go).

    Writing a line to disk always succeeds, whatever its length; the loader reads it back as the value that
    was written if it is short enough, and otherwise gives up. The length in bytes of a record's JSON line is
    a parameter. `CommitJson` keeps the difference between an absent, an unreadable and a good value. */
module Storage {
  import opened Messages
  import opened Protocol

  datatype CommitJson = NoJson | Garbage | Encoded(commit: Commit)

  datatype CommitRecord = CommitRecord(height: nat, round: nat, blockHash: Digest, stateDigest: Digest, commitJson: CommitJson, identityKeyId: string)

  datatype ValidatorState = ValidatorState(
    nodeId: string,
    height: nat,
    round: nat,
    lastHash: Digest,
    stateDigest: Digest,
    lockedHeight: nat,
    lockedRound: nat,
    lockedBlockHash: Digest,
    commitCount: nat,
    identityKeyId: string)

  datatype IdempotencyRecord = IdempotencyRecord(id: string, resultHash: string, appliedAt: int)

  datatype EvidenceRecord = EvidenceRecord(
    evidenceId: string,
    receiptId: string,
    qcHash: string,
    commitHeight: nat,
    submittingOrg: string,
    idempotencyKey: string,
    receiptJson: string,
    createdAt: int)

  // ---- Reading a log -------------------------------------------------------------------------

  /** A line scanner with its default buffer gives up on a line of this many bytes or more. */
  const LINE_LIMIT: nat := 65536

  /** The scanner takes the line. */
  predicate Short<R>(size: R -> nat, r: R)
  {
    size(r) < LINE_LIMIT
  }

  /** Handing the lines of a log to `handle`, up to the first one that is too long or that it refuses. */
  function LoadLines<M, R>(log: seq<R>, size: R -> nat, handle: (M, R) -> Result<M>, start: M): Result<M>
    decreases |log|
  {
    if log == [] then Ok(start) else
    match LoadLines(log[..|log| - 1], size, handle, start)
    case Err(e) => Err(e)
    case Ok(m) => if Short(size, log[|log| - 1]) then handle(m, log[|log| - 1]) else Err(LineTooLong)
  }

  lemma {:induction false} LoadStops<M, R>(log: seq<R>, size: R -> nat, handle: (M, R) -> Result<M>, start: M, n: nat)
    requires n <= |log| && LoadLines(log[..n], size, handle, start).Err?
    ensures LoadLines(log, size, handle, start) == LoadLines(log[..n], size, handle, start)
    decreases |log| - n
  {
    if n < |log| {
      assert log[..n + 1][..n] == log[..n];
      LoadStops(log, size, handle, start, n + 1);
    } else {
      assert log[..n] == log;
    }
  }

  method LoadJsonLines<M, R>(log: seq<R>, size: R -> nat, handle: (M, R) -> Result<M>, start: M) returns (r: Result<M>)
    ensures r == LoadLines(log, size, handle, start)
  {
    var m := start;
    for n := 0 to |log|
      invariant LoadLines(log[..n], size, handle, start) == Ok(m)
    {
      assert log[..n + 1][..n] == log[..n];
      var next := if Short(size, log[n]) then handle(m, log[n]) else Err(LineTooLong);
      match next
      case Err(e) =>
        LoadStops(log, size, handle, start, n + 1);
        return next;
      case Ok(value) => m := value;
    }
    assert log[..|log|] == log;
    r := Ok(m);
  }

  // ---- Commits -------------------------------------------------------------------------------

  datatype CommitStore = CommitStore(commits: map<nat, CommitRecord>, log: seq<CommitRecord>, state: Option<ValidatorState>)

  const EMPTY_COMMITS := CommitStore(map[], [], None)

  /** A height that is already stored is not written again; another block at it is refused. */
  function StoreCommit(s: CommitStore, r: CommitRecord, v: ValidatorState): Result<CommitStore>
  {
    if r.height in s.commits then
      if s.commits[r.height].blockHash != r.blockHash then Err(StoreConflict) else Ok(s.(state := Some(v)))
    else Ok(CommitStore(s.commits[r.height := r], s.log + [r], Some(v)))
  }

  /** What a store holds after saving the given records and states one after another. */
  function SaveAll(saves: seq<(CommitRecord, ValidatorState)>): CommitStore
    decreases |saves|
  {
    if saves == [] then EMPTY_COMMITS else
    var before, last := SaveAll(saves[..|saves| - 1]), saves[|saves| - 1];
    match StoreCommit(before, last.0, last.1)
    case Ok(after) => after
    case Err(_) => before
  }

  /** The i-th save is the first one at its height. */
  predicate FirstAt(saves: seq<(CommitRecord, ValidatorState)>, i: nat)
    requires i < |saves|
  {
    forall j :: 0 <= j < i ==> saves[j].0.height != saves[i].0.height
  }

  /** Whatever is saved later, the record of a height stays the first one. */
  lemma {:induction false} FirstStays(saves: seq<(CommitRecord, ValidatorState)>, i: nat)
    requires i < |saves| && FirstAt(saves, i)
    ensures saves[i].0.height in SaveAll(saves).commits && SaveAll(saves).commits[saves[i].0.height] == saves[i].0
    decreases |saves|
  {
    var n := |saves| - 1;
    if i < n {
      assert FirstAt(saves[..n], i);
      FirstStays(saves[..n], i);
    } else if saves[n].0.height in SaveAll(saves[..n]).commits {
      var k := SavedBefore(saves[..n], saves[n].0.height);
    }
  }

  lemma {:induction false} SavedBefore(saves: seq<(CommitRecord, ValidatorState)>, h: nat) returns (i: nat)
    requires h in SaveAll(saves).commits
    ensures i < |saves| && saves[i].0.height == h && FirstAt(saves, i)
    decreases |saves|
  {
    var n := |saves| - 1;
    if h in SaveAll(saves[..n]).commits {
      i := SavedBefore(saves[..n], h);
      assert forall j :: 0 <= j <= i ==> saves[..n][j] == saves[j];
    } else {
      i := n;
      forall j | 0 <= j < n ensures saves[j].0.height != h {
        if saves[j].0.height == h { Saved(saves[..n], j); }
      }
    }
  }

  lemma {:induction false} Saved(saves: seq<(CommitRecord, ValidatorState)>, i: nat)
    requires i < |saves|
    ensures saves[i].0.height in SaveAll(saves).commits
    decreases |saves|
  {
    if i < |saves| - 1 { Saved(saves[..|saves| - 1], i); }
  }

  /** After any saves, a record is refused if and only if the first one of its height has another block; if it
      is taken, the state is the new one. */
  lemma SaveOutcome(saves: seq<(CommitRecord, ValidatorState)>, r: CommitRecord, v: ValidatorState)
    ensures var saved := StoreCommit(SaveAll(saves), r, v);
      && (saved.Ok? <==> forall i :: 0 <= i < |saves| && FirstAt(saves, i) && saves[i].0.height == r.height ==> saves[i].0.blockHash == r.blockHash)
      && (saved.Ok? ==> saved.value.state == Some(v))
      && (saved.Err? ==> saved.reason == StoreConflict)
  {
    if r.height in SaveAll(saves).commits {
      var k := SavedBefore(saves, r.height);
      FirstStays(saves, k);
    }
    forall i | 0 <= i < |saves| && FirstAt(saves, i) && saves[i].0.height == r.height
      ensures r.height in SaveAll(saves).commits && SaveAll(saves).commits[r.height] == saves[i].0
    {
      FirstStays(saves, i);
    }
  }

  /** What the loader demands of every line of the commit log. */
  predicate CommitLine(r: CommitRecord)
  {
    r.height > 0 && r.blockHash != EMPTY && r.commitJson != NoJson
  }

  function AddCommitLine(m: map<nat, CommitRecord>, r: CommitRecord): Result<map<nat, CommitRecord>>
  {
    if !CommitLine(r) then Err(MalformedRecord)
    else if r.height in m && m[r.height].blockHash != r.blockHash then Err(StoreConflict)
    else Ok(m[r.height := r])
  }

  function LoadCommits(log: seq<CommitRecord>, size: CommitRecord -> nat): Result<map<nat, CommitRecord>>
  {
    LoadLines(log, size, AddCommitLine, map[])
  }

  /** The records of a log by height, later ones first. */
  function ByHeight(log: seq<CommitRecord>): map<nat, CommitRecord>
    decreases |log|
  {
    if log == [] then map[] else ByHeight(log[..|log| - 1])[log[|log| - 1].height := log[|log| - 1]]
  }

  predicate DistinctHeights(log: seq<CommitRecord>)
  {
    forall i, j :: 0 <= i < j < |log| ==> log[i].height != log[j].height
  }

  /** The commit map holds exactly the logged records, one per height. */
  predicate CommitsIndexed(s: CommitStore)
  {
    s.commits == ByHeight(s.log) && DistinctHeights(s.log)
  }

  lemma {:induction false} ByHeightMeaning(log: seq<CommitRecord>)
    ensures forall h :: h in ByHeight(log) ==> exists i :: 0 <= i < |log| && log[i].height == h && ByHeight(log)[h] == log[i]
    ensures forall i :: 0 <= i < |log| ==> log[i].height in ByHeight(log)
    ensures DistinctHeights(log) ==> forall i :: 0 <= i < |log| ==> ByHeight(log)[log[i].height] == log[i]
    decreases |log|
  {
    if log != [] {
      var n := |log| - 1;
      var init := log[..n];
      ByHeightMeaning(init);
      assert forall i :: 0 <= i < n ==> init[i] == log[i];
      forall h | h in ByHeight(log) ensures exists i :: 0 <= i < |log| && log[i].height == h && ByHeight(log)[h] == log[i] {
        if h == log[n].height {
          assert ByHeight(log)[h] == log[n];
        } else {
          var i :| 0 <= i < n && init[i].height == h && ByHeight(init)[h] == init[i];
          assert log[i].height == h;
        }
      }
    }
  }

  lemma SaveCommitKeepsIndex(s: CommitStore, r: CommitRecord)
    requires CommitsIndexed(s) && r.height !in s.commits
    ensures CommitsIndexed(s.(commits := s.commits[r.height := r], log := s.log + [r]))
  {
    ByHeightMeaning(s.log);
    assert (s.log + [r])[..|s.log|] == s.log;
  }

  /** No height has two blocks. */
  predicate HarmlessCommits(log: seq<CommitRecord>)
  {
    forall i, j :: 0 <= i < j < |log| && log[i].height == log[j].height ==> log[i].blockHash == log[j].blockHash
  }

  /** Replaying any log succeeds exactly when every line is short and carries its required fields and no
      height has two blocks, and then it rebuilds the map. */
  lemma {:induction false} ReplayCommits(log: seq<CommitRecord>, size: CommitRecord -> nat)
    ensures LoadCommits(log, size).Ok? <==> (forall i :: 0 <= i < |log| ==> CommitLine(log[i]) && Short(size, log[i])) && HarmlessCommits(log)
    ensures LoadCommits(log, size).Ok? ==> LoadCommits(log, size).value == ByHeight(log)
    decreases |log|
  {
    if log != [] {
      var n := |log| - 1;
      var init := log[..n];
      ReplayCommits(init, size);
      assert forall i :: 0 <= i < n ==> init[i] == log[i];
      if HarmlessCommits(init) { NextHarmless(log); }
    }
  }

  lemma {:induction false} ByHeightEntry(log: seq<CommitRecord>, h: nat) returns (i: nat)
    requires h in ByHeight(log)
    ensures i < |log| && log[i].height == h && ByHeight(log)[h] == log[i]
    decreases |log|
  {
    i := |log| - 1;
    if log[i].height != h { i := ByHeightEntry(log[..i], h); }
  }

  lemma {:induction false} ByHeightCovers(log: seq<CommitRecord>, i: nat)
    requires i < |log|
    ensures log[i].height in ByHeight(log)
    decreases |log|
  {
    if i < |log| - 1 { ByHeightCovers(log[..|log| - 1], i); }
  }

  /** A further line is harmless if the map has nothing else at its height. */
  lemma NextHarmless(log: seq<CommitRecord>)
    requires log != [] && HarmlessCommits(log[..|log| - 1])
    ensures var r, m := log[|log| - 1], ByHeight(log[..|log| - 1]);
      HarmlessCommits(log) <==> (r.height in m ==> m[r.height].blockHash == r.blockHash)
  {
    var n := |log| - 1;
    var init, r := log[..n], log[n];
    assert forall i :: 0 <= i < n ==> init[i] == log[i];
    if r.height in ByHeight(init) {
      var k := ByHeightEntry(init, r.height);
      assert forall i :: 0 <= i < n && init[i].height == r.height ==> init[i].blockHash == init[k].blockHash;
    } else {
      forall i | 0 <= i < n ensures log[i].height != r.height { ByHeightCovers(init, i); }
    }
  }

  predicate Increasing(hs: seq<nat>)
  {
    forall i, j :: 0 <= i < j < |hs| ==> hs[i] < hs[j]
  }

  predicate Decreasing(hs: seq<nat>)
  {
    forall i, j :: 0 <= i < j < |hs| ==> hs[i] > hs[j]
  }

  predicate Lists(hs: seq<nat>, keys: set<nat>)
  {
    (forall h :: h in hs ==> h in keys) && (forall h :: h in keys ==> h in hs)
  }

  function Pick(m: map<nat, CommitRecord>, hs: seq<nat>): (rs: seq<CommitRecord>)
    requires forall h :: h in hs ==> h in m
    ensures |rs| == |hs| && forall i :: 0 <= i < |hs| ==> rs[i] == m[hs[i]]
    decreases |hs|
  {
    if hs == [] then [] else Pick(m, hs[..|hs| - 1]) + [m[hs[|hs| - 1]]]
  }

  method SortedHeights(keys: set<nat>) returns (hs: seq<nat>)
    ensures Increasing(hs) && Lists(hs, keys)
  {
    hs := [];
    var rest := keys;
    while rest != {}
      invariant rest <= keys && Increasing(hs) && Lists(hs, keys - rest)
      decreases rest
    {
      var h :| h in rest;
      assert h !in hs;
      hs := InsertHeight(hs, h, keys - rest);
      rest := rest - {h};
      assert keys - rest == (keys - (rest + {h})) + {h};
    }
    assert keys - {} == keys;
  }

  method InsertHeight(hs: seq<nat>, h: nat, ghost keys: set<nat>) returns (r: seq<nat>)
    requires Increasing(hs) && Lists(hs, keys) && h !in hs
    ensures Increasing(r) && Lists(r, keys + {h})
  {
    var i := |hs|;
    while i > 0 && h < hs[i - 1]
      invariant 0 <= i <= |hs| && forall j :: i <= j < |hs| ==> h < hs[j]
    {
      i := i - 1;
    }
    assert i > 0 ==> hs[i - 1] < h;
    r := hs[..i] + [h] + hs[i..];
    Inserted(hs, h, i, keys);
  }

  lemma Inserted(hs: seq<nat>, h: nat, i: nat, keys: set<nat>)
    requires i <= |hs| && Lists(hs, keys)
    ensures Lists(hs[..i] + [h] + hs[i..], keys + {h})
  {
    assert hs == hs[..i] + hs[i..];
  }

  /** The stored records by height, ascending or descending, at most `limit` of them if it is positive. */
  method SortedCommitRecords(commits: map<nat, CommitRecord>, ascending: bool, limit: int) returns (records: seq<CommitRecord>, hs: seq<nat>)
    ensures if ascending then Increasing(hs) else Decreasing(hs)
    ensures Lists(hs, commits.Keys)
    ensures records == Pick(commits, hs[..if 0 < limit < |hs| then limit else |hs|])
  {
    var heights := SortedHeights(commits.Keys);
    if !ascending { heights := Descending(heights, commits.Keys); }
    hs := heights;
    assert hs[..|hs|] == hs;
    if 0 < limit < |heights| { heights := heights[..limit]; }
    records := [];
    for k := 0 to |heights|
      invariant |records| == k && forall i :: 0 <= i < k ==> records[i] == commits[heights[i]]
    {
      assert heights[k] in hs;
      records := records + [commits[heights[k]]];
    }
  }

  method Descending(hs: seq<nat>, ghost keys: set<nat>) returns (rs: seq<nat>)
    requires Increasing(hs) && Lists(hs, keys)
    ensures Decreasing(rs) && Lists(rs, keys)
  {
    var a := new nat[|hs|](i requires 0 <= i < |hs| => hs[i]);
    Reverse(a);
    rs := a[..];
    ReversedListing(hs, rs, keys);
  }

  method Reverse(a: array<nat>)
    modifies a
    ensures forall k :: 0 <= k < a.Length ==> a[k] == old(a[a.Length - 1 - k])
  {
    var i, j := 0, a.Length - 1;
    while i < j
      invariant 0 <= i <= j + 1 <= a.Length && i + j == a.Length - 1
      invariant forall k :: 0 <= k < i || j < k < a.Length ==> a[k] == old(a[a.Length - 1 - k])
      invariant forall k :: i <= k <= j ==> a[k] == old(a[k])
    {
      a[i], a[j] := a[j], a[i];
      i, j := i + 1, j - 1;
    }
  }

  lemma ReversedListing(hs: seq<nat>, rs: seq<nat>, keys: set<nat>)
    requires Increasing(hs) && Lists(hs, keys)
    requires |rs| == |hs| && forall k :: 0 <= k < |hs| ==> rs[k] == hs[|hs| - 1 - k]
    ensures Decreasing(rs) && Lists(rs, keys)
  {
    forall h | h in keys ensures h in rs {
      var k :| 0 <= k < |hs| && hs[k] == h;
      assert rs[|hs| - 1 - k] == h;
    }
  }

  // ---- Idempotency records -------------------------------------------------------------------

  predicate IdempotencyLine(r: IdempotencyRecord)
  {
    r.id != "" && r.resultHash != ""
  }

  function AddIdempotencyLine(m: map<string, IdempotencyRecord>, r: IdempotencyRecord): Result<map<string, IdempotencyRecord>>
  {
    if !IdempotencyLine(r) then Err(MalformedRecord)
    else if r.id in m && m[r.id].resultHash != r.resultHash then Err(StoreConflict)
    else Ok(m[r.id := r])
  }

  function LoadIdempotency(log: seq<IdempotencyRecord>, size: IdempotencyRecord -> nat): Result<map<string, IdempotencyRecord>>
  {
    LoadLines(log, size, AddIdempotencyLine, map[])
  }

  function ByTransaction(log: seq<IdempotencyRecord>): map<string, IdempotencyRecord>
    decreases |log|
  {
    if log == [] then map[] else ByTransaction(log[..|log| - 1])[log[|log| - 1].id := log[|log| - 1]]
  }

  predicate DistinctTransactions(log: seq<IdempotencyRecord>)
  {
    forall i, j :: 0 <= i < j < |log| ==> log[i].id != log[j].id
  }

  /** No transaction id has two results. */
  predicate HarmlessTransactions(log: seq<IdempotencyRecord>)
  {
    forall i, j :: 0 <= i < j < |log| && log[i].id == log[j].id ==> log[i].resultHash == log[j].resultHash
  }

  lemma {:induction false} ByTransactionEntry(log: seq<IdempotencyRecord>, id: string) returns (i: nat)
    requires id in ByTransaction(log)
    ensures i < |log| && log[i].id == id && ByTransaction(log)[id] == log[i]
    decreases |log|
  {
    i := |log| - 1;
    if log[i].id != id { i := ByTransactionEntry(log[..i], id); }
  }

  lemma NextTransaction(log: seq<IdempotencyRecord>)
    requires log != [] && HarmlessTransactions(log[..|log| - 1])
    ensures var r, m := log[|log| - 1], ByTransaction(log[..|log| - 1]);
      HarmlessTransactions(log) <==> (r.id in m ==> m[r.id].resultHash == r.resultHash)
  {
    var n := |log| - 1;
    var init, r := log[..n], log[n];
    ByTransactionKeys(init);
    assert forall i :: 0 <= i < n ==> init[i] == log[i];
    if r.id in ByTransaction(init) {
      var i := ByTransactionEntry(init, r.id);
      assert forall k :: 0 <= k < n && log[k].id == r.id ==> log[k].resultHash == log[i].resultHash;
    }
  }

  lemma {:induction false} ByTransactionKeys(log: seq<IdempotencyRecord>)
    ensures forall id :: id in ByTransaction(log) <==> exists i :: 0 <= i < |log| && log[i].id == id
    decreases |log|
  {
    if log != [] {
      var n := |log| - 1;
      ByTransactionKeys(log[..n]);
      assert forall i :: 0 <= i < n ==> log[..n][i] == log[i];
      forall id ensures id in ByTransaction(log) <==> exists i :: 0 <= i < |log| && log[i].id == id {
        if i :| 0 <= i < |log| && log[i].id == id {
          if i < n { assert log[..n][i].id == id; }
        }
      }
    }
  }

  lemma NewTransaction(log: seq<IdempotencyRecord>, r: IdempotencyRecord)
    requires DistinctTransactions(log) && r.id !in ByTransaction(log)
    ensures DistinctTransactions(log + [r]) && ByTransaction(log + [r]) == ByTransaction(log)[r.id := r]
  {
    ByTransactionKeys(log);
    assert (log + [r])[..|log|] == log;
  }

  lemma {:induction false} ReplayIdempotency(log: seq<IdempotencyRecord>, size: IdempotencyRecord -> nat)
    ensures LoadIdempotency(log, size).Ok? <==>
      (forall i :: 0 <= i < |log| ==> IdempotencyLine(log[i]) && Short(size, log[i])) && HarmlessTransactions(log)
    ensures LoadIdempotency(log, size).Ok? ==> LoadIdempotency(log, size).value == ByTransaction(log)
    decreases |log|
  {
    if log != [] {
      var n := |log| - 1;
      var init := log[..n];
      ReplayIdempotency(init, size);
      assert forall i :: 0 <= i < n ==> init[i] == log[i];
      if HarmlessTransactions(init) { NextTransaction(log); }
    }
  }

  // ---- Evidence ------------------------------------------------------------------------------

  datatype EvidenceIndex = EvidenceIndex(
    evidence: map<string, EvidenceRecord>,
    receipts: map<string, string>,
    byQc: map<string, string>,
    byKey: map<string, string>)

  const EMPTY_INDEX := EvidenceIndex(map[], map[], map[], map[])
  const NO_EVIDENCE := EvidenceRecord("", "", "", 0, "", "", "", 0)

  function IndexEvidence(ix: EvidenceIndex, r: EvidenceRecord): EvidenceIndex
  {
    EvidenceIndex(
      ix.evidence[r.evidenceId := r],
      ix.receipts[r.receiptId := r.evidenceId],
      if r.qcHash != "" then ix.byQc[r.qcHash := r.evidenceId] else ix.byQc,
      if r.idempotencyKey != "" then ix.byKey[r.idempotencyKey := r.evidenceId] else ix.byKey)
  }

  /** The index built from a log, one record after another. */
  function IndexOf(log: seq<EvidenceRecord>): EvidenceIndex
    decreases |log|
  {
    if log == [] then EMPTY_INDEX else IndexEvidence(IndexOf(log[..|log| - 1]), log[|log| - 1])
  }

  datatype SaveResult = Created | Existing(record: EvidenceRecord) | Conflict(record: EvidenceRecord)

  function Stored(ix: EvidenceIndex, id: string): EvidenceRecord
  {
    if id in ix.evidence then ix.evidence[id] else NO_EVIDENCE
  }

  function SaveVerdict(ix: EvidenceIndex, r: EvidenceRecord): SaveResult
  {
    if r.evidenceId in ix.evidence then
      var known := ix.evidence[r.evidenceId];
      if known.receiptId != r.receiptId then Conflict(known) else Existing(known)
    else if r.idempotencyKey != "" && r.idempotencyKey in ix.byKey then Existing(Stored(ix, ix.byKey[r.idempotencyKey]))
    else if r.receiptId in ix.receipts && ix.receipts[r.receiptId] != r.evidenceId then Conflict(Stored(ix, ix.receipts[r.receiptId]))
    else Created
  }

  function SaveEvidence(log: seq<EvidenceRecord>, r: EvidenceRecord): seq<EvidenceRecord>
  {
    if SaveVerdict(IndexOf(log), r) == Created then log + [r] else log
  }

  /** Evidence ids, receipt ids and non-empty idempotency keys occur once. */
  predicate UniqueEvidence(log: seq<EvidenceRecord>)
  {
    forall i, j :: 0 <= i < j < |log| ==>
      && log[i].evidenceId != log[j].evidenceId
      && log[i].receiptId != log[j].receiptId
      && (log[i].idempotencyKey != "" ==> log[i].idempotencyKey != log[j].idempotencyKey)
  }

  /** The last record of the log with a property: a scan that uses no index. */
  function FindLast(log: seq<EvidenceRecord>, wanted: EvidenceRecord -> bool): Option<EvidenceRecord>
    decreases |log|
  {
    if log == [] then None
    else if wanted(log[|log| - 1]) then Some(log[|log| - 1])
    else FindLast(log[..|log| - 1], wanted)
  }

  /** What the scan finds. */
  lemma {:induction false} FindLastMeaning(log: seq<EvidenceRecord>, wanted: EvidenceRecord -> bool)
    ensures FindLast(log, wanted).None? ==> forall i :: 0 <= i < |log| ==> !wanted(log[i])
    ensures FindLast(log, wanted).Some? ==>
      exists i :: 0 <= i < |log| && log[i] == FindLast(log, wanted).value && wanted(log[i])
               && forall j :: i < j < |log| ==> !wanted(log[j])
    decreases |log|
  {
    if log != [] {
      var init := log[..|log| - 1];
      if wanted(log[|log| - 1]) {
        assert log[|log| - 1] == FindLast(log, wanted).value;
      } else {
        FindLastMeaning(init, wanted);
        assert forall i :: 0 <= i < |init| ==> init[i] == log[i];
        if FindLast(init, wanted).Some? {
          var i :| 0 <= i < |init| && init[i] == FindLast(init, wanted).value && wanted(init[i])
                && forall j :: i < j < |init| ==> !wanted(init[j]);
          assert log[i] == FindLast(log, wanted).value;
          assert forall j :: i < j < |log| ==> !wanted(log[j]);
        }
      }
    }
  }

  function LookUp(ix: EvidenceIndex, keys: map<string, string>, key: string): Option<EvidenceRecord>
  {
    if key in keys && keys[key] in ix.evidence then Some(ix.evidence[keys[key]]) else None
  }

  function ById(ix: EvidenceIndex, id: string): Option<EvidenceRecord>
  {
    if id in ix.evidence then Some(ix.evidence[id]) else None
  }

  lemma {:induction false} IndexKeys(log: seq<EvidenceRecord>)
    ensures forall id :: id in IndexOf(log).evidence <==> exists i :: 0 <= i < |log| && log[i].evidenceId == id
    decreases |log|
  {
    if log != [] {
      var n := |log| - 1;
      IndexKeys(log[..n]);
      assert forall i :: 0 <= i < n ==> log[..n][i] == log[i];
      forall id ensures id in IndexOf(log).evidence <==> exists i :: 0 <= i < |log| && log[i].evidenceId == id {
        if i :| 0 <= i < |log| && log[i].evidenceId == id {
          if i < n { assert log[..n][i].evidenceId == id; }
        }
      }
    }
  }

  predicate Closed(ix: EvidenceIndex)
  {
    && (forall k :: k in ix.receipts ==> ix.receipts[k] in ix.evidence)
    && (forall k :: k in ix.byQc ==> ix.byQc[k] in ix.evidence)
    && (forall k :: k in ix.byKey ==> ix.byKey[k] in ix.evidence)
  }

  lemma {:induction false} IndexClosed(log: seq<EvidenceRecord>)
    ensures Closed(IndexOf(log))
    decreases |log|
  {
    if log != [] { IndexClosed(log[..|log| - 1]); }
  }

  lemma LastIsNew(log: seq<EvidenceRecord>)
    requires log != [] && UniqueEvidence(log)
    ensures UniqueEvidence(log[..|log| - 1])
    ensures log[|log| - 1].evidenceId !in IndexOf(log[..|log| - 1]).evidence
  {
    IndexKeys(log[..|log| - 1]);
  }

  lemma {:induction false} IdLookupScans(log: seq<EvidenceRecord>, k: string, wanted: EvidenceRecord -> bool)
    requires UniqueEvidence(log) && forall r :: wanted(r) <==> r.evidenceId == k
    ensures ById(IndexOf(log), k) == FindLast(log, wanted)
    decreases |log|
  {
    if log != [] {
      LastIsNew(log);
      IdLookupScans(log[..|log| - 1], k, wanted);
    }
  }

  lemma {:induction false} ReceiptLookupScans(log: seq<EvidenceRecord>, k: string, wanted: EvidenceRecord -> bool)
    requires UniqueEvidence(log) && forall r :: wanted(r) <==> r.receiptId == k
    ensures LookUp(IndexOf(log), IndexOf(log).receipts, k) == FindLast(log, wanted)
    decreases |log|
  {
    if log != [] {
      LastIsNew(log);
      IndexClosed(log[..|log| - 1]);
      ReceiptLookupScans(log[..|log| - 1], k, wanted);
    }
  }

  lemma {:induction false} KeyLookupScans(log: seq<EvidenceRecord>, k: string, wanted: EvidenceRecord -> bool)
    requires UniqueEvidence(log) && forall r :: wanted(r) <==> k != "" && r.idempotencyKey == k
    ensures LookUp(IndexOf(log), IndexOf(log).byKey, k) == FindLast(log, wanted)
    decreases |log|
  {
    if log != [] {
      LastIsNew(log);
      IndexClosed(log[..|log| - 1]);
      KeyLookupScans(log[..|log| - 1], k, wanted);
    }
  }

  lemma {:induction false} QcLookupScans(log: seq<EvidenceRecord>, k: string, wanted: EvidenceRecord -> bool)
    requires UniqueEvidence(log) && forall r :: wanted(r) <==> k != "" && r.qcHash == k
    ensures LookUp(IndexOf(log), IndexOf(log).byQc, k) == FindLast(log, wanted)
    decreases |log|
  {
    if log != [] {
      LastIsNew(log);
      IndexClosed(log[..|log| - 1]);
      QcLookupScans(log[..|log| - 1], k, wanted);
    }
  }

  /** A save keeps ids, receipts and keys unique. */
  lemma SaveKeepsUnique(log: seq<EvidenceRecord>, r: EvidenceRecord)
    requires UniqueEvidence(log)
    ensures UniqueEvidence(SaveEvidence(log, r))
  {
    if SaveVerdict(IndexOf(log), r) == Created {
      IndexKeys(log);
      var ix := IndexOf(log);
      var sameReceipt, sameKey := (e: EvidenceRecord) => e.receiptId == r.receiptId, (e: EvidenceRecord) => r.idempotencyKey != "" && e.idempotencyKey == r.idempotencyKey;
      ReceiptLookupScans(log, r.receiptId, sameReceipt);
      FindLastMeaning(log, sameReceipt);
      KeyLookupScans(log, r.idempotencyKey, sameKey);
      FindLastMeaning(log, sameKey);
      assert r.receiptId !in ix.receipts by { IndexClosed(log); }
      forall i | 0 <= i < |log|
        ensures log[i].evidenceId != r.evidenceId && !sameReceipt(log[i]) && !sameKey(log[i])
      {
        assert LookUp(ix, ix.receipts, r.receiptId) == None && LookUp(ix, ix.byKey, r.idempotencyKey) == None;
      }
    }
  }

  predicate SameKey(a: EvidenceRecord, b: EvidenceRecord)
  {
    b.idempotencyKey != "" && a.idempotencyKey == b.idempotencyKey
  }

  predicate NoneOfId(log: seq<EvidenceRecord>, r: EvidenceRecord)
  {
    forall i :: 0 <= i < |log| ==> log[i].evidenceId != r.evidenceId
  }

  predicate NoneOfKey(log: seq<EvidenceRecord>, r: EvidenceRecord)
  {
    forall i :: 0 <= i < |log| ==> !SameKey(log[i], r)
  }

  predicate NoneOfReceipt(log: seq<EvidenceRecord>, r: EvidenceRecord)
  {
    forall i :: 0 <= i < |log| ==> log[i].receiptId != r.receiptId
  }

  /** A save of a record against a log without an index: a record of the same id is returned, as existing if
      the receipt is the same too and as a conflict if not; then one of the same key is returned as existing;
      then one of the same receipt as a conflict; and only if there is none of these the record is new. */
  lemma EvidenceOutcome(log: seq<EvidenceRecord>, r: EvidenceRecord)
    requires UniqueEvidence(log)
    ensures var verdict := SaveVerdict(IndexOf(log), r);
      && (verdict == Created <==> NoneOfId(log, r) && NoneOfKey(log, r) && NoneOfReceipt(log, r))
      && (forall i :: 0 <= i < |log| && log[i].evidenceId == r.evidenceId ==>
           verdict == if log[i].receiptId == r.receiptId then Existing(log[i]) else Conflict(log[i]))
      && (forall i :: 0 <= i < |log| && SameKey(log[i], r) && NoneOfId(log, r) ==> verdict == Existing(log[i]))
      && (forall i :: 0 <= i < |log| && log[i].receiptId == r.receiptId && NoneOfId(log, r) && NoneOfKey(log, r) ==> verdict == Conflict(log[i]))
  {
    var ix := IndexOf(log);
    forall i | 0 <= i < |log| && log[i].evidenceId == r.evidenceId ensures r.evidenceId in ix.evidence && ix.evidence[r.evidenceId] == log[i] {
      IdOf(log, i);
    }
    forall i | 0 <= i < |log| && SameKey(log[i], r) ensures r.idempotencyKey in ix.byKey && Stored(ix, ix.byKey[r.idempotencyKey]) == log[i] {
      KeyOfRecord(log, i);
    }
    forall i | 0 <= i < |log| && log[i].receiptId == r.receiptId
      ensures r.receiptId in ix.receipts && ix.receipts[r.receiptId] == log[i].evidenceId && Stored(ix, log[i].evidenceId) == log[i]
    {
      ReceiptOf(log, i);
    }
    if r.evidenceId in ix.evidence { var i := IdEntry(log, r.evidenceId); }
    if r.idempotencyKey in ix.byKey { var i := KeyEntry(log, r.idempotencyKey); assert r.idempotencyKey != "" ==> SameKey(log[i], r); }
    if r.receiptId in ix.receipts { var i := ReceiptEntry(log, r.receiptId); }
  }

  lemma IdOf(log: seq<EvidenceRecord>, i: nat)
    requires UniqueEvidence(log) && i < |log|
    ensures var ix := IndexOf(log); log[i].evidenceId in ix.evidence && ix.evidence[log[i].evidenceId] == log[i]
  {
    Indexed(log, i);
    var k := IdEntry(log, log[i].evidenceId);
  }

  lemma KeyOfRecord(log: seq<EvidenceRecord>, i: nat)
    requires UniqueEvidence(log) && i < |log| && log[i].idempotencyKey != ""
    ensures var ix := IndexOf(log); log[i].idempotencyKey in ix.byKey && Stored(ix, ix.byKey[log[i].idempotencyKey]) == log[i]
  {
    Indexed(log, i);
    var k := KeyEntry(log, log[i].idempotencyKey);
    assert k < i || i < k || k == i;
    IdOf(log, i);
  }

  lemma ReceiptOf(log: seq<EvidenceRecord>, i: nat)
    requires UniqueEvidence(log) && i < |log|
    ensures var ix := IndexOf(log);
      log[i].receiptId in ix.receipts && ix.receipts[log[i].receiptId] == log[i].evidenceId && Stored(ix, log[i].evidenceId) == log[i]
  {
    Indexed(log, i);
    var k := ReceiptEntry(log, log[i].receiptId);
    assert k < i || i < k || k == i;
    IdOf(log, i);
  }

  /** The log after saving the given records one after another. */
  function EvidenceLog(records: seq<EvidenceRecord>): seq<EvidenceRecord>
    decreases |records|
  {
    if records == [] then [] else SaveEvidence(EvidenceLog(records[..|records| - 1]), records[|records| - 1])
  }

  /** After any sequence of saves every lookup through an index returns what scanning the log finds:
      by evidence id, receipt id and idempotency key the only such record, by certificate hash the
      latest one. */
  lemma {:induction false} LookupsScan(records: seq<EvidenceRecord>, k: string)
    ensures var log := EvidenceLog(records);
      var ix := IndexOf(log);
      && UniqueEvidence(log)
      && ById(ix, k) == FindLast(log, (r: EvidenceRecord) => r.evidenceId == k)
      && LookUp(ix, ix.receipts, k) == FindLast(log, (r: EvidenceRecord) => r.receiptId == k)
      && LookUp(ix, ix.byKey, k) == FindLast(log, (r: EvidenceRecord) => k != "" && r.idempotencyKey == k)
      && LookUp(ix, ix.byQc, k) == FindLast(log, (r: EvidenceRecord) => k != "" && r.qcHash == k)
  {
    SavesUnique(records);
    var log := EvidenceLog(records);
    IdLookupScans(log, k, (r: EvidenceRecord) => r.evidenceId == k);
    ReceiptLookupScans(log, k, (r: EvidenceRecord) => r.receiptId == k);
    KeyLookupScans(log, k, (r: EvidenceRecord) => k != "" && r.idempotencyKey == k);
    QcLookupScans(log, k, (r: EvidenceRecord) => k != "" && r.qcHash == k);
  }

  lemma {:induction false} SavesUnique(records: seq<EvidenceRecord>)
    ensures UniqueEvidence(EvidenceLog(records))
    decreases |records|
  {
    if records != [] {
      var init := records[..|records| - 1];
      SavesUnique(init);
      SaveKeepsUnique(EvidenceLog(init), records[|records| - 1]);
    }
  }

  predicate EvidenceLine(r: EvidenceRecord)
  {
    r.evidenceId != "" && r.receiptId != "" && r.receiptJson != ""
  }

  function AddEvidenceLine(ix: EvidenceIndex, r: EvidenceRecord): Result<EvidenceIndex>
  {
    if !EvidenceLine(r) then Err(MalformedRecord)
    else if r.evidenceId in ix.evidence && ix.evidence[r.evidenceId].receiptId != r.receiptId then Err(StoreConflict)
    else if r.receiptId in ix.receipts && ix.receipts[r.receiptId] != r.evidenceId then Err(StoreConflict)
    else if r.idempotencyKey != "" && r.idempotencyKey in ix.byKey && ix.byKey[r.idempotencyKey] != r.evidenceId then Err(StoreConflict)
    else Ok(IndexEvidence(ix, r))
  }

  function LoadEvidence(log: seq<EvidenceRecord>, size: EvidenceRecord -> nat): Result<EvidenceIndex>
  {
    LoadLines(log, size, AddEvidenceLine, EMPTY_INDEX)
  }

  /** Two records go together: the same evidence id means the same receipt, and the same receipt or key the
      same evidence. */
  predicate Together(a: EvidenceRecord, b: EvidenceRecord)
  {
    && (a.evidenceId == b.evidenceId <==> a.receiptId == b.receiptId)
    && (a.idempotencyKey != "" && a.idempotencyKey == b.idempotencyKey ==> a.evidenceId == b.evidenceId)
  }

  predicate HarmlessEvidence(log: seq<EvidenceRecord>)
  {
    forall i, j :: 0 <= i < j < |log| ==> Together(log[i], log[j])
  }

  lemma Either(log: seq<EvidenceRecord>, i: nat, k: nat)
    requires HarmlessEvidence(log) && i < |log| && k < |log|
    ensures Together(log[i], log[k])
  {
    if k < i { assert Together(log[k], log[i]); }
  }

  // What an index entry points to is in the log, and every record of the log has its entries.

  lemma {:induction false} IdEntry(log: seq<EvidenceRecord>, id: string) returns (i: nat)
    requires id in IndexOf(log).evidence
    ensures i < |log| && log[i].evidenceId == id && IndexOf(log).evidence[id] == log[i]
    decreases |log|
  {
    i := |log| - 1;
    if log[i].evidenceId != id { i := IdEntry(log[..i], id); }
  }

  lemma {:induction false} ReceiptEntry(log: seq<EvidenceRecord>, k: string) returns (i: nat)
    requires k in IndexOf(log).receipts
    ensures i < |log| && log[i].receiptId == k && IndexOf(log).receipts[k] == log[i].evidenceId
    decreases |log|
  {
    i := |log| - 1;
    if log[i].receiptId != k { i := ReceiptEntry(log[..i], k); }
  }

  lemma {:induction false} KeyEntry(log: seq<EvidenceRecord>, k: string) returns (i: nat)
    requires k in IndexOf(log).byKey
    ensures i < |log| && log[i].idempotencyKey == k != "" && IndexOf(log).byKey[k] == log[i].evidenceId
    decreases |log|
  {
    i := |log| - 1;
    if log[i].idempotencyKey != k || k == "" { i := KeyEntry(log[..i], k); }
  }

  lemma {:induction false} Indexed(log: seq<EvidenceRecord>, i: nat)
    requires i < |log|
    ensures log[i].evidenceId in IndexOf(log).evidence && log[i].receiptId in IndexOf(log).receipts
    ensures log[i].idempotencyKey != "" ==> log[i].idempotencyKey in IndexOf(log).byKey
    decreases |log|
  {
    if i < |log| - 1 { Indexed(log[..|log| - 1], i); }
  }

  /** What the loader compares a further record with. */
  predicate Clashes(ix: EvidenceIndex, r: EvidenceRecord)
  {
    || (r.evidenceId in ix.evidence && ix.evidence[r.evidenceId].receiptId != r.receiptId)
    || (r.receiptId in ix.receipts && ix.receipts[r.receiptId] != r.evidenceId)
    || (r.idempotencyKey != "" && r.idempotencyKey in ix.byKey && ix.byKey[r.idempotencyKey] != r.evidenceId)
  }

  lemma NoClash(log: seq<EvidenceRecord>, r: EvidenceRecord)
    requires forall i :: 0 <= i < |log| ==> Together(log[i], r)
    ensures !Clashes(IndexOf(log), r)
  {
    var ix := IndexOf(log);
    if r.evidenceId in ix.evidence { var i := IdEntry(log, r.evidenceId); assert Together(log[i], r); }
    if r.receiptId in ix.receipts { var i := ReceiptEntry(log, r.receiptId); assert Together(log[i], r); }
    if r.idempotencyKey in ix.byKey { var i := KeyEntry(log, r.idempotencyKey); assert Together(log[i], r); }
  }

  lemma NoClashTogether(log: seq<EvidenceRecord>, r: EvidenceRecord, i: nat)
    requires HarmlessEvidence(log) && !Clashes(IndexOf(log), r) && i < |log|
    ensures Together(log[i], r)
  {
    Indexed(log, i);
    if log[i].evidenceId == r.evidenceId { var k := IdEntry(log, r.evidenceId); Either(log, i, k); }
    if log[i].receiptId == r.receiptId { var k := ReceiptEntry(log, r.receiptId); Either(log, i, k); }
    if log[i].idempotencyKey != "" && log[i].idempotencyKey == r.idempotencyKey { var k := KeyEntry(log, r.idempotencyKey); Either(log, i, k); }
  }

  lemma NextEvidence(log: seq<EvidenceRecord>)
    requires log != [] && HarmlessEvidence(log[..|log| - 1])
    ensures HarmlessEvidence(log) <==> !Clashes(IndexOf(log[..|log| - 1]), log[|log| - 1])
  {
    var n := |log| - 1;
    var init, r := log[..n], log[n];
    assert forall i :: 0 <= i < n ==> init[i] == log[i];
    if HarmlessEvidence(log) {
      forall i | 0 <= i < n ensures Together(init[i], r) { assert Together(log[i], log[n]); }
      NoClash(init, r);
    }
    if !Clashes(IndexOf(init), r) {
      forall i | 0 <= i < n ensures Together(log[i], r) { NoClashTogether(init, r, i); }
      HarmlessMore(log);
    }
  }

  lemma HarmlessMore(log: seq<EvidenceRecord>)
    requires log != [] && HarmlessEvidence(log[..|log| - 1])
    requires forall i :: 0 <= i < |log| - 1 ==> Together(log[i], log[|log| - 1])
    ensures HarmlessEvidence(log)
  {
    var n := |log| - 1;
    forall i, j | 0 <= i < j < |log| ensures Together(log[i], log[j]) {
      if j < n { assert Together(log[..n][i], log[..n][j]); }
    }
  }

  /** Replaying any evidence log succeeds exactly when every line is short and carries its required fields and
      all records go together, and then it rebuilds all four maps. */
  lemma {:induction false} ReplayEvidence(log: seq<EvidenceRecord>, size: EvidenceRecord -> nat)
    ensures LoadEvidence(log, size).Ok? <==> (forall i :: 0 <= i < |log| ==> EvidenceLine(log[i]) && Short(size, log[i])) && HarmlessEvidence(log)
    ensures LoadEvidence(log, size).Ok? ==> LoadEvidence(log, size).value == IndexOf(log)
    decreases |log|
  {
    if log != [] {
      var n := |log| - 1;
      var init := log[..n];
      ReplayEvidence(init, size);
      assert forall i :: 0 <= i < n ==> init[i] == log[i];
      if HarmlessEvidence(init) { NextEvidence(log); }
    }
  }

  // ---- The store object ----------------------------------------------------------------------

  datatype SnapshotRecord = SnapshotRecord(id: string, json: string)
  datatype AuditRecord = AuditRecord(requestId: string, verb: string, path: string, statusCode: int)

  predicate SnapshotLine(r: SnapshotRecord) { r.id != "" }
  predicate AuditLine(r: AuditRecord) { r.requestId != "" && r.verb != "" && r.path != "" && r.statusCode != 0 }

  /** A loader that keeps every line that is good. */
  function Append<R>(good: R -> bool): (seq<R>, R) -> Result<seq<R>>
  {
    (m: seq<R>, r: R) => if good(r) then Ok(m + [r]) else Err(MalformedRecord)
  }

  predicate AllGood<R>(log: seq<R>, size: R -> nat, good: R -> bool)
  {
    forall i :: 0 <= i < |log| ==> good(log[i]) && Short(size, log[i])
  }

  lemma AllGoodSnoc<R>(log: seq<R>, size: R -> nat, good: R -> bool)
    requires log != []
    ensures AllGood(log, size, good) <==>
      AllGood(log[..|log| - 1], size, good) && good(log[|log| - 1]) && Short(size, log[|log| - 1])
  {
    var n := |log| - 1;
    assert forall i :: 0 <= i < n ==> log[..n][i] == log[i];
  }

  lemma {:induction false} ReplayList<R>(log: seq<R>, size: R -> nat, good: R -> bool)
    ensures AllGood(log, size, good) ==> LoadLines(log, size, Append(good), []) == Ok(log)
    ensures !AllGood(log, size, good) ==> LoadLines(log, size, Append(good), []).Err?
    decreases |log|
  {
    if log != [] {
      var n := |log| - 1;
      ReplayList(log[..n], size, good);
      AllGoodSnoc(log, size, good);
      assert log == log[..n] + [log[n]];
    }
  }

  /** The state file: missing, not the JSON of a state, or a state. */
  datatype StateFile = NoFile | Torn | Saved(state: ValidatorState)
  {
    function Content(): Option<ValidatorState> { if Saved? then Some(state) else None }
  }

  /** What is on disk: five logs and the state file. */
  datatype Disk = Disk(
    commits: seq<CommitRecord>,
    idempotency: seq<IdempotencyRecord>,
    evidence: seq<EvidenceRecord>,
    snapshots: seq<SnapshotRecord>,
    audit: seq<AuditRecord>,
    file: StateFile)

  /** The length of the JSON line of every kind of record. */
  datatype Sizes = Sizes(
    commit: CommitRecord -> nat,
    idempotency: IdempotencyRecord -> nat,
    evidence: EvidenceRecord -> nat,
    snapshot: SnapshotRecord -> nat,
    audit: AuditRecord -> nat)

  const EMPTY_DISK: Disk := Disk([], [], [], [], [], NoFile)

  class FileStore {
    var disk: Disk
    var state: Option<ValidatorState>
    var commits: map<nat, CommitRecord>
    var idempotency: map<string, IdempotencyRecord>
    var index: EvidenceIndex
    var snapshots: seq<SnapshotRecord>
    var audit: seq<AuditRecord>

    /** Every map is the one that its log determines, and the state file is current. */
    ghost predicate Rebuilt()
      reads this
    {
      && commits == ByHeight(disk.commits) && idempotency == ByTransaction(disk.idempotency) && index == IndexOf(disk.evidence)
      && snapshots == disk.snapshots && audit == disk.audit && !disk.file.Torn? && state == disk.file.Content()
    }

    /** The logs moreover repeat nothing. */
    ghost predicate Valid()
      reads this
    {
      Rebuilt() && Written(disk)
    }

    ghost function CommitView(): CommitStore
      reads this
    {
      CommitStore(commits, disk.commits, disk.file.Content())
    }

    constructor ()
      ensures Valid() && disk == EMPTY_DISK
    {
      disk := EMPTY_DISK;
      state, commits, idempotency, index := None, map[], map[], EMPTY_INDEX;
      snapshots, audit := [], [];
    }

    method SaveCommit(record: CommitRecord, newState: ValidatorState) returns (r: Outcome)
      requires Valid()
      modifies this
      ensures Valid()
      ensures index == old(index) && idempotency == old(idempotency)
      ensures disk == old(disk).(commits := disk.commits, file := disk.file)
      ensures match StoreCommit(old(CommitView()), record, newState)
              case Ok(next) => r == Pass && CommitView() == next
              case Err(e) => r == Fail(e) && CommitView() == old(CommitView())
    {
      if record.height in commits {
        if commits[record.height].blockHash != record.blockHash { return Fail(StoreConflict); }
      } else {
        AppendCommit(record);
      }
      WriteState(newState);
      r := Pass;
    }

    method AppendCommit(record: CommitRecord)
      requires Valid() && record.height !in commits
      modifies this`disk, this`commits
      ensures Valid() && disk == old(disk).(commits := old(disk.commits) + [record]) && commits == old(commits)[record.height := record]
    {
      ghost var before := CommitView();
      SaveCommitKeepsIndex(before, record);
      disk := disk.(commits := disk.commits + [record]);
      commits := commits[record.height := record];
      assert CommitView() == before.(commits := before.commits[record.height := record], log := before.log + [record]);
    }

    method WriteState(newState: ValidatorState)
      requires Valid()
      modifies this`disk, this`state
      ensures Valid() && disk == old(disk).(file := Saved(newState))
    {
      disk := disk.(file := Saved(newState));
      state := Some(newState);
    }

    method RecordIdempotency(id: string, resultHash: string, now: int) returns (applied: bool, existing: string)
      requires Valid()
      modifies this
      ensures Valid()
      ensures commits == old(commits) && index == old(index)
      ensures disk == old(disk).(idempotency := disk.idempotency)
      ensures applied <==> id !in old(idempotency)
      ensures id in idempotency && existing == idempotency[id].resultHash
      ensures applied ==> existing == resultHash && disk.idempotency == old(disk.idempotency) + [IdempotencyRecord(id, resultHash, now)]
      ensures !applied ==> disk == old(disk) && idempotency == old(idempotency)
    {
      if id in idempotency { return false, idempotency[id].resultHash; }
      var record := IdempotencyRecord(id, resultHash, now);
      NewTransaction(disk.idempotency, record);
      disk := disk.(idempotency := disk.idempotency + [record]);
      idempotency := idempotency[id := record];
      return true, resultHash;
    }

    method SaveEvidence(record: EvidenceRecord) returns (r: SaveResult)
      requires Valid()
      modifies this
      ensures Valid()
      ensures commits == old(commits) && idempotency == old(idempotency)
      ensures r == SaveVerdict(old(index), record)
      ensures disk == old(disk).(evidence := if r == Created then old(disk.evidence) + [record] else old(disk.evidence))
    {
      SaveKeepsUnique(disk.evidence, record);
      r := SaveVerdict(index, record);
      if r == Created {
        assert (disk.evidence + [record])[..|disk.evidence|] == disk.evidence;
        disk := disk.(evidence := disk.evidence + [record]);
        index := IndexEvidence(index, record);
      }
    }

    method EvidenceByReceiptId(receiptId: string) returns (r: Option<EvidenceRecord>)
      requires Valid()
      ensures r == FindLast(disk.evidence, (e: EvidenceRecord) => e.receiptId == receiptId)
    {
      ReceiptLookupScans(disk.evidence, receiptId, (e: EvidenceRecord) => e.receiptId == receiptId);
      r := LookUp(index, index.receipts, receiptId);
    }

    method EvidenceByIdempotencyKey(key: string) returns (r: Option<EvidenceRecord>)
      requires Valid()
      ensures r == FindLast(disk.evidence, (e: EvidenceRecord) => key != "" && e.idempotencyKey == key)
    {
      KeyLookupScans(disk.evidence, key, (e: EvidenceRecord) => key != "" && e.idempotencyKey == key);
      r := LookUp(index, index.byKey, key);
    }

    method EvidenceByQcHash(qcHash: string) returns (r: Option<EvidenceRecord>)
      requires Valid()
      ensures r == FindLast(disk.evidence, (e: EvidenceRecord) => qcHash != "" && e.qcHash == qcHash)
    {
      QcLookupScans(disk.evidence, qcHash, (e: EvidenceRecord) => qcHash != "" && e.qcHash == qcHash);
      r := LookUp(index, index.byQc, qcHash);
    }

    method ListCommits() returns (records: seq<CommitRecord>, ghost hs: seq<nat>)
      ensures Increasing(hs) && Lists(hs, commits.Keys) && records == Pick(commits, hs)
    {
      records, hs := SortedCommitRecords(commits, true, 0);
      assert hs[..|hs|] == hs;
    }
  }

  /** The state file can be parsed, and every line of every log is short and carries the fields that the
      loader demands. */
  predicate Readable(disk: Disk, z: Sizes)
  {
    && !disk.file.Torn?
    && (forall i :: 0 <= i < |disk.commits| ==> var r := disk.commits[i];
         r.height > 0 && r.blockHash != EMPTY && r.commitJson != NoJson && z.commit(r) < 65536)
    && (forall i :: 0 <= i < |disk.idempotency| ==> var r := disk.idempotency[i];
         r.id != "" && r.resultHash != "" && z.idempotency(r) < 65536)
    && (forall i :: 0 <= i < |disk.evidence| ==> var r := disk.evidence[i];
         r.evidenceId != "" && r.receiptId != "" && r.receiptJson != "" && z.evidence(r) < 65536)
    && (forall i :: 0 <= i < |disk.snapshots| ==> disk.snapshots[i].id != "" && z.snapshot(disk.snapshots[i]) < 65536)
    && (forall i :: 0 <= i < |disk.audit| ==> var r := disk.audit[i];
         r.requestId != "" && r.verb != "" && r.path != "" && r.statusCode != 0 && z.audit(r) < 65536)
  }

  /** Every part of the disk loads. */
  predicate Loads(disk: Disk, z: Sizes)
  {
    && !disk.file.Torn?
    && LoadCommits(disk.commits, z.commit).Ok? && LoadIdempotency(disk.idempotency, z.idempotency).Ok? && LoadEvidence(disk.evidence, z.evidence).Ok?
    && LoadLines(disk.snapshots, z.snapshot, Append(SnapshotLine), []).Ok? && LoadLines(disk.audit, z.audit, Append(AuditLine), []).Ok?
  }

  /** The logs never conflict, as those that a store wrote. */
  predicate Written(disk: Disk)
  {
    DistinctHeights(disk.commits) && DistinctTransactions(disk.idempotency) && UniqueEvidence(disk.evidence)
  }

  /** No two lines of a log contradict each other. */
  predicate Harmless(disk: Disk)
  {
    HarmlessCommits(disk.commits) && HarmlessTransactions(disk.idempotency) && HarmlessEvidence(disk.evidence)
  }

  /** In a log that a store wrote nothing contradicts. */
  lemma WrittenHarmless(disk: Disk)
    requires Written(disk)
    ensures Harmless(disk)
  {
  }

  lemma LoadsReadable(disk: Disk, z: Sizes)
    ensures Loads(disk, z) <==> Readable(disk, z) && Harmless(disk)
  {
    ReplayCommits(disk.commits, z.commit);
    ReplayIdempotency(disk.idempotency, z.idempotency);
    ReplayEvidence(disk.evidence, z.evidence);
    ReplayList(disk.snapshots, z.snapshot, SnapshotLine);
    ReplayList(disk.audit, z.audit, AuditLine);
  }

  /** What the logs give is what a valid store keeps of them. */
  lemma LoadedMaps(disk: Disk, z: Sizes)
    requires Loads(disk, z)
    ensures LoadCommits(disk.commits, z.commit) == Ok(ByHeight(disk.commits))
    ensures LoadIdempotency(disk.idempotency, z.idempotency) == Ok(ByTransaction(disk.idempotency))
    ensures LoadEvidence(disk.evidence, z.evidence) == Ok(IndexOf(disk.evidence))
  {
    ReplayCommits(disk.commits, z.commit);
    ReplayIdempotency(disk.idempotency, z.idempotency);
    ReplayEvidence(disk.evidence, z.evidence);
  }

  /** Opening a store reads the state file and replays the logs. It succeeds exactly when all of them are
      readable and without contradiction, as those are that a store wrote, and then all maps are rebuilt. */
  method OpenFileStore(disk: Disk, z: Sizes) returns (r: Outcome, store: FileStore?)
    ensures r == Pass <==> Readable(disk, z) && Harmless(disk)
    ensures r == Pass ==> store != null && fresh(store) && store.Rebuilt() && store.disk == disk
    ensures r.Fail? ==> store == null
    ensures Written(disk) ==> (r == Pass <==> Readable(disk, z)) && (r == Pass ==> store.Valid())
  {
    store := null;
    LoadsReadable(disk, z);
    if Written(disk) { WrittenHarmless(disk); }
    if disk.file.Torn? { return Fail(MalformedRecord), null; }
    var commits := LoadJsonLines(disk.commits, z.commit, AddCommitLine, map[]);
    if commits.Err? { return Fail(commits.reason), null; }
    var idempotency := LoadJsonLines(disk.idempotency, z.idempotency, AddIdempotencyLine, map[]);
    if idempotency.Err? { return Fail(idempotency.reason), null; }
    var snapshots := LoadJsonLines(disk.snapshots, z.snapshot, Append(SnapshotLine), []);
    if snapshots.Err? { return Fail(snapshots.reason), null; }
    var index := LoadJsonLines(disk.evidence, z.evidence, AddEvidenceLine, EMPTY_INDEX);
    if index.Err? { return Fail(index.reason), null; }
    var audit := LoadJsonLines(disk.audit, z.audit, Append(AuditLine), []);
    if audit.Err? { return Fail(audit.reason), null; }
    LoadedMaps(disk, z);
    ReplayList(disk.snapshots, z.snapshot, SnapshotLine);
    ReplayList(disk.audit, z.audit, AuditLine);
    store := NewStore(disk, commits.value, idempotency.value, index.value);
    r := Pass;
  }

  method NewStore(disk: Disk, commits: map<nat, CommitRecord>, idempotency: map<string, IdempotencyRecord>, index: EvidenceIndex)
    returns (store: FileStore)
    ensures fresh(store) && store.disk == disk && store.commits == commits && store.idempotency == idempotency && store.index == index
    ensures store.state == disk.file.Content() && store.snapshots == disk.snapshots && store.audit == disk.audit
  {
    store := new FileStore();
    store.disk, store.state := disk, disk.file.Content();
    store.commits, store.idempotency, store.index := commits, idempotency, index;
    store.snapshots, store.audit := disk.snapshots, disk.audit;
  }
}
