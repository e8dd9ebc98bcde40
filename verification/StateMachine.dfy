/** The replicated state machine: a digest chained over the batches of transactions that were new
    when they were applied (consensus/state/state.go). */
module StateMachine {
  import opened Messages

  datatype MachineState = MachineState(digest: Digest, applied: set<Digest>)

  const GENESIS_DIGEST: Digest := OfBytes("pq-fabric/consensus/state/genesis/v1")
  const GENESIS: MachineState := MachineState(GENESIS_DIGEST, {})

  function TransactionId(payload: string): Digest
  {
    OfBytes("pq-fabric/consensus/state/tx/v1\0" + payload)
  }

  function TransactionsFromPayload(payload: string): seq<Transaction>
  {
    [Transaction(TransactionId(payload), payload)]
  }

  /** A transaction without an id is named by its payload. */
  function Named(tx: Transaction): Transaction
  {
    if Blank(tx.id) && tx.payload != "" then tx.(id := TransactionId(tx.payload)) else tx
  }

  function Ids(txs: seq<Transaction>): set<Digest>
    decreases |txs|
  {
    if txs == [] then {} else Ids(txs[..|txs| - 1]) + {txs[|txs| - 1].id}
  }

  lemma {:induction false} IdsMeaning(txs: seq<Transaction>)
    ensures forall id :: id in Ids(txs) <==> exists i :: 0 <= i < |txs| && txs[i].id == id
    decreases |txs|
  {
    if txs != [] {
      var init, last := txs[..|txs| - 1], txs[|txs| - 1];
      IdsMeaning(init);
      forall id ensures id in Ids(txs) <==> exists i :: 0 <= i < |txs| && txs[i].id == id {
        if i :| 0 <= i < |txs| && txs[i].id == id {
          if i < |init| { assert init[i].id == id; }
        }
      }
    }
  }

  /** The transactions of `txs` that are new, in order, each id once. */
  function Fresh(already: set<Digest>, txs: seq<Transaction>): Result<seq<Transaction>>
    decreases |txs|
  {
    if txs == [] then Ok([]) else
    match Fresh(already, txs[..|txs| - 1])
    case Err(e) => Err(e)
    case Ok(batch) =>
      var tx := Named(txs[|txs| - 1]);
      if Blank(tx.id) then Err(MissingTransactionId)
      else if tx.id in already || tx.id in Ids(batch) then Ok(batch)
      else Ok(batch + [tx])
  }

  predicate DistinctIds(txs: seq<Transaction>)
  {
    forall i, j :: 0 <= i < j < |txs| ==> txs[i].id != txs[j].id
  }

  function NamedAll(txs: seq<Transaction>): seq<Transaction>
    decreases |txs|
  {
    if txs == [] then [] else NamedAll(txs[..|txs| - 1]) + [Named(txs[|txs| - 1])]
  }

  /** Selecting fails exactly when some transaction can be named by neither id nor payload. */
  lemma {:induction false} FreshSucceeds(already: set<Digest>, txs: seq<Transaction>)
    ensures Fresh(already, txs).Ok? <==> forall i :: 0 <= i < |txs| ==> !Blank(Named(txs[i]).id)
    decreases |txs|
  {
    if txs != [] {
      var n := |txs| - 1;
      FreshSucceeds(already, txs[..n]);
      assert forall i :: 0 <= i < n ==> txs[..n][i] == txs[i];
      assert Fresh(already, txs).Ok? <==> Fresh(already, txs[..n]).Ok? && !Blank(Named(txs[n]).id);
    }
  }

  /** The selection from one transaction more. */
  lemma FreshSnoc(already: set<Digest>, txs: seq<Transaction>)
    requires txs != [] && Fresh(already, txs).Ok?
    ensures Fresh(already, txs[..|txs| - 1]).Ok?
    ensures var batch, last := Fresh(already, txs[..|txs| - 1]).value, Named(txs[|txs| - 1]);
      Fresh(already, txs).value == if last.id in already || last.id in Ids(batch) then batch else batch + [last]
  {
  }

  lemma DistinctSnoc(batch: seq<Transaction>, tx: Transaction)
    requires DistinctIds(batch) && tx.id !in Ids(batch)
    ensures DistinctIds(batch + [tx]) && Ids(batch + [tx]) == Ids(batch) + {tx.id}
  {
    IdsMeaning(batch);
    assert (batch + [tx])[..|batch|] == batch;
  }

  lemma {:induction false} FreshIds(already: set<Digest>, txs: seq<Transaction>)
    requires Fresh(already, txs).Ok?
    ensures DistinctIds(Fresh(already, txs).value)
    ensures Ids(Fresh(already, txs).value) == Ids(NamedAll(txs)) - already
    decreases |txs|
  {
    if txs != [] {
      var init, last := txs[..|txs| - 1], Named(txs[|txs| - 1]);
      FreshSnoc(already, txs);
      FreshIds(already, init);
      var batch := Fresh(already, init).value;
      NamedSnoc(txs);
      if last.id !in already && last.id !in Ids(batch) { DistinctSnoc(batch, last); }
      OneMoreId(Ids(batch), Ids(NamedAll(init)), already, last.id);
    }
  }

  lemma NamedSnoc(txs: seq<Transaction>)
    requires txs != []
    ensures Ids(NamedAll(txs)) == Ids(NamedAll(txs[..|txs| - 1])) + {Named(txs[|txs| - 1]).id}
  {
    assert NamedAll(txs)[..|NamedAll(txs)| - 1] == NamedAll(txs[..|txs| - 1]);
  }

  lemma OneMoreId(batch: set<Digest>, named: set<Digest>, already: set<Digest>, id: Digest)
    requires batch == named - already
    ensures id in already || id in batch ==> batch == named + {id} - already
    ensures id !in already ==> batch + {id} == named + {id} - already
  {
  }

  lemma SubsequenceSnoc(a: seq<Transaction>, b: seq<Transaction>, tx: Transaction)
    requires Subsequence(a, b)
    ensures Subsequence(a, b + [tx]) && Subsequence(a + [tx], b + [tx])
  {
    assert (a + [tx])[..|a|] == a && (b + [tx])[..|b|] == b;
  }

  lemma {:induction false} FreshInOrder(already: set<Digest>, txs: seq<Transaction>)
    requires Fresh(already, txs).Ok?
    ensures Subsequence(Fresh(already, txs).value, NamedAll(txs))
    decreases |txs|
  {
    if txs != [] {
      var init, last := txs[..|txs| - 1], Named(txs[|txs| - 1]);
      FreshSnoc(already, txs);
      FreshInOrder(already, init);
      SubsequenceSnoc(Fresh(already, init).value, NamedAll(init), last);
    }
  }

  /** What is selected: one transaction for every id that was not applied before, each a named
      transaction of the input, in the order of the input. */
  lemma FreshMeaning(already: set<Digest>, txs: seq<Transaction>)
    requires Fresh(already, txs).Ok?
    ensures var batch := Fresh(already, txs).value;
      && DistinctIds(batch)
      && Ids(batch) == Ids(NamedAll(txs)) - already
      && Subsequence(batch, NamedAll(txs))
  {
    FreshIds(already, txs);
    FreshInOrder(already, txs);
  }

  predicate Subsequence(a: seq<Transaction>, b: seq<Transaction>)
    decreases |b|
  {
    a == [] || (b != [] && (Subsequence(a, b[..|b| - 1]) ||
                            (a[|a| - 1] == b[|b| - 1] && Subsequence(a[..|a| - 1], b[..|b| - 1]))))
  }

  /** One transition: an empty batch leaves the machine as it is. */
  function Transition(m: MachineState, txs: seq<Transaction>): Result<MachineState>
  {
    if m.digest == EMPTY then Err(MissingDigest) else
    match Fresh(m.applied, txs)
    case Err(e) => Err(e)
    case Ok(batch) =>
      if batch == [] then Ok(m)
      else Ok(MachineState(OfTransition(m.digest, batch), m.applied + Ids(batch)))
  }

  /** Different payloads have different ids, and none of them is blank. */
  lemma TransactionIdInjective(a: string, b: string)
    ensures TransactionId(a) == TransactionId(b) <==> a == b
    ensures !Blank(TransactionId(a))
  {
    var prefix := "pq-fabric/consensus/state/tx/v1\0";
    assert (prefix + a)[|prefix|..] == a && (prefix + b)[|prefix|..] == b;
  }

  /** A transaction can be named if it has an id that is not blank, or a payload. */
  predicate Nameable(tx: Transaction)
  {
    !Blank(tx.id) || tx.payload != ""
  }

  /** The transaction goes under the id: its own if that is not blank, and otherwise the one of its payload. */
  predicate Names(tx: Transaction, id: Digest)
  {
    if !Blank(tx.id) || tx.payload == "" then id == tx.id else id == TransactionId(tx.payload)
  }

  predicate AnyNames(txs: seq<Transaction>, id: Digest)
  {
    exists i :: 0 <= i < |txs| && Names(txs[i], id)
  }

  lemma {:induction false} NamedIds(txs: seq<Transaction>, id: Digest)
    ensures id in Ids(NamedAll(txs)) <==> AnyNames(txs, id)
    decreases |txs|
  {
    if txs != [] {
      var n := |txs| - 1;
      NamedIds(txs[..n], id);
      NamedSnoc(txs);
      AnyNamesSnoc(txs, id);
      assert Names(txs[n], id) <==> id == Named(txs[n]).id;
    }
  }

  lemma AnyNamesSnoc(txs: seq<Transaction>, id: Digest)
    requires txs != []
    ensures AnyNames(txs, id) <==> AnyNames(txs[..|txs| - 1], id) || Names(txs[|txs| - 1], id)
  {
    var n := |txs| - 1;
    if i :| 0 <= i < |txs| && Names(txs[i], id) { assert i < n ==> txs[..n][i] == txs[i]; }
    if i :| 0 <= i < n && Names(txs[..n][i], id) { assert Names(txs[i], id); }
  }

  /** A transition succeeds exactly if there is a digest to start from and every transaction can be named; it
      applies the ids of all of them, and moves the digest exactly if one of them is new. */
  lemma TransitionMeaning(m: MachineState, txs: seq<Transaction>)
    ensures Transition(m, txs).Ok? <==> m.digest != EMPTY && forall i :: 0 <= i < |txs| ==> Nameable(txs[i])
    ensures Transition(m, txs).Ok? ==> forall id :: id in Transition(m, txs).value.applied <==> id in m.applied || AnyNames(txs, id)
    ensures Transition(m, txs).Ok? ==> (Transition(m, txs).value.digest == m.digest <==> forall id :: AnyNames(txs, id) ==> id in m.applied)
  {
    forall id ensures id in Ids(NamedAll(txs)) <==> AnyNames(txs, id) { NamedIds(txs, id); }
    FreshSucceeds(m.applied, txs);
    assert forall i :: 0 <= i < |txs| ==> (Nameable(txs[i]) <==> !Blank(Named(txs[i]).id));
    if Transition(m, txs).Ok? { TransitionMoves(m, txs); }
  }

  lemma TransitionMoves(m: MachineState, txs: seq<Transaction>)
    requires Transition(m, txs).Ok?
    ensures Transition(m, txs).value.applied == m.applied + Ids(NamedAll(txs))
    ensures Transition(m, txs).value.digest == m.digest <==> Ids(NamedAll(txs)) <= m.applied
  {
    FreshIds(m.applied, txs);
    var batch := Fresh(m.applied, txs).value;
    NoIds(batch);
  }

  lemma NoIds(batch: seq<Transaction>)
    ensures batch == [] <==> Ids(batch) == {}
  {
    if batch != [] { assert batch[|batch| - 1].id in Ids(batch); }
  }

  /** The machine that the source updates in place. */
  class Machine {
    var digest: Digest
    var applied: set<Digest>

    ghost function View(): MachineState
      reads this
    {
      MachineState(digest, applied)
    }

    constructor ()
      ensures View() == GENESIS
    {
      digest, applied := GENESIS_DIGEST, {};
    }

    constructor Copy(digest: Digest, applied: set<Digest>)
      ensures View() == MachineState(digest, applied)
    {
      this.digest, this.applied := digest, applied;
    }

    method Clone() returns (copy: Machine)
      ensures fresh(copy) && copy.View() == View()
    {
      copy := new Machine.Copy(digest, applied);
    }

    method Preview(txs: seq<Transaction>) returns (r: Result<(Digest, nat)>)
      ensures match Transition(View(), txs)
              case Ok(next) => r == Ok((next.digest, |next.applied - applied|))
              case Err(e) => r == Err(e)
    {
      var t := TransitionDigest(digest, applied, txs);
      match t
      case Err(e) => r := Err(e);
      case Ok(v) => r := Ok((v.0, |v.1|));
    }

    method Apply(txs: seq<Transaction>) returns (r: Result<(Digest, nat)>)
      modifies this
      ensures match Transition(old(View()), txs)
              case Ok(next) => View() == next && r == Ok((next.digest, |next.applied - old(applied)|))
              case Err(e) => r == Err(e) && View() == old(View())
    {
      var t := TransitionDigest(digest, applied, txs);
      match t
      case Err(e) => r := Err(e);
      case Ok(v) =>
        for n := 0 to |v.1|
          invariant applied == old(applied) + Ids(v.1[..n]) && digest == old(digest)
        {
          IdsSnoc(v.1, n);
          applied := applied + {v.1[n].id};
        }
        assert v.1[..|v.1|] == v.1;
        digest := v.0;
        r := Ok((digest, |v.1|));
    }
  }

  lemma IdsSnoc(txs: seq<Transaction>, n: nat)
    requires n < |txs|
    ensures Ids(txs[..n + 1]) == Ids(txs[..n]) + {txs[n].id}
  {
    assert txs[..n + 1][..n] == txs[..n];
  }

  /** The number of transactions applied is the growth of the applied set. */
  lemma CountFresh(already: set<Digest>, txs: seq<Transaction>)
    requires Fresh(already, txs).Ok?
    ensures var batch := Fresh(already, txs).value; |(already + Ids(batch)) - already| == |batch|
    ensures Fresh(already, txs).value == [] ==> Ids([]) == {} && already - already == {}
  {
    var batch := Fresh(already, txs).value;
    FreshMeaning(already, txs);
    CountIds(batch);
    assert (already + Ids(batch)) - already == Ids(batch);
  }

  lemma {:induction false} CountIds(batch: seq<Transaction>)
    requires DistinctIds(batch)
    ensures |Ids(batch)| == |batch|
    decreases |batch|
  {
    if batch != [] {
      var init := batch[..|batch| - 1];
      CountIds(init);
      IdsMeaning(init);
    }
  }

  /** The loop that selects the new transactions. */
  method SelectFresh(already: set<Digest>, txs: seq<Transaction>) returns (r: Result<seq<Transaction>>)
    ensures r == Fresh(already, txs)
  {
    var batch: seq<Transaction> := [];
    var seen: set<Digest> := {};
    for n := 0 to |txs|
      invariant seen == Ids(batch) && Fresh(already, txs[..n]) == Ok(batch)
    {
      FreshNext(already, txs, n, batch);
      var tx := txs[n];
      if Blank(tx.id) && tx.payload != "" { tx := tx.(id := TransactionId(tx.payload)); }
      if Blank(tx.id) {
        FreshFails(already, txs, n + 1);
        return Err(MissingTransactionId);
      }
      if tx.id !in already && tx.id !in seen {
        seen := seen + {tx.id};
        batch := batch + [tx];
      }
    }
    assert txs[..|txs|] == txs;
    r := Ok(batch);
  }

  /** Selecting the new transactions and hashing them onto the previous digest. */
  method TransitionDigest(previous: Digest, already: set<Digest>, txs: seq<Transaction>)
    returns (r: Result<(Digest, seq<Transaction>)>)
    ensures match Transition(MachineState(previous, already), txs)
            case Err(e) => r == Err(e)
            case Ok(next) =>
              && r.Ok? && r.value.0 == next.digest
              && already + Ids(r.value.1) == next.applied
              && |r.value.1| == |next.applied - already|
  {
    if previous == EMPTY { return Err(MissingDigest); }
    var selected := SelectFresh(already, txs);
    if selected.Err? { return Err(selected.reason); }
    var batch := selected.value;
    CountFresh(already, txs);
    r := Ok((if batch == [] then previous else OfTransition(previous, batch), batch));
  }

  /** One turn of the loop. */
  lemma FreshNext(already: set<Digest>, txs: seq<Transaction>, n: nat, batch: seq<Transaction>)
    requires n < |txs| && Fresh(already, txs[..n]) == Ok(batch)
    ensures var tx, next := Named(txs[n]), Fresh(already, txs[..n + 1]);
      && (Blank(tx.id) <==> next.Err?) && (next.Err? ==> next.reason == MissingTransactionId)
      && (next.Ok? ==> next.value == if tx.id in already || tx.id in Ids(batch) then batch else batch + [tx])
      && Ids(batch + [tx]) == Ids(batch) + {tx.id}
  {
    assert txs[..n + 1][..n] == txs[..n];
    assert (batch + [Named(txs[n])])[..|batch|] == batch;
  }

  /** A failure in a prefix is the failure of the whole. */
  lemma {:induction false} FreshFails(already: set<Digest>, txs: seq<Transaction>, n: nat)
    requires n <= |txs| && Fresh(already, txs[..n]).Err?
    ensures Fresh(already, txs) == Fresh(already, txs[..n])
    decreases |txs| - n
  {
    if n < |txs| {
      assert txs[..n + 1][..n] == txs[..n];
      FreshFails(already, txs, n + 1);
    } else {
      assert txs[..n] == txs;
    }
  }

  // ---- Runs of the machine -------------------------------------------------------------------

  /** The machine after applying the given lists of transactions one after another. */
  function Replay(inputs: seq<seq<Transaction>>): Result<MachineState>
    decreases |inputs|
  {
    if inputs == [] then Ok(GENESIS) else
    match Replay(inputs[..|inputs| - 1])
    case Err(e) => Err(e)
    case Ok(m) => Transition(m, inputs[|inputs| - 1])
  }

  /** The non-empty batches that such a run applied. */
  function Batches(inputs: seq<seq<Transaction>>): seq<seq<Transaction>>
    requires Replay(inputs).Ok?
    decreases |inputs|
  {
    if inputs == [] then [] else
    var before := inputs[..|inputs| - 1];
    var batch := Fresh(Replay(before).value.applied, inputs[|inputs| - 1]).value;
    if batch == [] then Batches(before) else Batches(before) + [batch]
  }

  function Flatten(batches: seq<seq<Transaction>>): seq<Transaction>
    decreases |batches|
  {
    if batches == [] then [] else Flatten(batches[..|batches| - 1]) + batches[|batches| - 1]
  }

  /** The digest that a list of batches determines. */
  function DigestOf(batches: seq<seq<Transaction>>): Digest
    decreases |batches|
  {
    if batches == [] then GENESIS_DIGEST
    else OfTransition(DigestOf(batches[..|batches| - 1]), batches[|batches| - 1])
  }

  lemma {:induction false} ReplayPrefix(inputs: seq<seq<Transaction>>, n: nat)
    requires n <= |inputs| && Replay(inputs).Ok?
    ensures Replay(inputs[..n]).Ok?
    decreases |inputs| - n
  {
    if n < |inputs| {
      ReplayPrefix(inputs, n + 1);
      assert inputs[..n + 1][..n] == inputs[..n];
    } else {
      assert inputs[..n] == inputs;
    }
  }

  /** The machine is what its batches say: its digest is their chained hash, none is empty, no id occurs
      twice in them, and their ids are the applied set. */
  ghost predicate Chronicle(m: MachineState, batches: seq<seq<Transaction>>)
  {
    && m.digest == DigestOf(batches) && m.digest != EMPTY && !Blank(m.digest)
    && (forall b :: b in batches ==> b != [])
    && DistinctIds(Flatten(batches))
    && Ids(Flatten(batches)) == m.applied
  }

  lemma ChronicleMore(m: MachineState, batches: seq<seq<Transaction>>, batch: seq<Transaction>)
    requires Chronicle(m, batches) && batch != [] && DistinctIds(batch) && m.applied !! Ids(batch)
    ensures Chronicle(MachineState(OfTransition(m.digest, batch), m.applied + Ids(batch)), batches + [batch])
  {
    OneMoreBatch(batches, batch);
    StillNonEmpty(batches, batch);
  }

  lemma StillNonEmpty(batches: seq<seq<Transaction>>, batch: seq<Transaction>)
    requires batch != [] && forall b :: b in batches ==> b != []
    ensures forall b :: b in batches + [batch] ==> b != []
  {
  }

  lemma RunSnoc(inputs: seq<seq<Transaction>>)
    requires inputs != [] && Replay(inputs).Ok?
    ensures Replay(inputs[..|inputs| - 1]).Ok?
    ensures var m := Replay(inputs[..|inputs| - 1]).value;
      var picked := Fresh(m.applied, inputs[|inputs| - 1]);
      var batches := Batches(inputs[..|inputs| - 1]);
      && picked.Ok?
      && (picked.value == [] ==> Replay(inputs) == Ok(m) && Batches(inputs) == batches)
      && (picked.value != [] ==> Batches(inputs) == batches + [picked.value])
      && (picked.value != [] ==> Replay(inputs) == Ok(MachineState(OfTransition(m.digest, picked.value), m.applied + Ids(picked.value))))
  {
  }

  /** A reachable machine is determined by its batches. */
  lemma {:induction false} RunMeaning(inputs: seq<seq<Transaction>>)
    requires Replay(inputs).Ok?
    ensures Chronicle(Replay(inputs).value, Batches(inputs))
    decreases |inputs|
  {
    if inputs == [] {
      assert Ids(Flatten(Batches(inputs))) == {};
    } else {
      var before := inputs[..|inputs| - 1];
      RunSnoc(inputs);
      RunMeaning(before);
      var m := Replay(before).value;
      FreshIds(m.applied, inputs[|inputs| - 1]);
      var batch := Fresh(m.applied, inputs[|inputs| - 1]).value;
      if batch != [] { ChronicleMore(m, Batches(before), batch); }
    }
  }

  lemma OneMoreBatch(batches: seq<seq<Transaction>>, batch: seq<Transaction>)
    requires DistinctIds(Flatten(batches)) && DistinctIds(batch) && Ids(Flatten(batches)) !! Ids(batch)
    ensures var more := batches + [batch];
      && DistinctIds(Flatten(more)) && Ids(Flatten(more)) == Ids(Flatten(batches)) + Ids(batch)
      && DigestOf(more) == OfTransition(DigestOf(batches), batch)
  {
    assert (batches + [batch])[..|batches|] == batches;
    AppendIds(Flatten(batches), batch);
  }

  lemma AppendIds(a: seq<Transaction>, b: seq<Transaction>)
    requires DistinctIds(a) && DistinctIds(b) && Ids(a) !! Ids(b)
    ensures DistinctIds(a + b) && Ids(a + b) == Ids(a) + Ids(b)
  {
    IdsMeaning(a);
    IdsMeaning(b);
    forall i, j | 0 <= i < j < |a + b| ensures (a + b)[i].id != (a + b)[j].id {
      if i < |a| <= j { assert a[i].id in Ids(a) && b[j - |a|].id in Ids(b); }
    }
    ConcatIds(a, b);
  }

  lemma {:induction false} ConcatIds(a: seq<Transaction>, b: seq<Transaction>)
    ensures Ids(a + b) == Ids(a) + Ids(b)
    decreases |b|
  {
    if b == [] {
      assert a + b == a;
    } else {
      assert (a + b)[..|a + b| - 1] == a + b[..|b| - 1];
      ConcatIds(a, b[..|b| - 1]);
    }
  }

  lemma {:induction false} DigestInjective(a: seq<seq<Transaction>>, b: seq<seq<Transaction>>)
    requires DigestOf(a) == DigestOf(b)
    ensures a == b
    decreases |a|
  {
    if a != [] && b != [] {
      DigestInjective(a[..|a| - 1], b[..|b| - 1]);
      assert a == a[..|a| - 1] + [a[|a| - 1]] && b == b[..|b| - 1] + [b[|b| - 1]];
    }
  }

  /** Two reachable machines with the same digest applied the same batches, and so have the same
      applied set: comparing digests compares histories. */
  lemma DigestDeterminesHistory(a: seq<seq<Transaction>>, b: seq<seq<Transaction>>)
    requires Replay(a).Ok? && Replay(b).Ok?
    ensures Replay(a).value.digest == Replay(b).value.digest <==> Batches(a) == Batches(b)
    ensures Replay(a).value.digest == Replay(b).value.digest ==> Replay(a).value == Replay(b).value
  {
    RunMeaning(a);
    RunMeaning(b);
    if Replay(a).value.digest == Replay(b).value.digest {
      DigestInjective(Batches(a), Batches(b));
    }
  }
}
