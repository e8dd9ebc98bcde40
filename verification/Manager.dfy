/** The manager object of context channels (bundle/channel/channel.go). */
module Manager {
  import opened Messages
  import Sorting
  import Ordering
  import opened Counting
  import opened Scheduling
  import opened Scheduler
  import opened Channels

  /** What Add answers; the item is returned even if the budget evicts it at once. */
  datatype Addition = Accepted(item: Item) | UnknownChannel | CompressionFails

  function Answer(b: Books, id: string, itemId: string, payload: string, gzipped: Option<string>, tick: nat): Addition
  {
    if id !in b.channels then UnknownChannel else
    var data := Compress(b.channels[id].policy.compression, payload, gzipped);
    if data == None then CompressionFails else Accepted(NewItem(b.channels[id], itemId, data.value, tick))
  }

  /** The compression is unknown, or is gzip and fails. */
  predicate Unusable(compression: string, gzipped: Option<string>)
  {
    compression != "" && compression != "noop" && (compression == "gzip" ==> gzipped == None)
  }

  /** An Add is turned down exactly on an unknown channel or an unusable compression. */
  lemma AnswerMeaning(b: Books, id: string, itemId: string, payload: string, gzipped: Option<string>, tick: nat)
    ensures var r := Answer(b, id, itemId, payload, gzipped, tick);
      && (r.UnknownChannel? <==> id !in b.channels)
      && (r.CompressionFails? <==> id in b.channels && Unusable(b.channels[id].policy.compression, gzipped))
  {
  }

  /** The item accepted is under the next number of its channel, of its type and weight, and holds the payload
      or what gzip made of it, with the size of that. */
  lemma AcceptedMeaning(b: Books, id: string, itemId: string, payload: string, gzipped: Option<string>, tick: nat)
    requires id in b.channels && SoundChannel(b, id) && !Unusable(b.channels[id].policy.compression, gzipped)
    ensures var r, ch := Answer(b, id, itemId, payload, gzipped, tick), b.channels[id];
      && r.Accepted? && r.item.id == itemId && r.item.channelId == id && r.item.channelType == ch.policy.channelType
      && r.item.priority == ch.policy.weight && r.item.sequence == ch.nextSeq && r.item.createdTick == tick
      && r.item.payload == (if ch.policy.compression == "gzip" then gzipped.value else payload)
      && r.item.size == |r.item.payload| && r.item.compression == ch.policy.compression
  {
  }

  const DEFAULT_POLICIES: seq<Policy> :=
    [ Policy("conversation", "conversation", 40, 8, 4096, NOOP, OLDEST_FIRST),
      Policy("working_memory", "working_memory", 50, 8, 4096, NOOP, OLDEST_FIRST),
      Policy("execution", "execution", 100, 8, 4096, NOOP, OLDEST_FIRST),
      Policy("retrieval", "retrieval", 70, 8, 4096, NOOP, OLDEST_FIRST) ]

  predicate Acceptable(p: Policy)
  {
    p.channelId != "" && p.channelType != "" && p.weight > 0
  }

  /** A manager can be made of policies that are acceptable and name different channels. */
  predicate AllAcceptable(policies: seq<Policy>)
  {
    (forall i :: 0 <= i < |policies| ==> Acceptable(policies[i])) && DistinctPolicies(policies)
  }

  function Completed(p: Policy): Policy
  {
    p.(compression := if p.compression == "" then NOOP else p.compression,
       eviction := if p.eviction == "" then OLDEST_FIRST else p.eviction)
  }

  function NewChannel(p: Policy): Channel
  {
    Channel(Completed(p), 1, [], map[])
  }

  /** The channels of some policies, all empty. */
  function NewChannels(policies: seq<Policy>): (m: map<string, Channel>)
    ensures forall id :: id in m <==> id in Ids(policies)
    decreases |policies|
  {
    if policies == [] then map[] else
    var p := policies[|policies| - 1];
    NewChannels(policies[..|policies| - 1])[p.channelId := NewChannel(p)]
  }

  ghost predicate Opening(b: Books, policies: seq<Policy>, totalMaxBytes: int)
  {
    && b.channels == NewChannels(policies) && Ordering.Sorted(b.order) && multiset(b.order) == multiset(Ids(policies))
    && b.totalMaxBytes == totalMaxBytes && b.evictions == [] && b.committed == map[]
  }

  lemma {:induction false} NewChannelsEmpty(policies: seq<Policy>, id: string)
    requires (forall i :: 0 <= i < |policies| ==> Acceptable(policies[i])) && id in NewChannels(policies)
    ensures var ch := NewChannels(policies)[id];
      ch.policy.channelId == id && ch.policy.weight > 0 && ch.nextSeq == 1 && ch.pending == [] && ch.delivered == map[]
    decreases |policies|
  {
    if policies[|policies| - 1].channelId != id { NewChannelsEmpty(policies[..|policies| - 1], id); }
  }

  /** A new channel has its policy, with nothing compressed and the oldest evicted first unless the policy says
      otherwise, starts at number 1, and is empty. */
  predicate Opened(p: Policy, ch: Channel)
  {
    && ch.nextSeq == 1 && ch.pending == [] && ch.delivered == map[]
    && ch.policy == p.(compression := ch.policy.compression, eviction := ch.policy.eviction)
    && ch.policy.compression == (if p.compression == "" then "noop" else p.compression)
    && ch.policy.eviction == (if p.eviction == "" then "oldest_first" else p.eviction)
  }

  lemma NewChannelOpened(p: Policy)
    ensures Opened(p, NewChannel(p))
  {
  }

  predicate DistinctPolicies(policies: seq<Policy>)
  {
    forall i, j :: 0 <= i < j < |policies| ==> policies[i].channelId != policies[j].channelId
  }

  lemma {:induction false} NewChannelsAt(policies: seq<Policy>, i: nat)
    requires DistinctPolicies(policies) && i < |policies|
    ensures policies[i].channelId in NewChannels(policies) && Opened(policies[i], NewChannels(policies)[policies[i].channelId])
    decreases |policies|
  {
    var n := |policies| - 1;
    NewChannelOpened(policies[n]);
    NewChannelsSnoc(policies);
    if i < n {
      DistinctInit(policies, i);
      NewChannelsAt(policies[..n], i);
    }
  }

  lemma NewChannelsSnoc(policies: seq<Policy>)
    requires policies != []
    ensures var p := policies[|policies| - 1];
      NewChannels(policies) == NewChannels(policies[..|policies| - 1])[p.channelId := NewChannel(p)]
  {
  }

  lemma DistinctInit(policies: seq<Policy>, i: nat)
    requires DistinctPolicies(policies) && i < |policies| - 1
    ensures var n := |policies| - 1;
      DistinctPolicies(policies[..n]) && policies[..n][i] == policies[i] && policies[i].channelId != policies[n].channelId
  {
  }

  lemma {:induction false} IdsAt(policies: seq<Policy>, i: nat)
    requires i < |policies|
    ensures Ids(policies)[i] == policies[i].channelId
    decreases |policies|
  {
    if i < |policies| - 1 { IdsAt(policies[..|policies| - 1], i); }
  }

  lemma AcceptableDistinct(policies: seq<Policy>)
    requires AllAcceptable(policies)
    ensures DistinctIds(Ids(policies))
  {
    forall i, j | 0 <= i < j < |policies| ensures Ids(policies)[i] != Ids(policies)[j] {
      IdsAt(policies, i);
      IdsAt(policies, j);
    }
  }

  lemma OpeningSound(b: Books, policies: seq<Policy>, totalMaxBytes: int)
    requires Opening(b, policies, totalMaxBytes) && AllAcceptable(policies)
    ensures Balanced(b) && WithinBudget(b)
  {
    AcceptableDistinct(policies);
    SameContents(Ids(policies), b.order);
    forall id ensures id in b.order <==> id in b.channels {
      assert id in Ordering.Elements(b.order) <==> id in Ordering.Elements(Ids(policies));
    }
    forall id | id in b.channels ensures SoundChannel(b, id) && Within(b.channels[id]) && b.channels[id].pending == [] {
      NewChannelsEmpty(policies, id);
    }
    SumZero(b.channels, PendingBytes, b.order, b.channels.Keys);
  }

  // ---- Handing the pending items to a scheduler ----------------------------------------------

  predicate ByChannel(a: Item, b: Item)
  {
    if a.channelId != b.channelId then Ordering.Less(a.channelId, b.channelId) else a.sequence < b.sequence
  }

  lemma ByChannelIsStrictWeak()
    ensures Sorting.StrictWeak(ByChannel)
  {
    forall a, b ensures Sorting.Asymmetric(ByChannel, a, b) { Ordering.NotBoth(a.channelId, b.channelId); }
    forall a, b, c ensures Sorting.Cuts(ByChannel, a, b, c) {
      Ordering.Between(a.channelId, b.channelId, c.channelId);
      Ordering.Total(a.channelId, c.channelId);
      Ordering.Irreflexive(a.channelId);
    }
  }

  /** By channel, and within a channel by sequence. */
  predicate NotAfter(a: Item, b: Item)
  {
    Ordering.Less(a.channelId, b.channelId) || (a.channelId == b.channelId && a.sequence <= b.sequence)
  }

  lemma InOrderMeaning(out: seq<Item>)
    requires Sorting.InOrder(ByChannel, out)
    ensures forall i, j :: 0 <= i < j < |out| ==> NotAfter(out[i], out[j])
  {
    forall i, j | 0 <= i < j < |out| ensures NotAfter(out[i], out[j]) {
      assert !ByChannel(out[j], out[i]);
      Ordering.Total(out[i].channelId, out[j].channelId);
    }
  }

  /** The pending items of the listed channels, one channel after the other. */
  function Listed(channels: map<string, Channel>, order: seq<string>): seq<Item>
    requires forall id :: id in order ==> id in channels
    decreases |order|
  {
    if order == [] then [] else
    Listed(channels, order[..|order| - 1]) + channels[order[|order| - 1]].pending
  }

  lemma PendingTagged(b: Books, id: string)
    requires Balanced(b) && id in b.channels
    ensures Tagged(b.channels[id].pending, id)
  {
    assert SoundChannel(b, id);
    var ch := b.channels[id];
    assert forall i :: 0 <= i < |ch.pending| ==> Belongs(ch, ch.pending[i]);
  }

  lemma {:induction false} ListedOf(channels: map<string, Channel>, order: seq<string>, id: string)
    requires DistinctIds(order) && forall k :: k in order ==> k in channels && Tagged(channels[k].pending, k)
    ensures OfChannel(Listed(channels, order), id) == if id in order then channels[id].pending else []
    decreases |order|
  {
    if order != [] {
      var n := |order| - 1;
      ListedOf(channels, order[..n], id);
      ListedMore(Listed(channels, order[..n]), channels[order[n]].pending, order[n], id);
      InPrefix(order, id);
    }
  }

  lemma InPrefix(order: seq<string>, id: string)
    requires order != [] && DistinctIds(order)
    ensures var n := |order| - 1;
      DistinctIds(order[..n]) && order[n] !in order[..n] && (id in order <==> id in order[..n] || id == order[n])
  {
  }

  lemma ListedMore(a: seq<Item>, b: seq<Item>, own: string, id: string)
    requires Tagged(b, own)
    ensures own == id && OfChannel(a, id) == [] ==> OfChannel(a + b, id) == b
    ensures own != id ==> OfChannel(a + b, id) == OfChannel(a, id)
  {
    OfChannelConcat(a, b, id);
    OfChannelTagged(b, own, id);
  }

  lemma {:induction false} OfChannelCount(items: seq<Item>, id: string, x: Item)
    ensures multiset(OfChannel(items, id))[x] == if x.channelId == id then multiset(items)[x] else 0
    decreases |items|
  {
    if items != [] {
      var n := |items| - 1;
      OfChannelCount(items[..n], id, x);
      assert items == items[..n] + [items[n]];
    }
  }

  lemma OfChannelPermuted(a: seq<Item>, b: seq<Item>, id: string)
    requires multiset(a) == multiset(b)
    ensures multiset(OfChannel(a, id)) == multiset(OfChannel(b, id))
  {
    forall x ensures multiset(OfChannel(a, id))[x] == multiset(OfChannel(b, id))[x] {
      OfChannelCount(a, id, x);
      OfChannelCount(b, id, x);
    }
  }

  /** Sorting a list that is strictly increasing gives it back. */
  lemma {:induction false} SortedOnce(q: seq<Item>, p: seq<Item>)
    requires BySequence(q) && Increasing(p) && multiset(q) == multiset(p)
    ensures q == p
    decreases |p|
  {
    SameLength(q, p);
    if p != [] {
      var n := |p| - 1;
      SameLast(q, p);
      ButLast(q, p);
      SortedOnce(q[..n], p[..n]);
      assert q == q[..n] + [q[n]];
    }
  }

  lemma SameLength<T>(q: seq<T>, p: seq<T>)
    requires multiset(q) == multiset(p)
    ensures |q| == |p|
  {
    assert |q| == |multiset(q)| == |multiset(p)| == |p|;
  }

  lemma ButLast<T>(q: seq<T>, p: seq<T>)
    requires multiset(q) == multiset(p) && |q| == |p| > 0 && q[|q| - 1] == p[|p| - 1]
    ensures multiset(q[..|q| - 1]) == multiset(p[..|p| - 1])
  {
    var n := |p| - 1;
    assert q == q[..n] + [q[n]] && p == p[..n] + [p[n]];
    assert multiset(q[..n]) == multiset(q) - multiset{q[n]};
  }

  lemma SameLast(q: seq<Item>, p: seq<Item>)
    requires BySequence(q) && Increasing(p) && multiset(q) == multiset(p) && |q| == |p| > 0
    ensures q[|q| - 1] == p[|p| - 1]
  {
    var n := |p| - 1;
    assert q[n] in multiset(p) && p[n] in multiset(q);
    var i :| 0 <= i <= n && p[i] == q[n];
    var j :| 0 <= j <= n && q[j] == p[n];
  }

  lemma ServedPending(b: Books, items: seq<Item>, served: seq<Item>, id: string)
    requires Balanced(b) && multiset(items) == multiset(Listed(b.channels, b.order))
    requires Arranged(OfChannel(items, id), OfChannel(served, id))
    ensures OfChannel(served, id) == if id in b.channels then b.channels[id].pending else []
  {
    forall k | k in b.order ensures k in b.channels && Tagged(b.channels[k].pending, k) { PendingTagged(b, k); }
    ListedOf(b.channels, b.order, id);
    OfChannelPermuted(items, Listed(b.channels, b.order), id);
    assert id in b.channels ==> SoundChannel(b, id);
    SortedOnce(OfChannel(served, id), if id in b.channels then b.channels[id].pending else []);
  }

  lemma AllServed(b: Books, items: seq<Item>, served: seq<Item>)
    requires Balanced(b) && multiset(items) == multiset(Listed(b.channels, b.order))
    requires forall id :: Arranged(OfChannel(items, id), OfChannel(served, id))
    ensures forall id :: OfChannel(served, id) == if id in b.channels then b.channels[id].pending else []
  {
    forall id ensures OfChannel(served, id) == if id in b.channels then b.channels[id].pending else [] {
      ServedPending(b, items, served, id);
    }
  }

  lemma {:induction false} WeightsAt(policies: seq<Policy>, i: nat)
    requires i < |policies| && DistinctIds(Ids(policies))
    ensures policies[i].channelId in Weights(policies) && Weights(policies)[policies[i].channelId] == policies[i].weight
    decreases |policies|
  {
    var n := |policies| - 1;
    IdsAt(policies, i);
    IdsAt(policies, n);
    if i < n {
      assert Ids(policies)[i] != Ids(policies)[n];
      assert Ids(policies)[..n] == Ids(policies[..n]);
      assert DistinctIds(Ids(policies[..n]));
      WeightsAt(policies[..n], i);
    }
  }

  lemma KnownWeight(policies: seq<Policy>, weights: map<string, int>, order: seq<string>, found: set<string>, i: nat)
    requires Known(policies, weights, order, found) && i < |policies| && DistinctIds(Ids(policies))
    ensures policies[i].channelId in weights && weights[policies[i].channelId] == policies[i].weight
  {
    WeightsAt(policies, i);
    IdsAt(policies, i);
    assert policies[i].channelId in Ordering.Elements(Ids(policies));
  }

  lemma KnownOrder(policies: seq<Policy>, weights: map<string, int>, order: seq<string>, found: set<string>)
    requires Known(policies, weights, order, found) && found <= Ordering.Elements(Ids(policies))
    ensures Ordering.Sorted(order) && Ordering.Elements(order) == Ordering.Elements(Ids(policies))
  {
  }

  /** A scheduler made for the manager's policies knows its channels at their weights, and no others. */
  lemma KnownChannels(channels: map<string, Channel>, ids: seq<string>, policies: seq<Policy>, weights: map<string, int>, order: seq<string>, found: set<string>)
    requires (forall id :: id in ids <==> id in channels) && DistinctIds(ids) && found <= channels.Keys
    requires Ids(policies) == ids && forall i :: 0 <= i < |policies| ==> policies[i] == channels[ids[i]].policy
    requires Known(policies, weights, order, found)
    ensures Ordering.Sorted(order) && DistinctIds(order) && Ordering.Elements(order) == channels.Keys
    ensures forall id :: id in channels ==> id in weights && weights[id] == channels[id].policy.weight
  {
    assert Ordering.Elements(ids) == channels.Keys;
    KnownOrder(policies, weights, order, found);
    forall id | id in channels ensures id in weights && weights[id] == channels[id].policy.weight {
      var i :| 0 <= i < |ids| && ids[i] == id;
      IdsAt(policies, i);
      KnownWeight(policies, weights, order, found, i);
    }
  }

  class ChannelManager {
    var channels: map<string, Channel>
    var order: seq<string>
    var totalMaxBytes: int
    var evictions: seq<Eviction>
    ghost var committed: map<string, multiset<nat>>

    ghost function State(): (b: Books)
      reads this
    {
      Books(channels, order, totalMaxBytes, evictions, committed)
    }

    /** The accounts balance and every cap holds. */
    ghost predicate Valid()
      reads this
    {
      Balanced(State()) && WithinBudget(State())
    }

    constructor (channels: map<string, Channel>, order: seq<string>, totalMaxBytes: int)
      ensures State() == Books(channels, order, totalMaxBytes, [], map[])
    {
      this.channels, this.order, this.totalMaxBytes := channels, order, totalMaxBytes;
      this.evictions, this.committed := [], map[];
    }

    method BudgetUsed() returns (total: nat)
      requires Balanced(State())
      ensures total == Used(State())
    {
      total := 0;
      var rest := channels.Keys;
      while rest != {}
        invariant rest <= channels.Keys
        invariant total + SumOver(channels, PendingBytes, order, rest) == Used(State())
        decreases rest
      {
        var id :| id in rest;
        SumLess(channels, PendingBytes, order, id, rest);
        var bytes := ChannelBytes(channels[id].pending);
        total := total + bytes;
        rest := rest - {id};
      }
      SumEmpty(channels, PendingBytes, order);
    }

    /** Both eviction policies take the oldest pending item. */
    method EvictFromChannel(id: string, reason: string)
      requires id in channels && Steady(channels[id])
      modifies this`channels, this`evictions
      ensures State() == old(Evicted(State(), id, reason))
    {
      var ch := channels[id];
      if |ch.pending| == 0 { return; }
      var idx := Victim(ch);
      var item := ch.pending[idx];
      channels := channels[id := ch.(pending := ch.pending[..idx] + ch.pending[idx + 1..])];
      evictions := evictions + [Eviction(item.channelId, item.id, item.sequence, reason)];
    }

    method EnforceChannelBudget(id: string)
      requires Balanced(State()) && id in channels
      modifies this`channels, this`evictions
      ensures State() == old(Trimmed(State(), id))
    {
      ghost var b := State();
      while true
        invariant b == State() && Balanced(b) && id in b.channels && Trimmed(b, id) == old(Trimmed(State(), id))
        decreases |b.channels[id].pending|
      {
        assert SoundChannel(b, id);
        var ch := channels[id];
        EvictedKeeps(b, id, TrimReason(ch));
        var bytes := ChannelBytes(ch.pending);
        if ch.policy.maxItems > 0 && |ch.pending| > ch.policy.maxItems {
          EvictFromChannel(id, MAX_ITEMS);
        } else if ch.policy.maxBytes > 0 && bytes > ch.policy.maxBytes {
          EvictFromChannel(id, MAX_BYTES);
        } else {
          return;
        }
        b := Evicted(b, id, TrimReason(ch));
      }
    }

    method LowestPriorityNonEmptyChannel() returns (best: Option<string>)
      requires forall id :: id in order ==> id in channels
      ensures best == Lowest(channels, order)
    {
      best := None;
      for n := 0 to |order|
        invariant best == Lowest(channels, order[..n])
      {
        assert order[..n + 1][..n] == order[..n];
        var ch := channels[order[n]];
        if |ch.pending| != 0 {
          if best == None || ch.policy.weight < channels[best.value].policy.weight ||
             (ch.policy.weight == channels[best.value].policy.weight &&
              ch.pending[0].sequence < channels[best.value].pending[0].sequence)
          {
            best := Some(order[n]);
          }
        }
      }
      assert order[..|order|] == order;
    }

    method EnforceTotalBudget()
      requires Balanced(State())
      modifies this`channels, this`evictions
      ensures State() == old(Shrunk(State()))
    {
      ghost var b := State();
      ghost var goal := Shrunk(b);
      var used := BudgetUsed();
      while totalMaxBytes > 0 && used > totalMaxBytes
        invariant b == State() && Balanced(b) && used == Used(b) && Shrunk(b) == goal
        decreases Backlog(b)
      {
        var low := LowestPriorityNonEmptyChannel();
        if low == None { return; }
        assert SoundChannel(b, low.value);
        EvictFromChannel(low.value, TOTAL_BUDGET);
        b := ShrunkOnce(b);
        used := BudgetUsed();
      }
    }

    /** Appending an item under the next sequence number. */
    method AppendPending(id: string, item: Item)
      requires id in channels
      modifies this`channels
      ensures State() == old(Appended(State(), id, item))
    {
      var ch := channels[id];
      channels := channels[id := ch.(nextSeq := ch.nextSeq + 1, pending := ch.pending + [item])];
    }

    /** Appending an item and bringing the budgets back. */
    method Append(id: string, item: Item)
      requires id in channels && Balanced(Appended(State(), id, item))
      modifies this`channels, this`evictions
      ensures State() == old(Added(State(), id, item))
    {
      ghost var b := Appended(State(), id, item);
      TrimmedSound(b, id);
      AppendPending(id, item);
      EnforceChannelBudget(id);
      EnforceTotalBudget();
    }

    method AddItem(id: string, itemId: string, payload: string, gzipped: Option<string>, tick: nat) returns (r: Addition)
      requires Valid()
      modifies this`channels, this`evictions
      ensures Valid() && State() == old(Perform(State(), Add(id, itemId, payload, gzipped, tick)))
      ensures r == old(Answer(State(), id, itemId, payload, gzipped, tick))
    {
      if id !in channels { return UnknownChannel; }
      var ch := channels[id];
      var data := Compress(ch.policy.compression, payload, gzipped);
      if data == None { return CompressionFails; }
      var item := NewItem(ch, itemId, data.value, tick);
      AddedKeeps(State(), id, item);
      Append(id, item);
      return Accepted(item);
    }

    /** The policies in the order of the channels. */
    method Policies() returns (out: seq<Policy>)
      requires Balanced(State())
      ensures Ids(out) == order && forall i :: 0 <= i < |out| ==> out[i] == channels[order[i]].policy
    {
      forall k | k in order ensures channels[k].policy.channelId == k { assert SoundChannel(State(), k); }
      out := PoliciesOf(channels, order);
    }

    /** All pending items by channel and sequence. */
    method SnapshotItems() returns (out: seq<Item>)
      requires Balanced(State())
      ensures forall i, j :: 0 <= i < j < |out| ==> NotAfter(out[i], out[j])
      ensures multiset(out) == multiset(Listed(channels, order))
    {
      out := [];
      for n := 0 to |order|
        invariant out == Listed(channels, order[..n])
      {
        assert order[..n + 1][..n] == order[..n];
        out := out + channels[order[n]].pending;
      }
      assert order[..|order|] == order;
      ByChannelIsStrictWeak();
      out := Sorting.SortBy(out, ByChannel);
      InOrderMeaning(out);
    }

    /** Draining the manager's scheduler serves, of every channel, exactly its pending items in order. */
    method ServeAll() returns (served: seq<Item>, ghost start: View)
      requires Valid()
      ensures start.WellFormed() && served == Rounds(start.Quotas(), start.Queues())
      ensures Ordering.StrictlySorted(start.order) && Ordering.Elements(start.order) == channels.Keys
      ensures start.Channels() == start.order && start.Quotas() == QuotasOf(start.weights, start.order)
      ensures forall id :: id in channels ==> id in start.weights && start.weights[id] == channels[id].policy.weight
      ensures forall id :: id in channels ==> QueueOf(start.queues, id) == channels[id].pending
      ensures forall id :: id in channels ==> OfChannel(served, id) == channels[id].pending
      ensures forall id :: id !in channels ==> OfChannel(served, id) == []
    {
      var policies := Policies();
      var items := SnapshotItems();
      served, start := Schedule(policies, items);
      AllServed(State(), items, served);
      KnownChannels(channels, order, policies, start.weights, start.order, start.queues.Keys);
      Ordering.SortedDistinct(start.order);
      DistinctShares(start);
    }

    method HandOver(id: string, i: nat)
      requires id in channels && i < |channels[id].pending|
      modifies this`channels, this`committed
      ensures State() == old(HandedOver(State(), id, i))
    {
      var ch, item := channels[id], channels[id].pending[i];
      committed := committed[id := CommittedOf(committed, id) + multiset{item.sequence}];
      channels := channels[id := ch.(delivered := ch.delivered[item.id := item], pending := ch.pending[..i] + ch.pending[i + 1..])];
    }

    method CommitItem(id: string, itemId: string) returns (ok: bool)
      requires Valid()
      modifies this`channels, this`committed
      ensures Valid() && State() == old(Perform(State(), Commit(id, itemId)))
      ensures ok == old(id in channels && Find(channels[id].pending, itemId) < |channels[id].pending|)
    {
      if id !in channels { return false; }
      var i := FindItem(channels[id].pending, itemId);
      if i == |channels[id].pending| { return false; }
      HandedOverKeeps(State(), id, i);
      HandedOverWithin(State(), id, i);
      HandOver(id, i);
      return true;
    }
  }

  method FindItem(items: seq<Item>, itemId: string) returns (i: nat)
    ensures i == Find(items, itemId)
  {
    i := 0;
    while i < |items| && items[i].id != itemId
      invariant i <= |items| && forall j :: 0 <= j < i ==> items[j].id != itemId
    {
      i := i + 1;
    }
  }

  method PoliciesOf(channels: map<string, Channel>, order: seq<string>) returns (out: seq<Policy>)
    requires forall k :: k in order ==> k in channels && channels[k].policy.channelId == k
    ensures Ids(out) == order && forall i :: 0 <= i < |out| ==> out[i] == channels[order[i]].policy
  {
    out := [];
    for n := 0 to |order|
      invariant |out| == n && forall i :: 0 <= i < n ==> out[i] == channels[order[i]].policy
      invariant Ids(out) == order[..n]
    {
      assert (out + [channels[order[n]].policy])[..n] == out;
      out := out + [channels[order[n]].policy];
    }
    assert order[..|order|] == order;
  }

  method ChannelBytes(items: seq<Item>) returns (total: nat)
    ensures total == Bytes(items)
  {
    total := 0;
    for n := 0 to |items|
      invariant total == Bytes(items[..n])
    {
      assert items[..n + 1][..n] == items[..n];
      total := total + items[n].size;
    }
    assert items[..|items|] == items;
  }

  /** The item to evict under the channel's policy: always the first. */
  method Victim(ch: Channel) returns (idx: int)
    requires Steady(ch) && ch.pending != []
    ensures idx == 0
  {
    idx := 0;
    if ch.policy.eviction == LOWEST_PRIORITY_FIRST {
      for i := 0 to |ch.pending|
        invariant idx == 0
      {
        var item, best := ch.pending[i], ch.pending[idx];
        assert Belongs(ch, item) && Belongs(ch, best);
        if item.priority < best.priority || (item.priority == best.priority && item.sequence < best.sequence) {
          idx := i;
        }
      }
    }
  }

  /** Fails exactly on a bad or a repeated policy. */
  method OpenChannels(policies: seq<Policy>) returns (ok: bool, channels: map<string, Channel>, order: seq<string>)
    ensures ok == AllAcceptable(policies)
    ensures ok ==> channels == NewChannels(policies) && order == Ids(policies)
  {
    channels, order := map[], [];
    for n := 0 to |policies|
      invariant channels == NewChannels(policies[..n]) && order == Ids(policies[..n]) && AllAcceptable(policies[..n])
    {
      assert policies[..n + 1][..n] == policies[..n];
      var p := policies[n];
      AcceptableMore(policies, n);
      if p.channelId == "" || p.channelType == "" || p.weight <= 0 || p.channelId in channels {
        return false, channels, order;
      }
      channels := channels[p.channelId := NewChannel(p)];
      order := order + [p.channelId];
    }
    assert policies[..|policies|] == policies;
    return true, channels, order;
  }

  /** Without policies there are the default ones. */
  function Chosen(given: seq<Policy>): seq<Policy>
  {
    if given == [] then DEFAULT_POLICIES else given
  }

  /** On success every channel is there, and empty. */
  method NewManager(totalMaxBytes: int, given: seq<Policy>) returns (m: Option<ChannelManager>)
    ensures var policies := if given == [] then DEFAULT_POLICIES else given;
      m.Some? <==>
        && (forall i :: 0 <= i < |policies| ==> policies[i].channelId != "" && policies[i].channelType != "" && policies[i].weight > 0)
        && DistinctPolicies(policies)
    ensures m.Some? ==> fresh(m.value) && m.value.Valid() && Opening(m.value.State(), Chosen(given), totalMaxBytes)
  {
    var ok, channels, order := OpenChannels(Chosen(given));
    if !ok { return None; }
    order := Ordering.Sort(order);
    var manager := new ChannelManager(channels, order, totalMaxBytes);
    OpeningSound(manager.State(), Chosen(given), totalMaxBytes);
    return Some(manager);
  }

  /** A prefix of policies goes on being acceptable if the next one is and is new. */
  lemma AcceptableMore(policies: seq<Policy>, n: nat)
    requires n < |policies| && AllAcceptable(policies[..n])
    ensures Acceptable(policies[n]) && policies[n].channelId !in Ids(policies[..n]) <==> AllAcceptable(policies[..n + 1])
    ensures AllAcceptable(policies) ==> AllAcceptable(policies[..n + 1])
  {
    forall i | 0 <= i < n ensures Ids(policies[..n])[i] == policies[i].channelId { IdsAt(policies[..n], i); }
  }
}
