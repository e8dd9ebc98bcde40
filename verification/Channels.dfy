/** Context channels with budgets (bundle/channel/channel.go): items are added under increasing sequence
    numbers, committed, or evicted when a channel or the whole manager is over its budget. */
module Channels {
  import opened Messages
  import opened Counting
  import opened Scheduling
  import opened Scheduler

  const NOOP := "noop"
  const GZIP := "gzip"
  const OLDEST_FIRST := "oldest_first"
  const LOWEST_PRIORITY_FIRST := "lowest_priority_first"
  const MAX_ITEMS := "channel max items"
  const MAX_BYTES := "channel max bytes"
  const TOTAL_BUDGET := "total context budget"

  datatype Channel = Channel(policy: Policy, nextSeq: nat, pending: seq<Item>, delivered: map<string, Item>)

  datatype Eviction = Eviction(channelId: string, itemId: string, sequence: nat, reason: string)

  /** The state of a manager. `committed` is history: what each channel ever handed over. The Go map of
      delivered items does not tell, for a second item of the same id overwrites the first. */
  datatype Books = Books(
    channels: map<string, Channel>,
    order: seq<string>,
    totalMaxBytes: int,
    evictions: seq<Eviction>,
    committed: map<string, multiset<nat>>)

  // ---- Accounts ------------------------------------------------------------------------------

  /** The bytes of some items. */
  function Bytes(items: seq<Item>): nat
    decreases |items|
  {
    if items == [] then 0 else Bytes(items[..|items| - 1]) + items[|items| - 1].size
  }

  /** The sequence numbers of some items. */
  function Seqs(items: seq<Item>): multiset<nat>
    decreases |items|
  {
    if items == [] then multiset{} else Seqs(items[..|items| - 1]) + multiset{items[|items| - 1].sequence}
  }

  /** The sequence numbers evicted from a channel. */
  function EvictedOf(evictions: seq<Eviction>, id: string): multiset<nat>
    decreases |evictions|
  {
    if evictions == [] then multiset{} else
    var e := evictions[|evictions| - 1];
    EvictedOf(evictions[..|evictions| - 1], id) + (if e.channelId == id then multiset{e.sequence} else multiset{})
  }

  function CommittedOf(committed: map<string, multiset<nat>>, id: string): multiset<nat>
  {
    if id in committed then committed[id] else multiset{}
  }

  /** Every sequence number issued before `next`, once. */
  function Issued(next: nat): multiset<nat>
  {
    if next <= 1 then multiset{} else Issued(next - 1) + multiset{next - 1}
  }

  lemma {:induction false} IssuedOnce(next: nat, s: nat)
    ensures Issued(next)[s] == if 1 <= s < next then 1 else 0
  {
    if next > 1 { IssuedOnce(next - 1, s); }
  }

  lemma EvictedMore(evictions: seq<Eviction>, e: Eviction, id: string)
    ensures EvictedOf(evictions + [e], id) ==
      EvictedOf(evictions, id) + (if e.channelId == id then multiset{e.sequence} else multiset{})
  {
    assert (evictions + [e])[..|evictions|] == evictions;
  }

  /** A list without its i-th element. */
  function Without<T>(s: seq<T>, i: nat): seq<T>
    requires i < |s|
  {
    s[..i] + s[i + 1..]
  }

  lemma WithoutLast<T>(s: seq<T>, i: nat)
    requires i < |s| - 1
    ensures var w := Without(s, i);
      |w| == |s| - 1 && w[..|w| - 1] == Without(s[..|s| - 1], i) && w[|w| - 1] == s[|s| - 1]
  {
  }

  lemma Swapped(a: multiset<nat>, s: nat, t: nat)
    ensures a + multiset{s} + multiset{t} == a + multiset{t} + multiset{s}
  {
  }

  lemma {:induction false} Removed(items: seq<Item>, i: nat)
    requires i < |items|
    ensures Seqs(items) == Seqs(Without(items, i)) + multiset{items[i].sequence}
    decreases |items|
  {
    var n := |items| - 1;
    if i == n {
      assert Without(items, i) == items[..n];
    } else {
      Removed(items[..n], i);
      WithoutLast(items, i);
      Swapped(Seqs(Without(items[..n], i)), items[i].sequence, items[n].sequence);
    }
  }

  lemma {:induction false} RemovedBytes(items: seq<Item>, i: nat)
    requires i < |items|
    ensures Bytes(items) == Bytes(Without(items, i)) + items[i].size
    decreases |items|
  {
    var n := |items| - 1;
    if i == n {
      assert Without(items, i) == items[..n];
    } else {
      RemovedBytes(items[..n], i);
      WithoutLast(items, i);
    }
  }

  // ---- What holds of every channel -----------------------------------------------------------

  predicate Increasing(items: seq<Item>)
  {
    forall i, j :: 0 <= i < j < |items| ==> items[i].sequence < items[j].sequence
  }

  /** Pending items are the channel's own, all of its priority, in strictly increasing sequence. */
  predicate Steady(ch: Channel)
  {
    && ch.policy.weight > 0 && ch.nextSeq >= 1 && Increasing(ch.pending)
    && forall i :: 0 <= i < |ch.pending| ==> Belongs(ch, ch.pending[i])
  }

  predicate Belongs(ch: Channel, item: Item)
  {
    item.priority == ch.policy.weight && item.channelId == ch.policy.channelId && item.sequence < ch.nextSeq
  }

  /** Every sequence number issued is pending or gone, and only once. */
  predicate Accounted(ch: Channel, gone: multiset<nat>)
  {
    Seqs(ch.pending) + gone == Issued(ch.nextSeq)
  }

  function Gone(b: Books, id: string): multiset<nat>
  {
    EvictedOf(b.evictions, id) + CommittedOf(b.committed, id)
  }

  ghost predicate Balanced(b: Books)
  {
    && DistinctIds(b.order) && (forall id :: id in b.order <==> id in b.channels)
    && forall id :: id in b.channels ==> SoundChannel(b, id)
  }

  predicate SoundChannel(b: Books, id: string)
    requires id in b.channels
  {
    b.channels[id].policy.channelId == id && Steady(b.channels[id]) && Accounted(b.channels[id], Gone(b, id))
  }

  /** The positive caps of a channel hold. */
  predicate Within(ch: Channel)
  {
    && (ch.policy.maxItems > 0 ==> |ch.pending| <= ch.policy.maxItems)
    && (ch.policy.maxBytes > 0 ==> Bytes(ch.pending) <= ch.policy.maxBytes)
  }

  function PendingBytes(ch: Channel): nat { Bytes(ch.pending) }
  function PendingItems(ch: Channel): nat { |ch.pending| }

  function Used(b: Books): nat { SumOver(b.channels, PendingBytes, b.order, b.channels.Keys) }
  function Backlog(b: Books): nat { SumOver(b.channels, PendingItems, b.order, b.channels.Keys) }

  ghost predicate EachWithin(b: Books)
  {
    forall id :: id in b.channels ==> Within(b.channels[id])
  }

  /** All positive caps hold. */
  ghost predicate WithinBudget(b: Books)
  {
    && EachWithin(b)
    && (b.totalMaxBytes > 0 ==> Used(b) <= b.totalMaxBytes)
  }

  /** A sequence number of a channel is in exactly one place. */
  lemma OnePlace(b: Books, id: string, s: nat)
    requires Balanced(b) && id in b.channels
    ensures Seqs(b.channels[id].pending)[s] + EvictedOf(b.evictions, id)[s] + CommittedOf(b.committed, id)[s]
      == if 1 <= s < b.channels[id].nextSeq then 1 else 0
  {
    assert SoundChannel(b, id);
    IssuedOnce(b.channels[id].nextSeq, s);
    assert (Seqs(b.channels[id].pending) + Gone(b, id))[s] == Issued(b.channels[id].nextSeq)[s];
  }

  // ---- Eviction ------------------------------------------------------------------------------

  function Drop(ch: Channel, i: nat): Channel
    requires i < |ch.pending|
  {
    ch.(pending := Without(ch.pending, i))
  }

  lemma DropKeeps(ch: Channel, i: nat, gone: multiset<nat>)
    requires Steady(ch) && Accounted(ch, gone) && i < |ch.pending|
    ensures Steady(Drop(ch, i)) && Accounted(Drop(ch, i), gone + multiset{ch.pending[i].sequence})
  {
    Removed(ch.pending, i);
    DropSteady(ch, i);
    Regrouped(Seqs(Drop(ch, i).pending), gone, ch.pending[i].sequence);
  }

  lemma DropSteady(ch: Channel, i: nat)
    requires Steady(ch) && i < |ch.pending|
    ensures Steady(Drop(ch, i))
  {
    var rest := Without(ch.pending, i);
    assert forall j :: 0 <= j < |rest| ==> rest[j] == ch.pending[if j < i then j else j + 1];
  }

  lemma Regrouped(a: multiset<nat>, b: multiset<nat>, s: nat)
    ensures a + multiset{s} + b == a + (b + multiset{s})
  {
  }

  /** Evicting the oldest pending item of a channel, if there is one. */
  function Evicted(b: Books, id: string, reason: string): Books
    requires id in b.channels
  {
    var ch := b.channels[id];
    if ch.pending == [] then b else
    b.(channels := b.channels[id := Drop(ch, 0)], evictions := b.evictions + [Record(ch.pending[0], reason)])
  }

  function Record(item: Item, reason: string): Eviction
  {
    Eviction(item.channelId, item.id, item.sequence, reason)
  }

  lemma EvictedOwn(b: Books, id: string, reason: string)
    requires id in b.channels && SoundChannel(b, id)
    ensures SoundChannel(Evicted(b, id, reason), id)
  {
    var ch := b.channels[id];
    if ch.pending != [] {
      EvictedMore(b.evictions, Record(ch.pending[0], reason), id);
      DropKeeps(ch, 0, Gone(b, id));
      Exchanged(EvictedOf(b.evictions, id), CommittedOf(b.committed, id), ch.pending[0].sequence);
    }
  }

  lemma Exchanged(a: multiset<nat>, b: multiset<nat>, s: nat)
    ensures a + b + multiset{s} == a + multiset{s} + b == a + (b + multiset{s})
  {
  }

  lemma EvictedOther(b: Books, id: string, reason: string, k: string)
    requires id in b.channels && k in b.channels && k != id && SoundChannel(b, k)
    requires b.channels[id].policy.channelId == id && Steady(b.channels[id])
    ensures SoundChannel(Evicted(b, id, reason), k)
  {
    var ch := b.channels[id];
    if ch.pending != [] {
      assert Belongs(ch, ch.pending[0]);
      EvictedMore(b.evictions, Record(ch.pending[0], reason), k);
      NothingMore(EvictedOf(b.evictions, k));
      SameAccount(b, Evicted(b, id, reason), k);
    }
  }

  lemma NothingMore(a: multiset<nat>)
    ensures a + multiset{} == a
  {
  }

  lemma SameAccount(b: Books, b': Books, k: string)
    requires k in b.channels && SoundChannel(b, k) && k in b'.channels && b'.channels[k] == b.channels[k]
    requires EvictedOf(b'.evictions, k) == EvictedOf(b.evictions, k) && CommittedOf(b'.committed, k) == CommittedOf(b.committed, k)
    ensures SoundChannel(b', k)
  {
  }

  lemma EvictedKeeps(b: Books, id: string, reason: string)
    requires Balanced(b) && id in b.channels
    ensures Balanced(Evicted(b, id, reason))
  {
    forall k | k in b.channels ensures SoundChannel(Evicted(b, id, reason), k) {
      if k == id { EvictedOwn(b, id, reason); } else { EvictedOther(b, id, reason, k); }
    }
  }

  lemma EvictedShrinks(b: Books, id: string, reason: string)
    requires Balanced(b) && id in b.channels && b.channels[id].pending != []
    ensures Backlog(Evicted(b, id, reason)) == Backlog(b) - 1
  {
    var ch := b.channels[id];
    SumUpdate(b.channels, PendingItems, b.order, b.channels.Keys, id, Drop(ch, 0));
    assert b.channels[id := Drop(ch, 0)].Keys == b.channels.Keys;
  }

  // ---- The budget of a channel ---------------------------------------------------------------

  /** Evicting until the caps of the channel hold. */
  function Trimmed(b: Books, id: string): (b': Books)
    requires id in b.channels
    ensures b'.channels.Keys == b.channels.Keys
    decreases |b.channels[id].pending|
  {
    if Within(b.channels[id]) then b else Trimmed(Evicted(b, id, TrimReason(b.channels[id])), id)
  }

  /** The item cap is looked at first. */
  function TrimReason(ch: Channel): string
  {
    if ch.policy.maxItems > 0 && |ch.pending| > ch.policy.maxItems then MAX_ITEMS else MAX_BYTES
  }

  /** What evictions may change: pending lists lose items at the front. */
  ghost predicate Shortened(b: Books, b': Books)
  {
    && b'.order == b.order && b'.totalMaxBytes == b.totalMaxBytes && b'.committed == b.committed
    && b'.channels.Keys == b.channels.Keys
    && forall id :: id in b.channels ==> LostFront(b.channels[id], b'.channels[id])
  }

  predicate LostFront(ch: Channel, ch': Channel)
  {
    |ch'.pending| <= |ch.pending| && ch' == ch.(pending := ch.pending[|ch.pending| - |ch'.pending|..])
  }

  lemma EvictedShortens(b: Books, id: string, reason: string)
    requires id in b.channels
    ensures Shortened(b, Evicted(b, id, reason))
  {
  }

  lemma ShortenedTwice(a: Books, b: Books, c: Books)
    requires Shortened(a, b) && Shortened(b, c)
    ensures Shortened(a, c)
  {
    forall id | id in a.channels ensures LostFront(a.channels[id], c.channels[id]) {
      assert LostFront(a.channels[id], b.channels[id]) && LostFront(b.channels[id], c.channels[id]);
    }
  }

  lemma {:induction false} FewerBytes(items: seq<Item>, k: nat)
    requires k <= |items|
    ensures Bytes(items[k..]) <= Bytes(items)
    decreases k
  {
    if k == 0 {
      assert items[k..] == items;
    } else {
      FewerBytes(items, k - 1);
      RemovedBytes(items[k - 1..], 0);
      assert Without(items[k - 1..], 0) == items[k..];
    }
  }

  lemma StillWithin(ch: Channel, ch': Channel)
    requires Within(ch) && LostFront(ch, ch')
    ensures Within(ch')
  {
    FewerBytes(ch.pending, |ch.pending| - |ch'.pending|);
  }

  lemma {:induction false} TrimmedSound(b: Books, id: string)
    requires Balanced(b) && id in b.channels
    ensures Balanced(Trimmed(b, id))
    decreases |b.channels[id].pending|
  {
    if !Within(b.channels[id]) {
      EvictedKeeps(b, id, TrimReason(b.channels[id]));
      TrimmedSound(Evicted(b, id, TrimReason(b.channels[id])), id);
    }
  }

  /** The channel ends within its caps, and the others are untouched. */
  lemma {:induction false} TrimmedMeaning(b: Books, id: string)
    requires id in b.channels
    ensures Within(Trimmed(b, id).channels[id])
    ensures forall k :: k in b.channels && k != id ==> Trimmed(b, id).channels[k] == b.channels[k]
    decreases |b.channels[id].pending|
  {
    if !Within(b.channels[id]) {
      TrimmedMeaning(Evicted(b, id, TrimReason(b.channels[id])), id);
    }
  }

  lemma {:induction false} TrimmedShortens(b: Books, id: string)
    requires id in b.channels
    ensures Shortened(b, Trimmed(b, id))
    decreases |b.channels[id].pending|
  {
    if !Within(b.channels[id]) {
      var b1 := Evicted(b, id, TrimReason(b.channels[id]));
      EvictedShortens(b, id, TrimReason(b.channels[id]));
      TrimmedShortens(b1, id);
      ShortenedTwice(b, b1, Trimmed(b1, id));
    } else {
      NothingLost(b);
    }
  }

  lemma NothingLost(b: Books)
    ensures Shortened(b, b)
  {
    assert forall ch: Channel :: ch.pending[0..] == ch.pending;
  }

  /** Nothing is evicted that could stay: with one item more at the front, a cap would be broken. */
  lemma {:induction false} TrimmedLeast(b: Books, id: string, k: nat)
    requires id in b.channels && k < |b.channels[id].pending| - |Trimmed(b, id).channels[id].pending|
    ensures !Within(b.channels[id].(pending := b.channels[id].pending[k..]))
    decreases |b.channels[id].pending|
  {
    var ch := b.channels[id];
    var b1 := TrimmedStep(b, id);
    if k == 0 {
      assert ch.pending[k..] == ch.pending;
    } else {
      TrimmedLeast(b1, id, k - 1);
      LaterFront(ch, k);
    }
  }

  lemma LaterFront(ch: Channel, k: nat)
    requires 1 <= k <= |ch.pending|
    ensures Drop(ch, 0).(pending := Drop(ch, 0).pending[k - 1..]) == ch.(pending := ch.pending[k..])
  {
    LaterTail(ch.pending, k);
  }

  lemma TrimmedOnce(b: Books, id: string)
    requires id in b.channels && !Within(b.channels[id])
    ensures Trimmed(Evicted(b, id, TrimReason(b.channels[id])), id) == Trimmed(b, id)
  {
  }

  lemma LaterTail<T>(s: seq<T>, k: nat)
    requires 1 <= k <= |s|
    ensures Without(s, 0)[k - 1..] == s[k..]
  {
  }

  // ---- The budget of the manager -------------------------------------------------------------

  /** Goes before: a smaller weight, or the same weight and an older head. */
  predicate Before(a: Channel, b: Channel)
    requires a.pending != [] && b.pending != []
  {
    || a.policy.weight < b.policy.weight
    || (a.policy.weight == b.policy.weight && a.pending[0].sequence < b.pending[0].sequence)
  }

  function Lowest(channels: map<string, Channel>, order: seq<string>): (r: Option<string>)
    requires forall id :: id in order ==> id in channels
    ensures r.Some? ==> r.value in order && channels[r.value].pending != []
    decreases |order|
  {
    if order == [] then None else
    var best, id := Lowest(channels, order[..|order| - 1]), order[|order| - 1];
    if channels[id].pending == [] then best
    else if best == None || Before(channels[id], channels[best.value]) then Some(id)
    else best
  }

  /** No channel is chosen only if all are empty; no non-empty channel goes before the chosen one. */
  lemma {:induction false} LowestMeaning(channels: map<string, Channel>, order: seq<string>, k: string)
    requires (forall id :: id in order ==> id in channels) && k in order && channels[k].pending != []
    ensures var r := Lowest(channels, order);
      && r.Some? && channels[r.value].policy.weight <= channels[k].policy.weight
      && (channels[r.value].policy.weight == channels[k].policy.weight ==>
           channels[r.value].pending[0].sequence <= channels[k].pending[0].sequence)
    decreases |order|
  {
    var rest := order[..|order| - 1];
    if k in rest { LowestMeaning(channels, rest, k); }
  }

  /** The loop goes on: over the total cap, with something to evict. */
  ghost predicate Shrinks(b: Books)
    requires Balanced(b)
  {
    b.totalMaxBytes > 0 && Used(b) > b.totalMaxBytes && Lowest(b.channels, b.order).Some?
  }

  /** One turn of the loop evicts the head of the lowest channel. */
  ghost function ShrunkOnce(b: Books): (b1: Books)
    requires Balanced(b) && Shrinks(b)
    ensures Balanced(b1) && Backlog(b1) < Backlog(b) && b1.channels.Keys == b.channels.Keys
  {
    var id := Lowest(b.channels, b.order).value;
    EvictedKeeps(b, id, TOTAL_BUDGET);
    EvictedShrinks(b, id, TOTAL_BUDGET);
    Evicted(b, id, TOTAL_BUDGET)
  }

  ghost function ShrunkRecord(b: Books): Eviction
    requires Balanced(b) && Shrinks(b)
  {
    Record(b.channels[Lowest(b.channels, b.order).value].pending[0], TOTAL_BUDGET)
  }

  lemma ShrunkOnceMeaning(b: Books)
    requires Balanced(b) && Shrinks(b)
    ensures Shortened(b, ShrunkOnce(b)) && ShrunkOnce(b).evictions == b.evictions + [ShrunkRecord(b)]
  {
    EvictedShortens(b, Lowest(b.channels, b.order).value, TOTAL_BUDGET);
  }

  /** Evicting from the lowest channel until the total cap holds. */
  ghost function Shrunk(b: Books): (b': Books)
    requires Balanced(b)
    ensures Balanced(b') && b'.channels.Keys == b.channels.Keys
    decreases Backlog(b)
  {
    if Shrinks(b) then Shrunk(ShrunkOnce(b)) else b
  }

  lemma {:induction false} ShrunkShortens(b: Books)
    requires Balanced(b)
    ensures Shortened(b, Shrunk(b))
    decreases Backlog(b)
  {
    if Shrinks(b) {
      ShrunkOnceMeaning(b);
      ShrunkShortens(ShrunkOnce(b));
      ShortenedTwice(b, ShrunkOnce(b), Shrunk(b));
    } else {
      NothingLost(b);
    }
  }

  lemma {:induction false} ShrunkWithin(b: Books)
    requires Balanced(b)
    ensures b.totalMaxBytes > 0 ==> Used(Shrunk(b)) <= b.totalMaxBytes
    decreases Backlog(b)
  {
    if Shrinks(b) {
      ShrunkWithin(ShrunkOnce(b));
    } else if Lowest(b.channels, b.order) == None {
      forall k | k in b.order ensures b.channels[k].pending == [] {
        if b.channels[k].pending != [] { LowestMeaning(b.channels, b.order, k); }
      }
      SumZero(b.channels, PendingBytes, b.order, b.channels.Keys);
    }
  }

  ghost predicate Extends<T>(a: seq<T>, b: seq<T>)
  {
    |a| <= |b| && b[..|a|] == a
  }

  lemma ExtendsMore<T>(a: seq<T>, x: T, b: seq<T>)
    requires Extends(a + [x], b)
    ensures Extends(a, b) && b[|a|] == x
  {
    assert b[|a|] == b[..|a + [x]|][|a|];
    assert b[..|a|] == b[..|a + [x]|][..|a|];
  }

  lemma {:induction false} ShrunkLog(b: Books)
    requires Balanced(b)
    ensures Extends(b.evictions, Shrunk(b).evictions)
    ensures Shrinks(b) ==> |b.evictions| < |Shrunk(b).evictions| && Shrunk(b).evictions[|b.evictions|] == ShrunkRecord(b)
    decreases Backlog(b)
  {
    if Shrinks(b) {
      ShrunkLog(ShrunkOnce(b));
      ShrunkOnceMeaning(b);
      ExtendsMore(b.evictions, ShrunkRecord(b), Shrunk(b).evictions);
    }
  }

  /** Every channel of smaller weight than that of the channel of `e` is empty. */
  ghost predicate LowerEmpty(b: Books, e: Eviction)
  {
    && e.reason == TOTAL_BUDGET && e.channelId in b.channels
    && forall k :: k in b.channels && b.channels[k].policy.weight < b.channels[e.channelId].policy.weight ==> b.channels[k].pending == []
  }

  lemma LowerStaysEmpty(b: Books, b': Books, e: Eviction)
    requires LowerEmpty(b, e) && Shortened(b, b')
    ensures LowerEmpty(b', e)
  {
    assert forall k :: k in b.channels ==> LostFront(b.channels[k], b'.channels[k]);
  }

  lemma LowestEvicted(b: Books)
    requires Balanced(b) && Shrinks(b)
    ensures LowerEmpty(b, ShrunkRecord(b))
  {
    var id := Lowest(b.channels, b.order).value;
    assert SoundChannel(b, id) && Belongs(b.channels[id], b.channels[id].pending[0]);
    forall k | k in b.channels && b.channels[k].policy.weight < b.channels[id].policy.weight
      ensures b.channels[k].pending == []
    {
      if b.channels[k].pending != [] { LowestMeaning(b.channels, b.order, k); }
    }
  }

  /** If the total budget evicts from a channel, every channel of smaller weight ends up empty. */
  lemma {:induction false} ShrunkOrder(b: Books, i: nat)
    requires Balanced(b) && |b.evictions| <= i < |Shrunk(b).evictions|
    ensures LowerEmpty(Shrunk(b), Shrunk(b).evictions[i])
    decreases Backlog(b)
  {
    ShrunkLog(b);
    if i == |b.evictions| {
      LowestEvicted(b);
      ShrunkShortens(b);
      LowerStaysEmpty(b, Shrunk(b), ShrunkRecord(b));
    } else {
      ShrunkOnceMeaning(b);
      ShrunkOrder(ShrunkOnce(b), i);
    }
  }

  // ---- Adding --------------------------------------------------------------------------------

  /** The profile of a policy; `gzipped` is what gzip makes of the payload. */
  function Compress(name: string, payload: string, gzipped: Option<string>): Option<string>
  {
    if name == "" || name == NOOP then Some(payload) else if name == GZIP then gzipped else None
  }

  function NewItem(ch: Channel, itemId: string, payload: string, tick: nat): Item
  {
    Item(itemId, ch.policy.channelId, ch.policy.channelType, ch.policy.weight, ch.nextSeq, payload, |payload|,
         ch.policy.compression, tick)
  }

  predicate Fits(ch: Channel, item: Item)
  {
    item.priority == ch.policy.weight && item.channelId == ch.policy.channelId && item.sequence == ch.nextSeq
  }

  function Appended(b: Books, id: string, item: Item): Books
    requires id in b.channels
  {
    var ch := b.channels[id];
    b.(channels := b.channels[id := ch.(nextSeq := ch.nextSeq + 1, pending := ch.pending + [item])])
  }

  lemma AppendedChannel(ch: Channel, gone: multiset<nat>, item: Item)
    requires Steady(ch) && Accounted(ch, gone)
    requires Fits(ch, item)
    ensures var ch' := ch.(nextSeq := ch.nextSeq + 1, pending := ch.pending + [item]); Steady(ch') && Accounted(ch', gone)
  {
    AppendedSteady(ch, item);
    SeqsSnoc(ch.pending, item);
    Exchanged(Seqs(ch.pending), gone, item.sequence);
  }

  lemma SeqsSnoc(items: seq<Item>, item: Item)
    ensures Seqs(items + [item]) == Seqs(items) + multiset{item.sequence}
  {
    assert (items + [item])[..|items|] == items;
  }

  lemma AppendedSteady(ch: Channel, item: Item)
    requires Steady(ch) && Fits(ch, item)
    ensures Steady(ch.(nextSeq := ch.nextSeq + 1, pending := ch.pending + [item]))
  {
    assert forall i :: 0 <= i < |ch.pending| ==> Belongs(ch, ch.pending[i]);
  }

  lemma AppendedKeeps(b: Books, id: string, item: Item)
    requires Balanced(b) && id in b.channels && Fits(b.channels[id], item)
    ensures Balanced(Appended(b, id, item))
  {
    forall k | k in b.channels ensures SoundChannel(Appended(b, id, item), k) {
      assert SoundChannel(b, k);
      if k == id { AppendedOwn(b, id, item); } else { SameAccount(b, Appended(b, id, item), k); }
    }
  }

  lemma AppendedOwn(b: Books, id: string, item: Item)
    requires id in b.channels && SoundChannel(b, id) && Fits(b.channels[id], item)
    ensures SoundChannel(Appended(b, id, item), id)
  {
    AppendedChannel(b.channels[id], Gone(b, id), item);
  }

  ghost function Added(b: Books, id: string, item: Item): Books
    requires id in b.channels && Balanced(Appended(b, id, item))
  {
    TrimmedSound(Appended(b, id, item), id);
    Shrunk(Trimmed(Appended(b, id, item), id))
  }

  /** After an Add all caps hold and the accounts balance. */
  lemma AddedKeeps(b: Books, id: string, item: Item)
    requires Balanced(b) && WithinBudget(b) && id in b.channels && Fits(b.channels[id], item)
    ensures Balanced(Appended(b, id, item)) && Balanced(Added(b, id, item)) && WithinBudget(Added(b, id, item))
  {
    AppendedKeeps(b, id, item);
    AppendedEachWithin(b, id, item);
    TrimmedSound(Appended(b, id, item), id);
    ShrunkAllWithin(Trimmed(Appended(b, id, item), id));
  }

  lemma AppendedEachWithin(b: Books, id: string, item: Item)
    requires EachWithin(b) && id in b.channels
    ensures EachWithin(Trimmed(Appended(b, id, item), id))
  {
    TrimmedEachWithin(b, Appended(b, id, item), id);
  }

  lemma TrimmedEachWithin(b: Books, b1: Books, id: string)
    requires EachWithin(b) && id in b.channels && b1.channels.Keys == b.channels.Keys
    requires forall k :: k in b.channels && k != id ==> b1.channels[k] == b.channels[k]
    ensures EachWithin(Trimmed(b1, id))
  {
    TrimmedMeaning(b1, id);
  }

  lemma ShrunkAllWithin(b: Books)
    requires Balanced(b) && EachWithin(b)
    ensures WithinBudget(Shrunk(b))
  {
    ShrunkShortens(b);
    ShrunkWithin(b);
    StillEachWithin(b, Shrunk(b));
  }

  lemma StillEachWithin(b: Books, b': Books)
    requires Shortened(b, b') && EachWithin(b)
    ensures EachWithin(b')
  {
    forall k | k in b.channels ensures Within(b'.channels[k]) {
      assert LostFront(b.channels[k], b'.channels[k]);
      StillWithin(b.channels[k], b'.channels[k]);
    }
  }

  /** If an Add evicts for the total budget, all channels of smaller weight are empty afterwards. */
  lemma AddedOrder(b: Books, id: string, item: Item, i: nat)
    requires id in b.channels && Balanced(Appended(b, id, item))
    requires i < |Added(b, id, item).evictions|
    requires i >= |Trimmed(Appended(b, id, item), id).evictions|
    ensures LowerEmpty(Added(b, id, item), Added(b, id, item).evictions[i])
  {
    TrimmedSound(Appended(b, id, item), id);
    ShrunkOrder(Trimmed(Appended(b, id, item), id), i);
  }

  // ---- Committing ----------------------------------------------------------------------------

  /** The first pending item of an id. */
  function Find(items: seq<Item>, itemId: string): (i: nat)
    ensures i <= |items| && (i < |items| ==> items[i].id == itemId)
    ensures forall j :: 0 <= j < i ==> items[j].id != itemId
  {
    if items == [] || items[0].id == itemId then 0 else Find(items[1..], itemId) + 1
  }

  function HandedOver(b: Books, id: string, i: nat): Books
    requires id in b.channels && i < |b.channels[id].pending|
  {
    var ch, item := b.channels[id], b.channels[id].pending[i];
    b.(channels := b.channels[id := Drop(ch, i).(delivered := ch.delivered[item.id := item])],
       committed := b.committed[id := CommittedOf(b.committed, id) + multiset{item.sequence}])
  }

  lemma HandedOverOwn(b: Books, id: string, i: nat)
    requires id in b.channels && i < |b.channels[id].pending| && SoundChannel(b, id)
    ensures SoundChannel(HandedOver(b, id, i), id)
  {
    DropKeeps(b.channels[id], i, Gone(b, id));
    Exchanged(EvictedOf(b.evictions, id), CommittedOf(b.committed, id), b.channels[id].pending[i].sequence);
  }

  lemma HandedOverKeeps(b: Books, id: string, i: nat)
    requires Balanced(b) && id in b.channels && i < |b.channels[id].pending|
    ensures Balanced(HandedOver(b, id, i))
  {
    forall k | k in b.channels ensures SoundChannel(HandedOver(b, id, i), k) {
      if k == id { HandedOverOwn(b, id, i); } else { SameAccount(b, HandedOver(b, id, i), k); }
    }
  }

  lemma HandedOverUsed(b: Books, id: string, i: nat)
    requires Balanced(b) && id in b.channels && i < |b.channels[id].pending|
    ensures Used(HandedOver(b, id, i)) <= Used(b)
  {
    var ch := HandedOver(b, id, i).channels[id];
    RemovedBytes(b.channels[id].pending, i);
    UsedUpdate(b, id, ch);
    assert HandedOver(b, id, i).channels == b.channels[id := ch];
  }

  /** A channel with fewer bytes pending uses less of the budget. */
  lemma UsedUpdate(b: Books, id: string, ch: Channel)
    requires DistinctIds(b.order) && id in b.order && id in b.channels && Bytes(ch.pending) <= Bytes(b.channels[id].pending)
    ensures SumOver(b.channels[id := ch], PendingBytes, b.order, b.channels[id := ch].Keys) <= Used(b)
  {
    SumUpdate(b.channels, PendingBytes, b.order, b.channels.Keys, id, ch);
    assert b.channels[id := ch].Keys == b.channels.Keys;
  }

  lemma HandedOverWithin(b: Books, id: string, i: nat)
    requires Balanced(b) && WithinBudget(b) && id in b.channels && i < |b.channels[id].pending|
    ensures WithinBudget(HandedOver(b, id, i))
  {
    HandedOverUsed(b, id, i);
    FewerWithin(b.channels[id], i);
    assert EachWithin(HandedOver(b, id, i));
  }

  lemma FewerWithin(ch: Channel, i: nat)
    requires Within(ch) && i < |ch.pending|
    ensures forall delivered :: Within(Drop(ch, i).(delivered := delivered))
  {
    RemovedBytes(ch.pending, i);
  }

  // ---- Runs ----------------------------------------------------------------------------------

  datatype Act =
    | Add(channelId: string, itemId: string, payload: string, gzipped: Option<string>, tick: nat)
    | Commit(channelId: string, itemId: string)

  /** The effect of one call; `fits` of a balanced state is always so. */
  ghost function Perform(b: Books, act: Act): (b': Books)
    requires Balanced(b) && WithinBudget(b)
    ensures Balanced(b') && WithinBudget(b')
  {
    if act.channelId !in b.channels then b else
    var ch := b.channels[act.channelId];
    match act
    case Add(id, itemId, payload, gzipped, tick) =>
      var data := Compress(ch.policy.compression, payload, gzipped);
      if data == None then b else
      AddedKeeps(b, id, NewItem(ch, itemId, data.value, tick));
      Added(b, id, NewItem(ch, itemId, data.value, tick))
    case Commit(id, itemId) =>
      if Find(ch.pending, itemId) == |ch.pending| then b else
      HandedOverKeeps(b, id, Find(ch.pending, itemId));
      HandedOverWithin(b, id, Find(ch.pending, itemId));
      HandedOver(b, id, Find(ch.pending, itemId))
  }

  ghost function Run(b: Books, acts: seq<Act>): (b': Books)
    requires Balanced(b) && WithinBudget(b)
    ensures Balanced(b') && WithinBudget(b')
    decreases |acts|
  {
    if acts == [] then b else Perform(Run(b, acts[..|acts| - 1]), acts[|acts| - 1])
  }

  // ---- What the caps count -------------------------------------------------------------------

  /** The size of an item is that of its payload. */
  predicate Measured(items: seq<Item>)
  {
    forall i :: 0 <= i < |items| ==> items[i].size == |items[i].payload|
  }

  ghost predicate AllMeasured(b: Books)
  {
    forall id :: id in b.channels ==> Measured(b.channels[id].pending)
  }

  function PayloadBytes(items: seq<Item>): nat
    decreases |items|
  {
    if items == [] then 0 else PayloadBytes(items[..|items| - 1]) + |items[|items| - 1].payload|
  }

  lemma {:induction false} MeasuredBytes(items: seq<Item>)
    requires Measured(items)
    ensures Bytes(items) == PayloadBytes(items)
    decreases |items|
  {
    if items != [] { MeasuredBytes(items[..|items| - 1]); }
  }

  lemma ShortenedMeasured(b: Books, b': Books)
    requires AllMeasured(b) && Shortened(b, b')
    ensures AllMeasured(b')
  {
    forall id | id in b'.channels ensures Measured(b'.channels[id].pending) {
      assert LostFront(b.channels[id], b'.channels[id]) && Measured(b.channels[id].pending);
    }
  }

  lemma AddedMeasured(b: Books, id: string, item: Item)
    requires AllMeasured(b) && id in b.channels && Balanced(Appended(b, id, item)) && item.size == |item.payload|
    ensures AllMeasured(Added(b, id, item))
  {
    var b1 := Appended(b, id, item);
    forall k | k in b1.channels ensures Measured(b1.channels[k].pending) { assert Measured(b.channels[k].pending); }
    TrimmedSound(b1, id);
    TrimmedShortens(b1, id);
    ShrunkShortens(Trimmed(b1, id));
    ShortenedMeasured(b1, Trimmed(b1, id));
    ShortenedMeasured(Trimmed(b1, id), Shrunk(Trimmed(b1, id)));
  }

  lemma HandedOverMeasured(b: Books, id: string, i: nat)
    requires AllMeasured(b) && id in b.channels && i < |b.channels[id].pending|
    ensures AllMeasured(HandedOver(b, id, i))
  {
    var rest := Without(b.channels[id].pending, i);
    assert Measured(b.channels[id].pending);
    assert forall j :: 0 <= j < |rest| ==> rest[j] == b.channels[id].pending[if j < i then j else j + 1];
  }

  lemma AddMeasured(b: Books, id: string, itemId: string, payload: string, gzipped: Option<string>, tick: nat)
    requires Balanced(b) && WithinBudget(b) && AllMeasured(b) && id in b.channels
    ensures AllMeasured(Perform(b, Add(id, itemId, payload, gzipped, tick)))
  {
    var data := Compress(b.channels[id].policy.compression, payload, gzipped);
    if data.Some? {
      var item := NewItem(b.channels[id], itemId, data.value, tick);
      AddedKeeps(b, id, item);
      AddedMeasured(b, id, item);
    }
  }

  lemma CommitMeasured(b: Books, id: string, itemId: string)
    requires Balanced(b) && WithinBudget(b) && AllMeasured(b) && id in b.channels
    ensures AllMeasured(Perform(b, Commit(id, itemId)))
  {
    var i := Find(b.channels[id].pending, itemId);
    CommitIs(b, id, itemId);
    if i < |b.channels[id].pending| { HandedOverMeasured(b, id, i); }
  }

  lemma CommitIs(b: Books, id: string, itemId: string)
    requires Balanced(b) && WithinBudget(b) && id in b.channels
    ensures var i := Find(b.channels[id].pending, itemId);
      Perform(b, Commit(id, itemId)) == if i < |b.channels[id].pending| then HandedOver(b, id, i) else b
  {
  }

  lemma PerformMeasured(b: Books, act: Act)
    requires Balanced(b) && WithinBudget(b) && AllMeasured(b)
    ensures AllMeasured(Perform(b, act))
  {
    if act.channelId in b.channels {
      match act
      case Add(id, itemId, payload, gzipped, tick) => AddMeasured(b, id, itemId, payload, gzipped, tick);
      case Commit(id, itemId) => CommitMeasured(b, id, itemId);
    }
  }

  lemma {:induction false} RunMeasured(b: Books, acts: seq<Act>)
    requires Balanced(b) && WithinBudget(b) && AllMeasured(b)
    ensures AllMeasured(Run(b, acts))
    decreases |acts|
  {
    if acts != [] {
      RunMeasured(b, acts[..|acts| - 1]);
      PerformMeasured(Run(b, acts[..|acts| - 1]), acts[|acts| - 1]);
    }
  }

  function PendingPayload(ch: Channel): nat { PayloadBytes(ch.pending) }

  lemma {:induction false} SameSum(m: map<string, Channel>, order: seq<string>, keys: set<string>)
    requires forall id :: id in m ==> PendingBytes(m[id]) == PendingPayload(m[id])
    ensures SumOver(m, PendingBytes, order, keys) == SumOver(m, PendingPayload, order, keys)
    decreases |order|
  {
    if order != [] { SameSum(m, order[..|order| - 1], keys); }
  }

  /** The caps are on payloads: after any sequence of calls no channel holds more items or payload bytes than
      its positive caps, nor all of them together more than the total one. */
  lemma PayloadsWithin(b: Books, acts: seq<Act>, id: string)
    requires Balanced(b) && WithinBudget(b) && AllMeasured(b) && id in Run(b, acts).channels
    ensures var b' := Run(b, acts);
      var ch := b'.channels[id];
      && (ch.policy.maxItems > 0 ==> |ch.pending| <= ch.policy.maxItems)
      && (ch.policy.maxBytes > 0 ==> PayloadBytes(ch.pending) <= ch.policy.maxBytes)
      && (b'.totalMaxBytes > 0 ==> SumOver(b'.channels, PendingPayload, b'.order, b'.channels.Keys) <= b'.totalMaxBytes)
  {
    var b' := Run(b, acts);
    RunMeasured(b, acts);
    forall k | k in b'.channels ensures PendingBytes(b'.channels[k]) == PendingPayload(b'.channels[k]) { MeasuredBytes(b'.channels[k].pending); }
    SameSum(b'.channels, b'.order, b'.channels.Keys);
    assert Within(b'.channels[id]);
  }

  // ---- What an eviction records --------------------------------------------------------------

  /** The record of the k-th item from the front, if the items before it are gone. */
  function FrontRecord(ch: Channel, k: nat): Eviction
    requires k < |ch.pending|
  {
    var item := ch.pending[k];
    Eviction(item.channelId, item.id, item.sequence,
             if ch.policy.maxItems > 0 && |ch.pending| - k > ch.policy.maxItems then "channel max items" else "channel max bytes")
  }

  lemma FirstRecord(ch: Channel)
    requires ch.pending != []
    ensures Record(ch.pending[0], TrimReason(ch)) == FrontRecord(ch, 0)
    ensures forall k :: 1 <= k < |ch.pending| ==> FrontRecord(Drop(ch, 0), k - 1) == FrontRecord(ch, k)
  {
  }

  /** Trimming takes items from the front and records each with the cap that it broke when it went. */
  lemma {:induction false} TrimmedRecords(b: Books, id: string, k: nat)
    requires id in b.channels && k < |b.channels[id].pending| - |Trimmed(b, id).channels[id].pending|
    ensures |b.evictions| + k < |Trimmed(b, id).evictions|
    ensures Trimmed(b, id).evictions[|b.evictions| + k] == FrontRecord(b.channels[id], k)
    decreases |b.channels[id].pending|
  {
    var b1 := TrimmedStep(b, id);
    if k > 0 { TrimmedRecords(b1, id, k - 1); }
    NextRecords(b.channels[id], b.evictions, b1.evictions, Trimmed(b, id).evictions, k);
  }

  /** If trimming takes anything, it takes the first item first. */
  lemma TrimmedStep(b: Books, id: string) returns (b1: Books)
    requires id in b.channels && |Trimmed(b, id).channels[id].pending| < |b.channels[id].pending|
    ensures id in b1.channels && b1.channels[id] == Drop(b.channels[id], 0) && !Within(b.channels[id])
    ensures b1.evictions == b.evictions + [Record(b.channels[id].pending[0], TrimReason(b.channels[id]))]
    ensures Trimmed(b1, id) == Trimmed(b, id) && b1.evictions <= Trimmed(b, id).evictions
  {
    b1 := Evicted(b, id, TrimReason(b.channels[id]));
    TrimmedOnce(b, id);
    TrimmedLog(b1, id);
  }

  lemma NextRecords(ch: Channel, before: seq<Eviction>, once: seq<Eviction>, all: seq<Eviction>, k: nat)
    requires k < |ch.pending| && once == before + [Record(ch.pending[0], TrimReason(ch))] && once <= all
    requires k > 0 ==> |once| + k - 1 < |all| && all[|once| + k - 1] == FrontRecord(Drop(ch, 0), k - 1)
    ensures |before| + k < |all| && all[|before| + k] == FrontRecord(ch, k)
  {
    FirstRecord(ch);
  }

  lemma {:induction false} TrimmedLog(b: Books, id: string)
    requires id in b.channels
    ensures b.evictions <= Trimmed(b, id).evictions
    ensures |Trimmed(b, id).evictions| + |Trimmed(b, id).channels[id].pending| == |b.evictions| + |b.channels[id].pending|
    decreases |b.channels[id].pending|
  {
    if !Within(b.channels[id]) {
      TrimmedLog(Evicted(b, id, TrimReason(b.channels[id])), id);
      TrimmedOnce(b, id);
    }
  }

  // ---- What a commit hands over --------------------------------------------------------------

  /** The i-th pending item is the first one of the id. */
  predicate FirstOfId(items: seq<Item>, itemId: string, i: nat)
  {
    i < |items| && items[i].id == itemId && forall j :: 0 <= j < i ==> items[j].id != itemId
  }

  /** A commit moves the first pending item of the id to the delivered ones, and changes nothing else; if there
      is none it changes nothing. */
  lemma CommitMeaning(b: Books, id: string, itemId: string, i: nat)
    requires Balanced(b) && WithinBudget(b) && id in b.channels && FirstOfId(b.channels[id].pending, itemId, i)
    ensures Moved(b, Perform(b, Commit(id, itemId)), id, itemId, i)
  {
    assert Find(b.channels[id].pending, itemId) == i;
    CommitIs(b, id, itemId);
    HandedOverMoves(b, id, itemId, i);
  }

  predicate Moved(b: Books, b': Books, id: string, itemId: string, i: nat)
    requires id in b.channels && i < |b.channels[id].pending|
  {
    var ch := b.channels[id];
    && b'.channels == b.channels[id := ch.(pending := ch.pending[..i] + ch.pending[i + 1..], delivered := ch.delivered[itemId := ch.pending[i]])]
    && b'.order == b.order && b'.evictions == b.evictions && b'.totalMaxBytes == b.totalMaxBytes
    && b'.committed == b.committed[id := CommittedOf(b.committed, id) + multiset{ch.pending[i].sequence}]
  }

  lemma HandedOverMoves(b: Books, id: string, itemId: string, i: nat)
    requires id in b.channels && FirstOfId(b.channels[id].pending, itemId, i)
    ensures Moved(b, HandedOver(b, id, i), id, itemId, i)
  {
  }

  lemma CommitNothing(b: Books, id: string, itemId: string)
    requires Balanced(b) && WithinBudget(b)
    requires id !in b.channels || forall i :: 0 <= i < |b.channels[id].pending| ==> b.channels[id].pending[i].id != itemId
    ensures Perform(b, Commit(id, itemId)) == b
  {
  }
}
