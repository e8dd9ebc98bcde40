/** The weighted round-robin scheduler object (bundle/channel/channel.go): a cursor, a deficit per
    channel and queues that it empties item by item. */
module Scheduler {
  import opened Messages
  import Sorting
  import Ordering
  import opened Counting
  import opened Scheduling

  datatype Policy = Policy(
    channelId: string,
    channelType: string,
    weight: int,
    maxItems: int,
    maxBytes: int,
    compression: string,
    eviction: string)

  /** Go maps read an empty slice or 0 where they have no entry. */
  function QueueOf(queues: map<string, seq<Item>>, id: string): seq<Item>
  {
    if id in queues then queues[id] else []
  }

  function DeficitOf(deficits: map<string, int>, id: string): int
  {
    if id in deficits then deficits[id] else 0
  }

  function QuotaOf(weights: map<string, int>, id: string): nat
  {
    if id in weights && weights[id] > 0 then weights[id] else 1
  }

  function QueuesOf(queues: map<string, seq<Item>>, order: seq<string>): (qs: Queues)
    ensures |qs| == |order| && forall i :: 0 <= i < |order| ==> qs[i] == QueueOf(queues, order[i])
    decreases |order|
  {
    if order == [] then [] else QueuesOf(queues, order[..|order| - 1]) + [QueueOf(queues, order[|order| - 1])]
  }

  function QuotasOf(weights: map<string, int>, order: seq<string>): (ws: seq<nat>)
    ensures |ws| == |order| && forall i :: 0 <= i < |order| ==> ws[i] == QuotaOf(weights, order[i])
    ensures Positive(ws)
    decreases |order|
  {
    if order == [] then [] else QuotasOf(weights, order[..|order| - 1]) + [QuotaOf(weights, order[|order| - 1])]
  }

  /** The quotas of channels that a list of ids holds: a channel has as many turns in a round as its id
      occurs. */
  function Shares(weights: map<string, int>, order: seq<string>, ids: seq<string>): (ws: seq<nat>)
    requires forall id :: id in ids ==> id in order
    ensures |ws| == |ids| && forall i :: 0 <= i < |ids| ==> ws[i] == Share(weights, order, ids[i])
    ensures Positive(ws)
    decreases |ids|
  {
    if ids == [] then [] else
    var id := ids[|ids| - 1];
    SharePositive(weights, order, id);
    Shares(weights, order, ids[..|ids| - 1]) + [Share(weights, order, id)]
  }

  function Share(weights: map<string, int>, order: seq<string>, id: string): nat
  {
    Turns(multiset(order)[id], QuotaOf(weights, id))
  }

  /** What `n` turns of `w` items come to. */
  function Turns(n: nat, w: nat): nat
  {
    if n == 0 then 0 else w + Turns(n - 1, w)
  }

  lemma {:induction false} TurnsIsProduct(n: nat, w: nat)
    ensures Turns(n, w) == n * w
  {
    if n > 0 { TurnsIsProduct(n - 1, w); }
  }

  lemma {:induction false} TurnsMonotone(m: nat, n: nat, w: nat)
    requires m <= n
    ensures Turns(m, w) <= Turns(n, w)
    decreases n
  {
    if m < n { TurnsMonotone(m, n - 1, w); }
  }

  lemma TurnsPositive(n: nat, w: nat)
    requires n >= 1 && w >= 1
    ensures Turns(n, w) >= 1
  {
  }

  lemma SharePositive(weights: map<string, int>, order: seq<string>, id: string)
    requires id in order
    ensures Share(weights, order, id) >= 1
  {
    assert id in multiset(order);
  }

  /** Changing the queue of one channel changes one queue. */
  lemma UpdateQueue(queues: map<string, seq<Item>>, order: seq<string>, c: nat, q: seq<Item>)
    requires c < |order| && DistinctIds(order)
    ensures QueuesOf(queues[order[c] := q], order) == QueuesOf(queues, order)[c := q]
  {
    var a, b := QueuesOf(queues[order[c] := q], order), QueuesOf(queues, order)[c := q];
    forall i | 0 <= i < |order| ensures a[i] == b[i] {
      if i != c { assert order[i] != order[c]; }
    }
  }

  // ---- Counting ------------------------------------------------------------------------------

  function Length(q: seq<Item>): nat { |q| }

  lemma {:induction false} SumIsTotal(queues: map<string, seq<Item>>, order: seq<string>)
    ensures SumOver(queues, Length, order, queues.Keys) == Total(QueuesOf(queues, order))
    decreases |order|
  {
    if order != [] {
      SumIsTotal(queues, order[..|order| - 1]);
      assert QueuesOf(queues, order)[..|order| - 1] == QueuesOf(queues, order[..|order| - 1]);
    }
  }

  // ---- The state -----------------------------------------------------------------------------

  datatype View = View(
    queues: map<string, seq<Item>>,
    weights: map<string, int>,
    deficits: map<string, int>,
    order: seq<string>,
    cursor: nat)
  {
    /** Only the channel under the cursor has a deficit, at most its quota. */
    predicate OneDeficit()
    {
      forall id :: id in deficits && deficits[id] != 0 ==>
        cursor < |order| && id == order[cursor] && 0 < deficits[id] <= QuotaOf(weights, id)
    }

    /** Ids are sorted and every queue belongs to one and holds its items. */
    predicate WellFormed()
    {
      && Ordering.Sorted(order) && (forall id :: id in queues ==> id in order && Tagged(queues[id], id))
      && (if order == [] then cursor == 0 else cursor < |order|)
      && OneDeficit()
    }

    /** The different channels; an id that is listed more than once has as many turns in a round. */
    function Channels(): seq<string> { Ordering.Dedup(order) }
    function Queues(): Queues { QueuesOf(queues, Channels()) }
    function Quotas(): (ws: seq<nat>) ensures |ws| == |Channels()| && Positive(ws) { Shares(weights, order, Channels()) }

    /** The channel under the cursor. */
    function Current(): (k: nat)
      requires cursor < |order|
    {
      Ordering.Block(order, cursor)
    }

    /** How many copies of the channel under the cursor come later in the round. */
    function Later(): (n: nat)
      requires cursor < |order|
    {
      Ordering.After(order, cursor)
    }

    /** What is left of the turns of the channel under the cursor in this round. */
    function Left(): nat
      requires WellFormed() && order != []
    {
      TurnAtLeast(this);
      TurnLeft() + Turns(Later(), QuotaOf(weights, order[cursor]))
    }

    /** Everything that is still to be served, in order. */
    function Pending(): seq<Item>
      requires WellFormed()
    {
      if order == [] then [] else
      Ordering.BlockAt(order, cursor);
      Upcoming(Quotas(), Queues(), Current(), Left())
    }

    /** The queue at every position. */
    function Rows(): Queues { QueuesOf(queues, order) }

    function Advanced(): View
      requires cursor < |order|
    {
      this.(cursor := Following(|order|, cursor))
    }

    /** Passing over the channel under the cursor. */
    function Passed(): View
      requires cursor < |order|
    {
      this.(deficits := deficits[order[cursor] := 0]).Advanced()
    }

    /** What is left of the turn of the channel under the cursor. */
    function TurnLeft(): int
      requires cursor < |order|
    {
      var d := DeficitOf(deficits, order[cursor]);
      if d < 1 then d + QuotaOf(weights, order[cursor]) else d
    }

    /** Serving the head of the channel under the cursor. */
    function Took(): View
      requires cursor < |order| && order[cursor] in queues && queues[order[cursor]] != []
    {
      var id := order[cursor];
      var v := this.(queues := queues[id := queues[id][1..]], deficits := deficits[id := TurnLeft() - 1]);
      if TurnLeft() == 1 then v.Advanced() else v
    }
  }

  lemma TurnAtLeast(v: View)
    requires v.WellFormed() && v.order != []
    ensures 1 <= v.TurnLeft() <= QuotaOf(v.weights, v.order[v.cursor])
  {
    var id := v.order[v.cursor];
    assert id in v.deficits && v.deficits[id] != 0 ==> 0 < v.deficits[id] <= QuotaOf(v.weights, id);
  }

  /** A well-formed state serves what its queues hold, nothing else, each channel in order. */
  lemma ViewSound(v: View)
    requires v.WellFormed()
    ensures Sound(v.Channels(), v.Queues())
  {
    Ordering.DedupSorted(v.order);
    Ordering.StrictlySortedDistinct(v.Channels());
  }

  /** The next position holds the same channel. */
  predicate Again(v: View)
    requires v.cursor < |v.order|
  {
    Ordering.Again(v.order, v.cursor)
  }

  /** At the first copy of a channel the whole share is left. */
  lemma WholeTurn(v: View)
    requires v.WellFormed() && v.order != [] && DeficitOf(v.deficits, v.order[v.cursor]) == 0 && Ordering.Before(v.order, v.cursor) == 0
    ensures v.Left() == v.Quotas()[Place(v)]
  {
    CopyStarts(v);
    Ordering.BeforeBound(v.order, v.cursor);
  }

  function Place(v: View): (k: nat)
    requires v.cursor < |v.order|
    ensures k < |v.Channels()| && v.Channels()[k] == v.order[v.cursor]
  {
    Ordering.BlockAt(v.order, v.cursor);
    v.Current()
  }

  /** Beginning a whole turn. */
  lemma SameStart(ws: seq<nat>, qs: Queues, c: nat)
    requires |ws| == |qs| && Positive(ws) && c < |qs|
    ensures Upcoming(ws, qs, c, ws[c]) == Upcoming(ws, qs, c, 0)
  {
  }

  /** What is left of the turn of an empty channel does not matter. */
  lemma EmptyTurn(ws: seq<nat>, qs: Queues, c: nat, d: nat, e: nat)
    requires |ws| == |qs| && Positive(ws) && c < |qs| && qs[c] == []
    ensures Upcoming(ws, qs, c, d) == Upcoming(ws, qs, c, e) == Upcoming(ws, qs, Following(|ws|, c), 0)
  {
  }

  lemma PassedWellFormed(v: View)
    requires v.WellFormed() && v.order != []
    ensures v.Passed().WellFormed() && DeficitOf(v.Passed().deficits, v.Passed().order[v.Passed().cursor]) == 0
  {
    var w := v.Passed();
    assert w.order[w.cursor] in w.deficits ==> w.deficits[w.order[w.cursor]] == 0;
  }

  lemma PassedPending(v: View)
    requires v.WellFormed() && v.order != [] && QueueOf(v.queues, v.order[v.cursor]) == []
    ensures v.Passed().WellFormed() && v.Passed().Pending() == v.Pending()
  {
    PassedWellFormed(v);
    PassedPlace(v);
    var ws, qs, k := v.Quotas(), v.Queues(), Place(v);
    EmptyTurn(ws, qs, k, v.Left(), v.Passed().Left());
    if !Again(v) { SameStart(ws, qs, Following(|ws|, k)); }
  }

  lemma PassedPlace(v: View)
    requires v.WellFormed() && v.order != []
    ensures v.Passed().WellFormed()
    ensures Again(v) ==> Place(v.Passed()) == Place(v)
    ensures !Again(v) ==>
      Place(v.Passed()) == Following(|v.Channels()|, Place(v)) && v.Passed().Left() == v.Quotas()[Place(v.Passed())]
  {
    PassedWellFormed(v);
    if Again(v) {
      SamePlace(v, v.Passed());
    } else {
      NextChannel(v, v.Passed());
    }
  }

  lemma TookDeficit(v: View)
    requires v.WellFormed() && v.order != [] && QueueOf(v.queues, v.order[v.cursor]) != []
    ensures v.TurnLeft() >= 1 && v.Took().OneDeficit()
    ensures v.TurnLeft() == 1 ==> DeficitOf(v.Took().deficits, v.Took().order[v.Took().cursor]) == 0
  {
    var w, id := v.Took(), v.order[v.cursor];
    assert forall x :: x in w.deficits && x != id ==> w.deficits[x] == 0;
  }

  lemma TookWellFormed(v: View)
    requires v.WellFormed() && v.order != [] && QueueOf(v.queues, v.order[v.cursor]) != []
    ensures v.Took().WellFormed()
  {
    TookDeficit(v);
  }

  /** Serving an item leaves one less of the turns of its channel, or begins those of the next one. */
  lemma TookLeft(v: View)
    requires v.WellFormed() && v.order != [] && QueueOf(v.queues, v.order[v.cursor]) != []
    ensures v.Took().WellFormed() && v.Left() >= 1
    ensures v.Left() > 1 ==> Place(v.Took()) == Place(v) && v.Took().Left() == v.Left() - 1
    ensures v.Left() == 1 ==>
      Place(v.Took()) == Following(|v.Channels()|, Place(v)) && v.Took().Left() == v.Quotas()[Place(v.Took())]
  {
    TookDeficit(v);
    TookWellFormed(v);
    TurnAtLeast(v);
    if v.TurnLeft() > 1 {
      TookWithin(v);
    } else if Again(v) {
      TookAgain(v);
    } else {
      TookLast(v);
    }
  }

  lemma TookWithin(v: View)
    requires v.WellFormed() && v.order != [] && QueueOf(v.queues, v.order[v.cursor]) != [] && v.TurnLeft() > 1 && v.Took().WellFormed()
    ensures v.Left() > 1 && Place(v.Took()) == Place(v) && v.Took().Left() == v.Left() - 1
  {
    assert v.Took().Later() == v.Later();
  }

  /** From one turn of a channel to its next in the same round. */
  lemma NextCopy(v: View, w: View)
    requires v.WellFormed() && v.order != [] && Again(v) && v.TurnLeft() == 1
    requires w.WellFormed() && w.order == v.order && w.weights == v.weights && w.cursor == v.cursor + 1
    requires DeficitOf(w.deficits, w.order[w.cursor]) == 0
    ensures v.Left() > 1 && Place(w) == Place(v) && w.Left() == v.Left() - 1
  {
    SamePlace(v, w);
    CopyStarts(w);
    CopyEnds(v);
    TurnsPositive(v.Later(), QuotaOf(v.weights, v.order[v.cursor]));
  }

  lemma SamePlace(v: View, w: View)
    requires v.cursor < |v.order| && Again(v) && w.order == v.order && w.cursor == v.cursor + 1
    ensures Place(w) == Place(v) && v.Later() == w.Later() + 1
  {
    Ordering.SameRun(v.order, v.cursor);
  }

  lemma CopyStarts(v: View)
    requires v.WellFormed() && v.order != [] && DeficitOf(v.deficits, v.order[v.cursor]) == 0
    ensures v.Left() == Turns(v.Later() + 1, QuotaOf(v.weights, v.order[v.cursor]))
  {
  }

  lemma CopyEnds(v: View)
    requires v.WellFormed() && v.order != [] && v.TurnLeft() == 1
    ensures v.Left() == 1 + Turns(v.Later(), QuotaOf(v.weights, v.order[v.cursor]))
  {
  }

  /** From the last turn of a channel in a round to the first of the next channel. */
  lemma NextChannel(v: View, w: View)
    requires v.WellFormed() && v.order != [] && !Again(v)
    requires w.WellFormed() && w.order == v.order && w.weights == v.weights && w.cursor == Following(|v.order|, v.cursor)
    requires DeficitOf(w.deficits, w.order[w.cursor]) == 0
    ensures v.Later() == 0 && Place(w) == Following(|v.Channels()|, Place(v)) && w.Left() == v.Quotas()[Place(w)]
  {
    Ordering.NextRun(v.order, v.cursor, w.cursor);
    WholeTurn(w);
  }

  lemma TookAgain(v: View)
    requires v.WellFormed() && v.order != [] && QueueOf(v.queues, v.order[v.cursor]) != [] && v.TurnLeft() == 1 && v.Took().WellFormed() && Again(v)
    ensures v.Left() > 1 && Place(v.Took()) == Place(v) && v.Took().Left() == v.Left() - 1
  {
    TookDeficit(v);
    NextCopy(v, v.Took());
  }

  lemma TookLast(v: View)
    requires v.WellFormed() && v.order != [] && QueueOf(v.queues, v.order[v.cursor]) != [] && v.TurnLeft() == 1 && v.Took().WellFormed() && !Again(v)
    ensures v.Left() == 1 && Place(v.Took()) == Following(|v.Channels()|, Place(v)) && v.Took().Left() == v.Quotas()[Place(v.Took())]
  {
    TookDeficit(v);
    NextChannel(v, v.Took());
  }

  lemma TookQueues(v: View)
    requires v.WellFormed() && v.order != [] && QueueOf(v.queues, v.order[v.cursor]) != []
    ensures v.Took().Queues() == v.Queues()[Place(v) := v.Queues()[Place(v)][1..]]
    ensures Total(v.Took().Queues()) == Total(v.Queues()) - 1
  {
    var q := v.queues[v.order[v.cursor]];
    ViewSound(v);
    UpdateQueue(v.queues, v.Channels(), Place(v), q[1..]);
    TotalUpdate(v.Queues(), Place(v), q[1..]);
  }

  lemma TookPending(v: View)
    requires v.WellFormed() && v.order != [] && QueueOf(v.queues, v.order[v.cursor]) != []
    ensures v.Took().WellFormed()
    ensures v.Pending() == [v.queues[v.order[v.cursor]][0]] + v.Took().Pending()
    ensures Total(v.Took().Queues()) == Total(v.Queues()) - 1
  {
    TookLeft(v);
    TookQueues(v);
    TookRest(v.Quotas(), v.Queues(), Place(v), v.Left(), Place(v.Took()), v.Took().Left());
  }

  lemma TookRest(ws: seq<nat>, qs: Queues, c: nat, d: nat, c': nat, d': nat)
    requires |ws| == |qs| && Positive(ws) && c < |qs| && c' < |qs| && qs[c] != [] && d >= 1
    requires d > 1 ==> c' == c && d' == d - 1
    requires d == 1 ==> c' == Following(|qs|, c) && d' == ws[c']
    ensures Upcoming(ws, qs, c, d) == [qs[c][0]] + Upcoming(ws, qs[c := qs[c][1..]], c', d')
  {
    UpcomingServes(ws, qs, c, d);
    if d == 1 { SameStart(ws, qs[c := qs[c][1..]], c'); }
  }

  /** What one call of Next does: it succeeds exactly when something is queued, and then takes the
      first item of what was still to be served. */
  ghost predicate NextSpec(v: View, item: Option<Item>, w: View)
    requires v.WellFormed()
  {
    && w.WellFormed() && w.order == v.order && w.weights == v.weights
    && (item.Some? <==> Total(v.Queues()) > 0)
    && (item.None? ==> w == v)
    && (item.Some? ==> v.Pending() == [item.value] + w.Pending() && Total(w.Queues()) == Total(v.Queues()) - 1)
  }

  /** `v` is reached from `start` by passing over `n` empty channels. */
  ghost predicate Skipped(start: View, v: View, n: nat)
  {
    && start.WellFormed() && v.WellFormed() && v.order != []
    && v.queues == start.queues && v.order == start.order && v.weights == start.weights
    && v.Pending() == start.Pending() && Total(v.Queues()) > 0
    && Total(v.Rows()) > 0 && n + Gap(v.Rows(), v.cursor) < 2 * |v.order|
  }

  /** Something is queued at some position if it is in some channel. */
  lemma RowsTotal(v: View)
    requires Total(v.Queues()) > 0
    ensures Total(v.Rows()) > 0 && v.order != []
  {
    TotalZero(v.Queues());
    TotalZero(v.Rows());
    var k :| 0 <= k < |v.Channels()| && v.Queues()[k] != [];
    assert v.Channels()[k] in v.order;
    var c :| 0 <= c < |v.order| && v.order[c] == v.Channels()[k];
    assert v.Rows()[c] != [];
  }

  lemma SkippedNone(v: View)
    requires v.WellFormed() && v.order != [] && Total(v.Queues()) > 0
    ensures Skipped(v, v, 0)
  {
    RowsTotal(v);
    GapShrinks(v.Rows(), v.cursor);
  }

  /** Passing over an empty channel brings the next non-empty one closer. */
  lemma SkippedPassed(start: View, v: View, n: nat)
    requires Skipped(start, v, n) && QueueOf(v.queues, v.order[v.cursor]) == []
    ensures Skipped(start, v.Passed(), n + 1)
  {
    GapShrinks(v.Rows(), v.cursor);
    PassedPending(v);
  }

  lemma SkippedTook(start: View, v: View, n: nat)
    requires Skipped(start, v, n) && QueueOf(v.queues, v.order[v.cursor]) != []
    ensures NextSpec(start, Some(v.queues[v.order[v.cursor]][0]), v.Took())
  {
    TookPending(v);
  }

  // ---- The scheduler -------------------------------------------------------------------------

  predicate BySequence(q: seq<Item>)
  {
    forall i, j :: 0 <= i < j < |q| ==> q[i].sequence <= q[j].sequence
  }

  /** `q` lists the same items by sequence number. */
  predicate Arranged(items: seq<Item>, q: seq<Item>)
  {
    BySequence(q) && multiset(q) == multiset(items)
  }

  predicate Earlier(a: Item, b: Item) { a.sequence < b.sequence }

  method SortBySequence(xs: seq<Item>) returns (ys: seq<Item>)
    ensures Arranged(xs, ys)
  {
    assert forall a, b :: Sorting.Asymmetric(Earlier, a, b);
    assert forall a, b, c :: Sorting.Cuts(Earlier, a, b, c);
    ys := Sorting.SortBy(xs, Earlier);
    assert forall i, j :: 0 <= i < j < |ys| ==> !Earlier(ys[j], ys[i]);
  }

  /** The channel ids and the weights of a list of policies; a later weight replaces an earlier one. */
  function Ids(policies: seq<Policy>): (ids: seq<string>)
    ensures |ids| == |policies|
    decreases |policies|
  {
    if policies == [] then [] else Ids(policies[..|policies| - 1]) + [policies[|policies| - 1].channelId]
  }

  function Weights(policies: seq<Policy>): (m: map<string, int>)
    ensures m.Keys == Ordering.Elements(Ids(policies))
    decreases |policies|
  {
    if policies == [] then map[] else
    Weights(policies[..|policies| - 1])[policies[|policies| - 1].channelId := policies[|policies| - 1].weight]
  }

  /** The items grouped by channel, in the order given. */
  function Grouped(items: seq<Item>): (m: map<string, seq<Item>>)
    ensures forall id :: id in m <==> OfChannel(items, id) != []
    ensures forall id :: QueueOf(m, id) == OfChannel(items, id)
    decreases |items|
  {
    if items == [] then map[] else
    var m, x := Grouped(items[..|items| - 1]), items[|items| - 1];
    m[x.channelId := QueueOf(m, x.channelId) + [x]]
  }

  lemma {:induction false} OfChannelIsTagged(items: seq<Item>, id: string)
    ensures Tagged(OfChannel(items, id), id)
    decreases |items|
  {
    if items != [] { OfChannelIsTagged(items[..|items| - 1], id); }
  }

  lemma ArrangedTagged(items: seq<Item>, id: string, q: seq<Item>)
    requires Arranged(OfChannel(items, id), q)
    ensures Tagged(q, id)
  {
    OfChannelIsTagged(items, id);
    forall i | 0 <= i < |q| ensures q[i].channelId == id {
      assert q[i] in multiset(OfChannel(items, id));
    }
  }

  /** A channel occurs as often as policies name it, or once. */
  ghost predicate Counted(policies: seq<Policy>, order: seq<string>, ids: set<string>)
  {
    forall id :: id in ids ==> multiset(order)[id] == if id in Ids(policies) then multiset(Ids(policies))[id] else 1
  }

  /** A channel has the weight of its last policy, or 1. */
  ghost predicate Weighed(policies: seq<Policy>, weights: map<string, int>)
  {
    forall id :: id in weights ==> weights[id] == if id in Weights(policies) then Weights(policies)[id] else 1
  }

  /** The channels known after a list of policies and some channels found only in the items. */
  ghost predicate Known(policies: seq<Policy>, weights: map<string, int>, order: seq<string>, found: set<string>)
  {
    && Ordering.Sorted(order) && Ordering.Elements(order) == weights.Keys == Ordering.Elements(Ids(policies)) + found
    && (DistinctIds(Ids(policies)) ==> DistinctIds(order))
    && Counted(policies, order, weights.Keys) && Weighed(policies, weights)
  }

  lemma KnownAlready(policies: seq<Policy>, weights: map<string, int>, order: seq<string>, found: set<string>, id: string)
    requires Known(policies, weights, order, found) && id in weights
    ensures Known(policies, weights, order, found + {id})
  {
    assert id in Ordering.Elements(Ids(policies)) + found;
    assert Ordering.Elements(Ids(policies)) + (found + {id}) == Ordering.Elements(Ids(policies)) + found;
  }

  lemma KnownMore(policies: seq<Policy>, weights: map<string, int>, order: seq<string>, found: set<string>, id: string, order': seq<string>)
    requires Known(policies, weights, order, found) && id !in weights
    requires Ordering.Sorted(order') && multiset(order') == multiset(order + [id])
    ensures Known(policies, weights[id := 1], order', found + {id})
  {
    assert id !in Ordering.Elements(order) && id !in Ordering.Elements(Ids(policies));
    OneMoreId(order, id, order');
    CountedMore(policies, order, weights.Keys, id, order');
    WeighedMore(policies, weights, id);
    assert weights[id := 1].Keys == weights.Keys + {id};
  }

  lemma CountedMore(policies: seq<Policy>, order: seq<string>, ids: set<string>, id: string, order': seq<string>)
    requires Counted(policies, order, ids) && id !in ids && id !in Ids(policies)
    requires multiset(order')[id] == 1 && forall x :: x != id ==> multiset(order')[x] == multiset(order)[x]
    ensures Counted(policies, order', ids + {id})
  {
  }

  lemma WeighedMore(policies: seq<Policy>, weights: map<string, int>, id: string)
    requires Weighed(policies, weights) && id !in Ids(policies)
    ensures Weighed(policies, weights[id := 1])
  {
    assert id !in Ordering.Elements(Ids(policies));
  }

  lemma OneMoreId(order: seq<string>, id: string, order': seq<string>)
    requires id !in order && multiset(order') == multiset(order + [id])
    ensures Ordering.Elements(order') == Ordering.Elements(order) + {id} && (DistinctIds(order) ==> DistinctIds(order'))
    ensures multiset(order')[id] == 1 && forall x :: x != id ==> multiset(order')[x] == multiset(order)[x]
  {
    SameContents(order + [id], order');
    assert Ordering.Elements(order + [id]) == Ordering.Elements(order) + {id};
    assert id !in multiset(order);
  }

  /** The channels that have policies. */
  method Declare(policies: seq<Policy>) returns (weights: map<string, int>, order: seq<string>)
    ensures Known(policies, weights, order, {})
  {
    weights, order := map[], [];
    for n := 0 to |policies|
      invariant weights == Weights(policies[..n]) && order == Ids(policies[..n])
    {
      assert policies[..n + 1][..n] == policies[..n];
      weights := weights[policies[n].channelId := policies[n].weight];
      order := order + [policies[n].channelId];
    }
    assert policies[..|policies|] == policies;
    order := Ordering.Sort(order);
    SameContents(Ids(policies), order);
  }

  method Group(items: seq<Item>) returns (queues: map<string, seq<Item>>)
    ensures queues == Grouped(items)
  {
    queues := map[];
    for n := 0 to |items|
      invariant queues == Grouped(items[..n])
    {
      assert items[..n + 1][..n] == items[..n];
      var id := items[n].channelId;
      queues := queues[id := QueueOf(queues, id) + [items[n]]];
    }
    assert items[..|items|] == items;
  }

  /** Sorted queues for the channels not in `rest`. */
  ghost predicate Arranging(grouped: map<string, seq<Item>>, queues: map<string, seq<Item>>, rest: set<string>)
  {
    && rest <= queues.Keys == grouped.Keys
    && (forall id :: id in rest ==> queues[id] == grouped[id])
    && forall id :: id in queues && id !in rest ==> Arranged(grouped[id], queues[id])
  }

  lemma ArrangingMore(grouped: map<string, seq<Item>>, queues: map<string, seq<Item>>, rest: set<string>, id: string, q: seq<Item>)
    requires Arranging(grouped, queues, rest) && id in rest && Arranged(grouped[id], q)
    ensures Arranging(grouped, queues[id := q], rest - {id})
  {
  }

  /** Sorts every queue. */
  method ArrangeQueues(grouped: map<string, seq<Item>>) returns (queues: map<string, seq<Item>>)
    ensures Arranging(grouped, queues, {})
  {
    queues := grouped;
    var rest := queues.Keys;
    while rest != {}
      invariant Arranging(grouped, queues, rest)
      decreases rest
    {
      var id :| id in rest;
      var q := SortBySequence(queues[id]);
      ArrangingMore(grouped, queues, rest, id, q);
      queues := queues[id := q];
      rest := rest - {id};
    }
  }

  /** Adds the channels that have items but no policy. */
  method RegisterAll(ghost policies: seq<Policy>, declared: map<string, int>, ids: seq<string>, keys: set<string>)
    returns (weights: map<string, int>, order: seq<string>)
    requires Known(policies, declared, ids, {})
    ensures Known(policies, weights, order, keys)
  {
    weights, order := declared, ids;
    var rest := keys;
    ghost var found := {};
    while rest != {}
      invariant found + rest == keys && Known(policies, weights, order, found)
      decreases rest
    {
      var id :| id in rest;
      weights, order := Register(policies, weights, order, found, id);
      found, rest := found + {id}, rest - {id};
    }
  }

  method Register(ghost policies: seq<Policy>, weights: map<string, int>, order: seq<string>, ghost found: set<string>, id: string)
    returns (weights': map<string, int>, order': seq<string>)
    requires Known(policies, weights, order, found)
    ensures Known(policies, weights', order', found + {id})
  {
    weights', order' := weights, order;
    if id in weights {
      KnownAlready(policies, weights, order, found, id);
    } else {
      var more := Ordering.Sort(order + [id]);
      KnownMore(policies, weights, order, found, id, more);
      weights', order' := weights[id := 1], more;
    }
  }

  lemma GroupNotEmpty(items: seq<Item>, queues: map<string, seq<Item>>, id: string)
    requires Arranging(Grouped(items), queues, {}) && id in queues
    ensures queues[id] != []
  {
    assert |multiset(queues[id])| == |multiset(Grouped(items)[id])| && OfChannel(items, id) != [];
    assert |queues[id]| == |multiset(queues[id])|;
  }

  lemma ArrangedQueue(items: seq<Item>, queues: map<string, seq<Item>>, id: string)
    requires Arranging(Grouped(items), queues, {})
    ensures Arranged(OfChannel(items, id), QueueOf(queues, id))
  {
    if id !in queues { assert OfChannel(items, id) == []; }
  }

  lemma FreshWellFormed(policies: seq<Policy>, items: seq<Item>, v: View)
    requires Known(policies, v.weights, v.order, v.queues.Keys) && Arranging(Grouped(items), v.queues, {})
    requires v.deficits == map[] && v.cursor == 0
    ensures v.WellFormed()
  {
    forall id | id in v.queues ensures id in v.order && Tagged(v.queues[id], id) {
      assert id in Ordering.Elements(v.order);
      ArrangedTagged(items, id, v.queues[id]);
    }
  }

  class RoundRobin {
    var queues: map<string, seq<Item>>
    var weights: map<string, int>
    var deficits: map<string, int>
    var order: seq<string>
    var cursor: nat

    ghost function State(): (v: View)
      reads this
    {
      View(queues, weights, deficits, order, cursor)
    }

    ghost predicate Valid()
      reads this
    {
      State().WellFormed()
    }

    /** The queues hold each channel's items by sequence, and the scheduler is at the start of a round of the
        reference order. */
    constructor (policies: seq<Policy>, items: seq<Item>)
      ensures Known(policies, weights, order, queues.Keys) && deficits == map[] && cursor == 0
      ensures Arranging(Grouped(items), queues, {})
      ensures Valid()
    {
      var w, o := Declare(policies);
      var q := Group(items);
      var arranged := ArrangeQueues(q);
      var weighed, ids := RegisterAll(policies, w, o, arranged.Keys);
      queues, weights, order := arranged, weighed, ids;
      deficits := map[];
      cursor := 0;
      new;
      FreshWellFormed(policies, items, State());
    }

    method Len() returns (total: nat)
      requires Valid()
      ensures total == Total(State().Queues())
    {
      total := 0;
      var rest := queues.Keys;
      ghost var ids := State().Channels();
      ViewSound(State());
      SumIsTotal(queues, ids);
      while rest != {}
        invariant rest <= queues.Keys
        invariant total + SumOver(queues, Length, ids, rest) == Total(State().Queues())
        decreases rest
      {
        var k :| k in rest;
        SumLess(queues, Length, ids, k, rest);
        total := total + |queues[k]|;
        rest := rest - {k};
      }
      SumEmpty(queues, Length, ids);
    }

    method Advance()
      requires order != [] && cursor < |order|
      modifies this`cursor
      ensures State() == old(State().Advanced())
    {
      cursor := (cursor + 1) % |order|;
    }

    /** One visit to a non-empty channel. */
    method Serve() returns (item: Item)
      requires cursor < |order| && QueueOf(queues, order[cursor]) != []
      modifies this`cursor, this`deficits, this`queues
      ensures item == old(queues[order[cursor]][0]) && State() == old(State().Took())
    {
      var id := order[cursor];
      if DeficitOf(deficits, id) < 1 {
        var weight := if id in weights then weights[id] else 0;
        if weight <= 0 { weight := 1; }
        deficits := deficits[id := DeficitOf(deficits, id) + weight];
      }
      item := queues[id][0];
      queues := queues[id := queues[id][1..]];
      deficits := deficits[id := deficits[id] - 1];
      if deficits[id] == 0 { Advance(); }
    }

    method Skip()
      requires cursor < |order|
      modifies this`cursor, this`deficits
      ensures State() == old(State().Passed())
    {
      deficits := deficits[order[cursor] := 0];
      Advance();
    }

    /** Succeeds exactly when something is queued, and takes the next item of the reference order. */
    method Next() returns (item: Option<Item>)
      requires Valid()
      modifies this`cursor, this`deficits, this`queues
      ensures NextSpec(old(State()), item, State())
    {
      var total := Len();
      if |order| == 0 || total == 0 { return None; }
      ghost var start := State();
      ghost var v := start;
      SkippedNone(start);
      var emptyPasses := 0;
      while emptyPasses < 2 * |order|
        invariant v == State() && Skipped(start, v, emptyPasses)
      {
        if |QueueOf(queues, order[cursor])| == 0 {
          SkippedPassed(start, v, emptyPasses);
          Skip();
          emptyPasses := emptyPasses + 1;
          v := v.Passed();
        } else {
          SkippedTook(start, v, emptyPasses);
          var served := Serve();
          return Some(served);
        }
      }
      return None;
    }

    /** Calling Next until it fails gives exactly the reference order. */
    method Drain() returns (items: seq<Item>)
      requires Valid()
      modifies this`cursor, this`deficits, this`queues
      ensures Valid() && items == old(State().Pending()) && Total(State().Queues()) == 0
    {
      items := [];
      ghost var all, v := State().Pending(), State();
      var item := Next();
      while item.Some?
        invariant v.WellFormed() && NextSpec(v, item, State()) && all == items + v.Pending()
        decreases Total(v.Queues())
      {
        ghost var w := State();
        DrainStep(all, items, v, item, w);
        items := items + [item.value];
        v := w;
        item := Next();
      }
      NothingPending(v);
    }
  }

  lemma DrainStep(all: seq<Item>, items: seq<Item>, v: View, item: Option<Item>, w: View)
    requires v.WellFormed() && item.Some? && NextSpec(v, item, w) && all == items + v.Pending()
    ensures w.WellFormed() && all == items + [item.value] + w.Pending() && Total(w.Queues()) < Total(v.Queues())
  {
    Regroup(items, item.value, w.Pending());
  }

  /** From a fresh start, what is to be served is the reference order. */
  lemma FreshPending(v: View)
    requires v.WellFormed() && v.deficits == map[] && v.cursor == 0
    ensures v.Pending() == Rounds(v.Quotas(), v.Queues())
  {
    if v.order != [] {
      Ordering.BlockEnds(v.order);
      Ordering.BeforeBound(v.order, 0);
      WholeTurn(v);
      SameStart(v.Quotas(), v.Queues(), 0);
      UpcomingIsRounds(v.Quotas(), v.Queues());
    }
  }

  /** The output of a whole run, channel by channel. */
  lemma ServedOfChannel(v: View, id: string)
    requires v.WellFormed() && v.deficits == map[] && v.cursor == 0
    ensures OfChannel(v.Pending(), id) == QueueOf(v.queues, id)
  {
    FreshPending(v);
    ViewSound(v);
    if k :| 0 <= k < |v.Channels()| && v.Channels()[k] == id {
      RoundsPermute(v.Channels(), v.Quotas(), v.Queues(), k);
    } else {
      NotServed(v.Channels(), v.Quotas(), v.Queues(), id);
    }
  }

  lemma {:induction false} NotServed(order: seq<string>, ws: seq<nat>, qs: Queues, id: string)
    requires |ws| == |qs| && Positive(ws) && Sound(order, qs) && id !in order
    ensures OfChannel(Rounds(ws, qs), id) == []
    decreases Total(qs)
  {
    if Total(qs) > 0 {
      RoundProgress(ws, qs);
      AfterSound(order, ws, qs);
      NotServed(order, ws, AfterFrom(ws, qs, 0), id);
      NotInRound(order, ws, qs, 0, id);
      OfChannelConcat(RoundFrom(ws, qs, 0), Rounds(ws, AfterFrom(ws, qs, 0)), id);
    }
  }

  lemma {:induction false} NotInRound(order: seq<string>, ws: seq<nat>, qs: Queues, i: nat, id: string)
    requires |ws| == |qs| && Sound(order, qs) && id !in order && i <= |qs|
    ensures OfChannel(RoundFrom(ws, qs, i), id) == []
    decreases |qs| - i
  {
    if i < |qs| {
      NotInRound(order, ws, qs, i + 1, id);
      Others(Served(ws[i], qs[i]), RoundFrom(ws, qs, i + 1), order[i], id);
    }
  }

  lemma Others(a: seq<Item>, b: seq<Item>, own: string, id: string)
    requires Tagged(a, own) && own != id && OfChannel(b, id) == []
    ensures OfChannel(a + b, id) == []
  {
    OfChannelConcat(a, b, id);
    OfChannelTagged(a, own, id);
  }

  /** A scheduler built for any policies and items and drained: the channels it knows in sorted order, the
      reference order over them with quotas multiplied by how often a policy names them, and of every channel
      exactly its items, by sequence. */
  method Schedule(policies: seq<Policy>, items: seq<Item>) returns (out: seq<Item>, ghost start: View)
    ensures start.WellFormed() && Known(policies, start.weights, start.order, start.queues.Keys)
    ensures out == Rounds(start.Quotas(), start.Queues())
    ensures forall id :: id in start.queues ==> QueueOf(start.queues, id) != []
    ensures forall id :: Arranged(OfChannel(items, id), OfChannel(out, id))
    ensures forall id :: OfChannel(out, id) == QueueOf(start.queues, id)
  {
    var s := new RoundRobin(policies, items);
    start := s.State();
    out := s.Drain();
    FreshPending(start);
    assert Arranging(Grouped(items), start.queues, {});
    forall id | id in start.queues ensures start.queues[id] != [] { GroupNotEmpty(items, start.queues, id); }
    forall id ensures Arranged(OfChannel(items, id), OfChannel(out, id)) && OfChannel(out, id) == QueueOf(start.queues, id) {
      ServedOfChannel(start, id);
      ArrangedQueue(items, start.queues, id);
    }
  }

  /** In every state of a scheduler, a channel with items gets its head served after at most as many
      items of other channels as their quotas add up to. */
  lemma NoneStarves(v: View, k: nat)
    requires v.WellFormed() && k < |v.Channels()| && QueueOf(v.queues, v.Channels()[k]) != []
    ensures var i := FirstOf(v.Pending(), v.Channels()[k]);
      && i < |v.Pending()| && v.Pending()[i] == v.queues[v.Channels()[k]][0]
      && i <= Sum(v.Quotas(), |v.Channels()|) - v.Quotas()[k]
  {
    ViewSound(v);
    LeftWithin(v);
    NoStarvation(v.Channels(), v.Quotas(), v.Queues(), Place(v), v.Left(), k);
  }

  /** What is left of the turns of a channel is at most its share. */
  lemma LeftWithin(v: View)
    requires v.WellFormed() && v.order != []
    ensures v.Left() <= v.Quotas()[Place(v)]
  {
    TurnAtLeast(v);
    Ordering.BeforeBound(v.order, v.cursor);
    TurnsMonotone(v.Later() + 1, multiset(v.order)[v.order[v.cursor]], QuotaOf(v.weights, v.order[v.cursor]));
  }

  /** The weight of a channel is that of the last policy that names it. */
  lemma {:induction false} LastWeight(policies: seq<Policy>, i: nat)
    requires i < |policies| && forall j :: i < j < |policies| ==> policies[j].channelId != policies[i].channelId
    ensures policies[i].channelId in Weights(policies) && Weights(policies)[policies[i].channelId] == policies[i].weight
    decreases |policies|
  {
    var n := |policies| - 1;
    if i < n { LastWeight(policies[..n], i); }
  }

  function WeightOf(policies: seq<Policy>, id: string): int
  {
    if id in Weights(policies) then Weights(policies)[id] else 1
  }

  /** The quota of a channel: its weight, at least 1, as often as policies name it; without a policy 1. */
  lemma QuotaMeaning(policies: seq<Policy>, v: View, found: set<string>, k: nat)
    requires Known(policies, v.weights, v.order, found) && k < |v.Channels()|
    ensures var id := v.Channels()[k];
      var weight := if WeightOf(policies, id) > 0 then WeightOf(policies, id) else 1;
      v.Quotas()[k] == if id in Ids(policies) then multiset(Ids(policies))[id] * weight else 1
  {
    var id := v.Channels()[k];
    assert id in v.order && id in Ordering.Elements(v.order);
    assert id in Ids(policies) <==> id in Ordering.Elements(Ids(policies));
    TurnsIsProduct(multiset(v.order)[id], QuotaOf(v.weights, id));
  }

  /** Without repetitions the channels are the ids and the quotas the weights. */
  lemma DistinctShares(v: View)
    requires v.WellFormed() && DistinctIds(v.order)
    ensures v.Channels() == v.order && v.Quotas() == QuotasOf(v.weights, v.order)
  {
    Ordering.SortedDistinct(v.order);
    Ordering.DedupStrict(v.order);
    forall i | 0 <= i < |v.order| ensures Share(v.weights, v.order, v.order[i]) == QuotaOf(v.weights, v.order[i]) {
      OneShare(v.weights, v.order, v.order[i]);
    }
  }

  lemma OneShare(weights: map<string, int>, order: seq<string>, id: string)
    requires DistinctIds(order) && id in order
    ensures Share(weights, order, id) == QuotaOf(weights, id)
  {
    AtMostOnce(order, id);
    assert id in multiset(order);
    assert multiset(order)[id] == 1 && Turns(1, QuotaOf(weights, id)) == QuotaOf(weights, id) + Turns(0, QuotaOf(weights, id));
  }

  lemma Regroup<T>(a: seq<T>, x: T, b: seq<T>)
    ensures a + ([x] + b) == a + [x] + b
  {
  }

  lemma NothingPending(v: View)
    requires v.WellFormed() && Total(v.Queues()) == 0
    ensures v.Pending() == [] && forall s: seq<Item> :: s + v.Pending() == s
  {
  }
}
