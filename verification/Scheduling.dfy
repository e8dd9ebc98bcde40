/** The order in which a weighted round-robin scheduler serves its channels (bundle/channel/channel.go),
    as a function of quotas and queues. `qs[i]` is the queue of the i-th channel and `ws[i]` its quota. */
module Scheduling {

  /** An item of a context channel; its digest is determined by the other fields. */
  datatype Item = Item(
    id: string,
    channelId: string,
    channelType: string,
    priority: int,
    sequence: nat,
    payload: string,
    size: nat,
    compression: string,
    createdTick: nat)

  type Queues = seq<seq<Item>>

  function Min(a: nat, b: nat): nat { if a <= b then a else b }

  /** The head of a queue that one turn with quota `w` serves, and what it leaves. */
  function Served(w: nat, q: seq<Item>): seq<Item> { q[..Min(w, |q|)] }
  function Left(w: nat, q: seq<Item>): seq<Item> { q[Min(w, |q|)..] }

  function Total(qs: Queues): nat
    decreases |qs|
  {
    if qs == [] then 0 else Total(qs[..|qs| - 1]) + |qs[|qs| - 1]|
  }

  /** What the rest of a round serves, from channel `i` on. */
  function RoundFrom(ws: seq<nat>, qs: Queues, i: nat): seq<Item>
    requires |ws| == |qs| && i <= |qs|
    decreases |qs| - i
  {
    if i == |qs| then [] else Served(ws[i], qs[i]) + RoundFrom(ws, qs, i + 1)
  }

  /** The queues after the rest of a round. */
  function AfterFrom(ws: seq<nat>, qs: Queues, i: nat): (rs: Queues)
    requires |ws| == |qs| && i <= |qs|
    ensures |rs| == |qs|
    ensures forall j :: 0 <= j < |qs| ==> rs[j] == if j < i then qs[j] else Left(ws[j], qs[j])
    decreases |qs| - i
  {
    if i == |qs| then qs else AfterFrom(ws, qs[i := Left(ws[i], qs[i])], i + 1)
  }

  predicate Positive(ws: seq<nat>)
  {
    forall i :: 0 <= i < |ws| ==> ws[i] >= 1
  }

  lemma {:induction false} TotalUpdate(qs: Queues, i: nat, q: seq<Item>)
    requires i < |qs|
    ensures Total(qs[i := q]) == Total(qs) - |qs[i]| + |q|
    decreases |qs|
  {
    var n := |qs| - 1;
    if i == n {
      assert qs[i := q][..n] == qs[..n];
    } else {
      assert qs[i := q][..n] == qs[..n][i := q];
      TotalUpdate(qs[..n], i, q);
    }
  }

  lemma {:induction false} TotalZero(qs: Queues)
    ensures Total(qs) == 0 <==> forall i :: 0 <= i < |qs| ==> qs[i] == []
    decreases |qs|
  {
    if qs != [] {
      TotalZero(qs[..|qs| - 1]);
      assert forall i :: 0 <= i < |qs| - 1 ==> qs[..|qs| - 1][i] == qs[i];
    }
  }

  /** A round empties as much as it serves. */
  lemma {:induction false} RoundTotal(ws: seq<nat>, qs: Queues, i: nat)
    requires |ws| == |qs| && i <= |qs|
    ensures |RoundFrom(ws, qs, i)| + Total(AfterFrom(ws, qs, i)) == Total(qs)
    decreases |qs| - i
  {
    if i < |qs| {
      var qs' := qs[i := Left(ws[i], qs[i])];
      RoundTotal(ws, qs', i + 1);
      TotalUpdate(qs, i, Left(ws[i], qs[i]));
      RoundIgnores(ws, qs, i, Left(ws[i], qs[i]), i + 1);
    }
  }

  lemma {:induction false} RoundIgnores(ws: seq<nat>, qs: Queues, i: nat, q: seq<Item>, j: nat)
    requires |ws| == |qs| && i < j <= |qs|
    ensures RoundFrom(ws, qs[i := q], j) == RoundFrom(ws, qs, j)
    decreases |qs| - j
  {
    if j < |qs| { RoundIgnores(ws, qs, i, q, j + 1); }
  }

  lemma {:induction false} RoundServes(ws: seq<nat>, qs: Queues, i: nat, k: nat)
    requires |ws| == |qs| && i <= k < |qs| && Positive(ws) && qs[k] != []
    ensures |RoundFrom(ws, qs, i)| >= 1
    decreases k - i
  {
    if i < k { RoundServes(ws, qs, i + 1, k); }
  }

  /** The sum of the first `n` quotas. */
  function Sum(ws: seq<nat>, n: nat): nat
    requires n <= |ws|
  {
    if n == 0 then 0 else Sum(ws, n - 1) + ws[n - 1]
  }

  lemma RoundProgress(ws: seq<nat>, qs: Queues)
    requires |ws| == |qs| && Positive(ws) && Total(qs) > 0
    ensures Total(AfterFrom(ws, qs, 0)) < Total(qs)
  {
    TotalZero(qs);
    var k :| 0 <= k < |qs| && qs[k] != [];
    RoundServes(ws, qs, 0, k);
    RoundTotal(ws, qs, 0);
  }

  /** The reference order: whole rounds, each taking from every channel in turn up to its quota, until
      all queues are empty. */
  function Rounds(ws: seq<nat>, qs: Queues): seq<Item>
    requires |ws| == |qs| && Positive(ws)
    decreases Total(qs)
  {
    if Total(qs) == 0 then [] else
    RoundProgress(ws, qs);
    RoundFrom(ws, qs, 0) + Rounds(ws, AfterFrom(ws, qs, 0))
  }

  // ---- In the middle of a round --------------------------------------------------------------

  /** What is still to come when channel `c` has `d` of its turn left (`d == 0`: its turn begins). */
  function Rest(ws: seq<nat>, qs: Queues, c: nat, d: nat): seq<Item>
    requires |ws| == |qs| && Positive(ws) && c < |qs|
  {
    Turn(ws, qs, c, Quota(ws, c, d))
  }

  function Quota(ws: seq<nat>, c: nat, d: nat): nat
    requires c < |ws|
  {
    if d == 0 then ws[c] else d
  }

  /** The rest of a turn, and what comes after it. */
  function Turn(ws: seq<nat>, qs: Queues, c: nat, quota: nat): seq<Item>
    requires |ws| == |qs| && Positive(ws) && c < |qs|
  {
    Served(quota, qs[c]) + Tail(ws, qs[c := Left(quota, qs[c])], c)
  }

  /** The channel that comes after `c` of `n` channels. */
  function Following(n: nat, c: nat): (r: nat)
    requires c < n
    ensures r < n
  {
    if c + 1 == n then 0 else c + 1
  }

  /** Where the cursor is, and what is left of the turn there, after one item. */
  function NextCursor(ws: seq<nat>, c: nat, d: nat): (r: nat)
    requires c < |ws|
    ensures r < |ws|
  {
    if Quota(ws, c, d) == 1 then Following(|ws|, c) else c
  }

  function NextDeficit(ws: seq<nat>, c: nat, d: nat): nat
    requires c < |ws| && ws[c] >= 1
  {
    Quota(ws, c, d) - 1
  }

  /** What comes after the turn of channel `c`. */
  function Tail(ws: seq<nat>, qs: Queues, c: nat): seq<Item>
    requires |ws| == |qs| && Positive(ws) && c < |qs|
  {
    RoundFrom(ws, qs, c + 1) + Rounds(ws, AfterFrom(ws, qs, c + 1))
  }

  lemma Assoc<T>(a: seq<T>, b: seq<T>, c: seq<T>)
    ensures a + b + c == a + (b + c)
  {
  }

  /** A fresh round is the turn of the first channel and what follows. */
  lemma StartOfRound(ws: seq<nat>, qs: Queues)
    requires |ws| == |qs| && Positive(ws) && 0 < |qs|
    ensures Rest(ws, qs, 0, 0) == Rounds(ws, qs)
  {
    var q := Left(ws[0], qs[0]);
    RoundIgnores(ws, qs, 0, q, 1);
    Assoc(Served(ws[0], qs[0]), RoundFrom(ws, qs, 1), Rounds(ws, AfterFrom(ws, qs, 0)));
    if Total(qs) == 0 {
      TotalZero(qs);
      RoundTotal(ws, qs, 0);
    }
  }

  /** After a turn the next channel's turn begins, after the last one a new round. */
  lemma NextTurn(ws: seq<nat>, qs: Queues, c: nat)
    requires |ws| == |qs| && Positive(ws) && c < |qs|
    ensures Tail(ws, qs, c) == Rest(ws, qs, Following(|qs|, c), 0)
  {
    if c + 1 == |qs| {
      StartOfRound(ws, qs);
    } else {
      var q := Left(ws[c + 1], qs[c + 1]);
      RoundIgnores(ws, qs, c + 1, q, c + 2);
      Assoc(Served(ws[c + 1], qs[c + 1]), RoundFrom(ws, qs, c + 2), Rounds(ws, AfterFrom(ws, qs, c + 1)));
    }
  }

  /** A turn is over when the queue is empty or nothing is left of it. */
  lemma TurnOver(ws: seq<nat>, qs: Queues, c: nat, quota: nat)
    requires |ws| == |qs| && Positive(ws) && c < |qs| && (quota == 0 || qs[c] == [])
    ensures Turn(ws, qs, c, quota) == Tail(ws, qs, c)
  {
    SameUpdate(qs, c);
    assert Served(quota, qs[c]) == [] && Left(quota, qs[c]) == qs[c];
    NoPrefix(Tail(ws, qs, c));
  }

  lemma SameUpdate(qs: Queues, c: nat)
    requires c < |qs|
    ensures qs[c := qs[c]] == qs
  {
  }

  lemma NoPrefix<T>(a: seq<T>)
    ensures [] + a == a
  {
  }

  /** An empty channel is passed over. */
  lemma PassOver(ws: seq<nat>, qs: Queues, c: nat, d: nat)
    requires |ws| == |qs| && Positive(ws) && c < |qs| && qs[c] == []
    ensures Rest(ws, qs, c, d) == Rest(ws, qs, Following(|qs|, c), 0)
  {
    TurnOver(ws, qs, c, Quota(ws, c, d));
    NextTurn(ws, qs, c);
  }

  /** One item of a turn. */
  lemma TurnStep(ws: seq<nat>, qs: Queues, c: nat, quota: nat)
    requires |ws| == |qs| && Positive(ws) && c < |qs| && qs[c] != [] && quota >= 1
    ensures Turn(ws, qs, c, quota) == [qs[c][0]] + Turn(ws, qs[c := qs[c][1..]], c, quota - 1)
  {
    var q := qs[c];
    SplitServed(quota, q);
    TwoUpdates(qs, c, q[1..], Left(quota, q));
    Assoc([q[0]], Served(quota - 1, q[1..]), Tail(ws, qs[c := Left(quota, q)], c));
  }

  lemma TwoUpdates(qs: Queues, c: nat, a: seq<Item>, b: seq<Item>)
    requires c < |qs|
    ensures qs[c := a][c := b] == qs[c := b]
  {
  }

  /** Serving one item of a non-empty channel. */
  lemma ServeOne(ws: seq<nat>, qs: Queues, c: nat, d: nat)
    requires |ws| == |qs| && Positive(ws) && c < |qs| && qs[c] != []
    ensures Rest(ws, qs, c, d) == [qs[c][0]] + Rest(ws, qs[c := qs[c][1..]], NextCursor(ws, c, d), NextDeficit(ws, c, d))
  {
    var quota := Quota(ws, c, d);
    TurnStep(ws, qs, c, quota);
    var qs' := qs[c := qs[c][1..]];
    if quota == 1 {
      TurnOver(ws, qs', c, 0);
      NextTurn(ws, qs', c);
    }
  }

  lemma SplitServed(w: nat, q: seq<Item>)
    requires w >= 1 && q != []
    ensures Served(w, q) == [q[0]] + Served(w - 1, q[1..]) && Left(w, q) == Left(w - 1, q[1..])
  {
  }

  // ---- Step by step --------------------------------------------------------------------------

  /** The first non-empty queue from `i` on. */
  function FirstFrom(qs: Queues, i: nat): (r: nat)
    requires i <= |qs|
    ensures i <= r <= |qs| && (r < |qs| ==> qs[r] != []) && (forall j :: i <= j < r ==> qs[j] == [])
    decreases |qs| - i
  {
    if i == |qs| || qs[i] != [] then i else FirstFrom(qs, i + 1)
  }

  /** How many empty channels are passed over before the next item. */
  function Gap(qs: Queues, c: nat): nat
    requires c < |qs|
  {
    if FirstFrom(qs, c) < |qs| then FirstFrom(qs, c) - c else |qs| - c + FirstFrom(qs, 0)
  }

  lemma GapShrinks(qs: Queues, c: nat)
    requires c < |qs| && Total(qs) > 0
    ensures Gap(qs, c) < 2 * |qs| && (qs[c] == [] <==> Gap(qs, c) > 0)
    ensures qs[c] == [] ==> Gap(qs, Following(|qs|, c)) == Gap(qs, c) - 1
  {
    TotalZero(qs);
    assert qs[c] == [] ==> FirstFrom(qs, c) == FirstFrom(qs, c + 1);
  }

  /** What a scheduler serves from now on, visit by visit: an empty channel is passed over, otherwise
      the head of its queue is served. */
  function Upcoming(ws: seq<nat>, qs: Queues, c: nat, d: nat): seq<Item>
    requires |ws| == |qs| && Positive(ws) && c < |qs|
    decreases Total(qs), Gap(qs, c)
  {
    if Total(qs) == 0 then [] else
    GapShrinks(qs, c);
    if qs[c] == [] then Upcoming(ws, qs, Following(|ws|, c), 0) else
    TotalUpdate(qs, c, qs[c][1..]);
    [qs[c][0]] + Upcoming(ws, qs[c := qs[c][1..]], NextCursor(ws, c, d), NextDeficit(ws, c, d))
  }

  lemma UpcomingServes(ws: seq<nat>, qs: Queues, c: nat, d: nat)
    requires |ws| == |qs| && Positive(ws) && c < |qs| && qs[c] != []
    ensures Upcoming(ws, qs, c, d) ==
      [qs[c][0]] + Upcoming(ws, qs[c := qs[c][1..]], NextCursor(ws, c, d), NextDeficit(ws, c, d))
  {
    TotalZero(qs);
  }

  lemma UpcomingSkips(ws: seq<nat>, qs: Queues, c: nat, d: nat, k: nat)
    requires |ws| == |qs| && Positive(ws) && c < |qs| && k < |qs| && qs[c] == [] && qs[k] != []
    ensures Upcoming(ws, qs, c, d) == Upcoming(ws, qs, Following(|ws|, c), 0)
  {
    TotalZero(qs);
  }

  /** Nothing queued, nothing to come. */
  lemma NothingLeft(ws: seq<nat>, qs: Queues, c: nat)
    requires |ws| == |qs| && Positive(ws) && c < |qs| && Total(qs) == 0
    ensures Tail(ws, qs, c) == []
  {
    RoundTotal(ws, qs, c + 1);
    assert RoundFrom(ws, qs, c + 1) == [];
  }

  /** Visit by visit, the scheduler follows the reference order. */
  lemma {:induction false} UpcomingIsRest(ws: seq<nat>, qs: Queues, c: nat, d: nat)
    requires |ws| == |qs| && Positive(ws) && c < |qs|
    ensures Upcoming(ws, qs, c, d) == Rest(ws, qs, c, d)
    decreases Total(qs), Gap(qs, c)
  {
    if Total(qs) == 0 {
      TotalZero(qs);
      TurnOver(ws, qs, c, Quota(ws, c, d));
      NothingLeft(ws, qs, c);
    } else {
      GapShrinks(qs, c);
      if qs[c] == [] {
        PassOver(ws, qs, c, d);
        UpcomingIsRest(ws, qs, Following(|ws|, c), 0);
      } else {
        TotalUpdate(qs, c, qs[c][1..]);
        ServeOne(ws, qs, c, d);
        UpcomingIsRest(ws, qs[c := qs[c][1..]], NextCursor(ws, c, d), NextDeficit(ws, c, d));
      }
    }
  }

  /** From a fresh start that is whole rounds. */
  lemma UpcomingIsRounds(ws: seq<nat>, qs: Queues)
    requires |ws| == |qs| && Positive(ws) && 0 < |qs|
    ensures Upcoming(ws, qs, 0, 0) == Rounds(ws, qs)
  {
    UpcomingIsRest(ws, qs, 0, 0);
    StartOfRound(ws, qs);
  }

  // ---- What the reference order is -----------------------------------------------------------

  /** The items of one channel, in order. */
  function OfChannel(items: seq<Item>, id: string): seq<Item>
    decreases |items|
  {
    if items == [] then [] else
    OfChannel(items[..|items| - 1], id) + (if items[|items| - 1].channelId == id then [items[|items| - 1]] else [])
  }

  lemma {:induction false} OfChannelConcat(a: seq<Item>, b: seq<Item>, id: string)
    ensures OfChannel(a + b, id) == OfChannel(a, id) + OfChannel(b, id)
    decreases |b|
  {
    if b == [] {
      assert a + b == a;
    } else {
      assert (a + b)[..|a + b| - 1] == a + b[..|b| - 1];
      OfChannelConcat(a, b[..|b| - 1], id);
    }
  }

  predicate Tagged(items: seq<Item>, id: string)
  {
    forall i :: 0 <= i < |items| ==> items[i].channelId == id
  }

  lemma {:induction false} OfChannelTagged(items: seq<Item>, own: string, id: string)
    requires Tagged(items, own)
    ensures OfChannel(items, id) == if own == id then items else []
    decreases |items|
  {
    if items != [] {
      var n := |items| - 1;
      OfChannelTagged(items[..n], own, id);
      assert items[n].channelId == own;
      assert items == items[..n] + [items[n]];
    }
  }

  /** Each queue holds items of its own channel, and channels are distinct. */
  predicate Sound(order: seq<string>, qs: Queues)
  {
    && |order| == |qs|
    && (forall i :: 0 <= i < |qs| ==> Tagged(qs[i], order[i]))
    && forall i, j :: 0 <= i < j < |order| ==> order[i] != order[j]
  }

  /** A round serves, of channel `k`, the head of its queue up to its quota, in order. */
  lemma {:induction false} RoundOfChannel(order: seq<string>, ws: seq<nat>, qs: Queues, i: nat, k: nat)
    requires |ws| == |qs| && Sound(order, qs) && i <= |qs| && k < |qs|
    ensures OfChannel(RoundFrom(ws, qs, i), order[k]) == if i <= k then Served(ws[k], qs[k]) else []
    decreases |qs| - i
  {
    if i < |qs| {
      RoundOfChannel(order, ws, qs, i + 1, k);
      OfChannelConcat(Served(ws[i], qs[i]), RoundFrom(ws, qs, i + 1), order[k]);
      OfChannelTagged(Served(ws[i], qs[i]), order[i], order[k]);
    }
  }

  /** The reference order loses and invents nothing and keeps the order of every channel: its items of
      each channel are exactly that channel's queue, and there are no others. */
  lemma {:induction false} RoundsPermute(order: seq<string>, ws: seq<nat>, qs: Queues, k: nat)
    requires |ws| == |qs| && Positive(ws) && Sound(order, qs) && k < |qs|
    ensures OfChannel(Rounds(ws, qs), order[k]) == qs[k] && |Rounds(ws, qs)| == Total(qs)
    decreases Total(qs)
  {
    if Total(qs) > 0 {
      RoundProgress(ws, qs);
      var after := AfterFrom(ws, qs, 0);
      AfterSound(order, ws, qs);
      RoundsPermute(order, ws, after, k);
      RoundTotal(ws, qs, 0);
      RoundOfChannel(order, ws, qs, 0, k);
      OfChannelConcat(RoundFrom(ws, qs, 0), Rounds(ws, after), order[k]);
      ServedLeft(ws[k], qs[k]);
    } else {
      TotalZero(qs);
    }
  }

  lemma AfterSound(order: seq<string>, ws: seq<nat>, qs: Queues)
    requires |ws| == |qs| && Sound(order, qs)
    ensures Sound(order, AfterFrom(ws, qs, 0))
  {
  }

  lemma ServedLeft(w: nat, q: seq<Item>)
    ensures Served(w, q) + Left(w, q) == q
  {
  }

  // ---- Waiting for a turn --------------------------------------------------------------------

  /** The quotas of the channels from `c` round to `k`, both excluded. */
  function Between(ws: seq<nat>, c: nat, k: nat): int
    requires c < |ws| && k < |ws|
  {
    if c < k then Sum(ws, k) - Sum(ws, c + 1) else Sum(ws, |ws|) - Sum(ws, c + 1) + Sum(ws, k)
  }

  /** How many items other channels may still be served before channel `k`. */
  function Wait(ws: seq<nat>, c: nat, d: nat, k: nat): int
    requires c < |ws| && k < |ws|
  {
    if c == k then 0 else Quota(ws, c, d) + Between(ws, c, k)
  }

  /** The wait is never negative and never more than the quotas of the other channels together. */
  lemma WaitBound(ws: seq<nat>, c: nat, d: nat, k: nat)
    requires c < |ws| && k < |ws| && d <= ws[c]
    ensures 0 <= Wait(ws, c, d, k) <= Sum(ws, |ws|) - ws[k]
  {
    SumMonotone(ws, 0, c);
    SumMonotone(ws, 0, k);
    SumMonotone(ws, k + 1, |ws|);
    SumMonotone(ws, c + 1, |ws|);
    if c < k {
      SumMonotone(ws, c + 1, k);
    } else if k < c {
      SumMonotone(ws, k + 1, c);
    }
  }

  /** Moving to the next channel ends the current turn. */
  lemma WaitAdvance(ws: seq<nat>, c: nat, d: nat, k: nat)
    requires c < |ws| && k < |ws| && c != k
    ensures Wait(ws, Following(|ws|, c), 0, k) == Wait(ws, c, d, k) - Quota(ws, c, d)
  {
    var next := Following(|ws|, c);
    assert Sum(ws, 0) == 0 && Sum(ws, next + 1) == Sum(ws, next) + ws[next];
  }

  /** Every item of another channel makes the wait shorter by one. */
  lemma WaitServe(ws: seq<nat>, c: nat, d: nat, k: nat)
    requires c < |ws| && k < |ws| && c != k && Positive(ws)
    ensures Wait(ws, NextCursor(ws, c, d), NextDeficit(ws, c, d), k) == Wait(ws, c, d, k) - 1
  {
    WaitAdvance(ws, c, d, k);
  }

  lemma {:induction false} SumMonotone(ws: seq<nat>, a: nat, b: nat)
    requires a <= b <= |ws|
    ensures Sum(ws, a) <= Sum(ws, b)
    decreases b - a
  {
    if a < b { SumMonotone(ws, a, b - 1); }
  }

  /** How many items come before the first one of channel `id`. */
  function FirstOf(items: seq<Item>, id: string): (i: nat)
    ensures i <= |items| && (forall j :: 0 <= j < i ==> items[j].channelId != id)
    ensures i < |items| ==> items[i].channelId == id
  {
    if items == [] || items[0].channelId == id then 0 else FirstOf(items[1..], id) + 1
  }

  lemma FirstOfCons(item: Item, rest: seq<Item>, id: string)
    ensures FirstOf([item] + rest, id) == if item.channelId == id then 0 else FirstOf(rest, id) + 1
  {
    assert ([item] + rest)[1..] == rest;
  }

  /** The head of a non-empty channel is served first of its channel, after at most as many items of
      others as the wait says. */
  lemma {:induction false} ServedWithin(order: seq<string>, ws: seq<nat>, qs: Queues, c: nat, d: nat, k: nat)
    requires |ws| == |qs| && Positive(ws) && Sound(order, qs) && c < |qs| && k < |qs| && d <= ws[c] && qs[k] != []
    ensures var r := Upcoming(ws, qs, c, d);
      var i := FirstOf(r, order[k]);
      i < |r| && r[i] == qs[k][0] && i <= Wait(ws, c, d, k)
    decreases Wait(ws, c, d, k)
  {
    WaitBound(ws, c, d, k);
    if qs[c] == [] {
      UpcomingSkips(ws, qs, c, d, k);
      WaitAdvance(ws, c, d, k);
      WaitBound(ws, Following(|ws|, c), 0, k);
      ServedWithin(order, ws, qs, Following(|ws|, c), 0, k);
    } else {
      var qs', c', d' := qs[c := qs[c][1..]], NextCursor(ws, c, d), NextDeficit(ws, c, d);
      UpcomingServes(ws, qs, c, d);
      FirstOfCons(qs[c][0], Upcoming(ws, qs', c', d'), order[k]);
      if c != k {
        WaitServe(ws, c, d, k);
        WaitBound(ws, c', d', k);
        ServedWithin(order, ws, qs', c', d', k);
      }
    }
  }

  /** Channel `j` has its turn after that of `c` and before that of `k`. */
  predicate Ahead(c: nat, k: nat, j: nat)
  {
    if c < k then c < j < k else j > c || j < k
  }

  /** The channels whose turns come before that of `k` can use them up. */
  predicate Full(ws: seq<nat>, qs: Queues, c: nat, d: nat, k: nat)
    requires |ws| == |qs| && c < |qs|
  {
    c != k ==> |qs[c]| >= Quota(ws, c, d) && forall j :: 0 <= j < |qs| && Ahead(c, k, j) ==> |qs[j]| >= ws[j]
  }

  lemma FullServe(ws: seq<nat>, qs: Queues, c: nat, d: nat, k: nat)
    requires |ws| == |qs| && Positive(ws) && c < |qs| && k < |qs| && c != k && Full(ws, qs, c, d, k)
    ensures qs[c] != [] && Full(ws, qs[c := qs[c][1..]], NextCursor(ws, c, d), NextDeficit(ws, c, d), k)
  {
    var c' := NextCursor(ws, c, d);
    assert forall j :: 0 <= j < |qs| && c' != k && c' != c && (j == c' || Ahead(c', k, j)) ==> Ahead(c, k, j);
  }

  /** The bound is met: if the channels whose turns come first have enough queued, exactly as many items
      of others come before the head of the channel. */
  lemma {:induction false} ServedAfter(order: seq<string>, ws: seq<nat>, qs: Queues, c: nat, d: nat, k: nat)
    requires |ws| == |qs| && Positive(ws) && Sound(order, qs) && c < |qs| && k < |qs| && d <= ws[c] && qs[k] != []
    requires Full(ws, qs, c, d, k)
    ensures FirstOf(Upcoming(ws, qs, c, d), order[k]) == Wait(ws, c, d, k)
    decreases Wait(ws, c, d, k)
  {
    WaitBound(ws, c, d, k);
    if c != k { FullServe(ws, qs, c, d, k); }
    var qs', c', d' := qs[c := qs[c][1..]], NextCursor(ws, c, d), NextDeficit(ws, c, d);
    UpcomingServes(ws, qs, c, d);
    FirstOfCons(qs[c][0], Upcoming(ws, qs', c', d'), order[k]);
    if c != k {
      WaitServe(ws, c, d, k);
      WaitBound(ws, c', d', k);
      ServedAfter(order, ws, qs', c', d', k);
    }
  }

  /** No starvation: from any point of any round, a non-empty channel is served after at most the
      quotas of the other channels together. */
  lemma NoStarvation(order: seq<string>, ws: seq<nat>, qs: Queues, c: nat, d: nat, k: nat)
    requires |ws| == |qs| && Positive(ws) && Sound(order, qs) && c < |qs| && k < |qs| && d <= ws[c] && qs[k] != []
    ensures var r := Upcoming(ws, qs, c, d);
      var i := FirstOf(r, order[k]);
      i < |r| && r[i] == qs[k][0] && i <= Sum(ws, |ws|) - ws[k]
  {
    ServedWithin(order, ws, qs, c, d, k);
    WaitBound(ws, c, d, k);
  }
}
