/** The token buckets that limit requests per key (consensus/validator/rate_limit.go). Times are minutes
    and tokens are real numbers. */
module RateLimit {
  import opened Messages

  /** `earn(x)` is the number of tokens earned in `x` minutes. */
  datatype Limits = Limits(earn: real -> real, burst: real)
  {
    ghost predicate Sane() { burst >= 1.0 && forall a, b :: Earns(earn, a, b) }
  }

  /** Earning is linear and grows with time. */
  predicate Earns(earn: real -> real, a: real, b: real)
  {
    earn(b - a) == earn(b) - earn(a) && (a <= b <==> earn(a) <= earn(b))
  }

  /** So many tokens a minute. */
  function AtRate(perMinute: real): real -> real
  {
    (x: real) => x * perMinute
  }

  predicate Pays(l: Limits, perMinute: real, x: real)
  {
    l.earn(x) == x * perMinute
  }

  /** Tokens are earned at a rate per minute. */
  ghost predicate PerMinute(l: Limits, perMinute: real)
  {
    perMinute > 0.0 && l.burst >= 1.0 && forall x :: Pays(l, perMinute, x)
  }

  lemma AtRatePays(perMinute: real, burst: real)
    requires perMinute > 0.0 && burst >= 1.0
    ensures PerMinute(Limits(AtRate(perMinute), burst), perMinute)
  {
  }

  lemma RateEarns(l: Limits, perMinute: real, a: real, b: real)
    requires PerMinute(l, perMinute)
    ensures Earns(l.earn, a, b)
  {
    assert Pays(l, perMinute, a) && Pays(l, perMinute, b) && Pays(l, perMinute, b - a);
    Times(perMinute, a, b);
  }

  lemma Times(k: real, a: real, b: real)
    requires k > 0.0
    ensures (b - a) * k == b * k - a * k && (a <= b <==> a * k <= b * k)
  {
    if a < b { assert (b - a) * k > 0.0; } else if b < a { assert (a - b) * k > 0.0; }
  }

  /** Earning at a positive rate is linear and grows with time. */
  lemma SaneRate(l: Limits, perMinute: real)
    requires PerMinute(l, perMinute)
    ensures l.Sane()
  {
    forall a, b ensures Earns(l.earn, a, b) { RateEarns(l, perMinute, a, b); }
  }

  datatype Bucket = Bucket(tokens: real, last: real)

  datatype Taken = Taken(bucket: Bucket, ok: bool)

  /** A bucket at time `now`: refilled for the time that has passed, never above the burst. A clock that
      stands still or steps back changes nothing. */
  function Refilled(l: Limits, b: Bucket, now: real): Bucket
  {
    if now <= b.last then b else
    var tokens := b.tokens + l.earn(now - b.last);
    Bucket(if tokens > l.burst then l.burst else tokens, now)
  }

  /** One call on a key whose bucket is `slot`. */
  function Take(l: Limits, slot: Option<Bucket>, now: real): Taken
  {
    if slot == None then Taken(Bucket(l.burst - 1.0, now), true) else
    var b := Refilled(l, slot.value, now);
    if b.tokens < 1.0 then Taken(b, false) else Taken(b.(tokens := b.tokens - 1.0), true)
  }

  predicate Holds(l: Limits, slot: Option<Bucket>)
  {
    slot.Some? ==> 0.0 <= slot.value.tokens <= l.burst
  }

  lemma TakeHolds(l: Limits, slot: Option<Bucket>, now: real)
    requires l.Sane() && Holds(l, slot)
    ensures Holds(l, Some(Take(l, slot, now).bucket))
  {
    if slot.Some? { assert Earns(l.earn, slot.value.last, now); }
  }

  // ---- Consecutive calls on one key ----------------------------------------------------------

  function After(l: Limits, slot: Option<Bucket>, times: seq<real>): (r: Option<Bucket>)
    ensures times != [] ==> r.Some?
    decreases |times|
  {
    if times == [] then slot else
    Some(Take(l, After(l, slot, times[..|times| - 1]), times[|times| - 1]).bucket)
  }

  /** How many of the calls are allowed. */
  function Grants(l: Limits, slot: Option<Bucket>, times: seq<real>): nat
    decreases |times|
  {
    if times == [] then 0 else
    var n := |times| - 1;
    Grants(l, slot, times[..n]) + (if Take(l, After(l, slot, times[..n]), times[n]).ok then 1 else 0)
  }

  function Highest(times: seq<real>): (r: real)
    requires times != []
    ensures r in times && forall i :: 0 <= i < |times| ==> times[i] <= r
    decreases |times|
  {
    var n := |times| - 1;
    if n == 0 then times[0] else
    var h := Highest(times[..n]);
    if times[n] > h then times[n] else h
  }

  /** The calls allowed and the tokens left are together at most the burst and what was earned since the
      first reading, up to the last refill as well as up to the highest reading. */
  lemma {:induction false} Balance(l: Limits, slot: Option<Bucket>, times: seq<real>)
    requires l.Sane() && Holds(l, slot) && times != []
    ensures var b := After(l, slot, times).value;
      var gain := Grants(l, slot, times) as real + b.tokens - l.burst;
      && Holds(l, Some(b)) && times[0] <= b.last
      && gain <= l.earn(b.last) - l.earn(times[0]) && gain <= l.earn(Highest(times)) - l.earn(times[0])
    decreases |times|
  {
    var n := |times| - 1;
    if n == 0 {
      assert times[..n] == [];
      TakeHolds(l, slot, times[0]);
      FirstCall(l, slot, times[0]);
    } else {
      Balance(l, slot, times[..n]);
      OneCall(l, After(l, slot, times[..n]).value, times[n]);
      assert Earns(l.earn, Highest(times[..n]), Highest(times));
      assert Earns(l.earn, times[n], Highest(times));
    }
  }

  lemma FirstCall(l: Limits, slot: Option<Bucket>, now: real)
    requires l.Sane() && Holds(l, slot)
    ensures var t := Take(l, slot, now);
      && t.bucket.last >= now && l.earn(now) <= l.earn(t.bucket.last)
      && (if t.ok then 1.0 else 0.0) + t.bucket.tokens <= l.burst
  {
    assert Earns(l.earn, now, Take(l, slot, now).bucket.last);
  }

  lemma OneCall(l: Limits, b: Bucket, now: real)
    requires l.Sane() && Holds(l, Some(b))
    ensures var t := Take(l, Some(b), now);
      var last := if now <= b.last then b.last else now;
      && Holds(l, Some(t.bucket)) && t.bucket.last == last
      && (if t.ok then 1.0 else 0.0) + t.bucket.tokens <= b.tokens + (l.earn(last) - l.earn(b.last))
  {
    assert Earns(l.earn, b.last, now);
  }

  /** The rate bound for consecutive calls on a key, from any state of its bucket and whatever the clock
      does. */
  lemma GrantsBounded(l: Limits, slot: Option<Bucket>, times: seq<real>)
    requires l.Sane() && Holds(l, slot) && times != []
    ensures Grants(l, slot, times) as real <= l.burst + l.earn(Highest(times) - times[0])
  {
    Balance(l, slot, times);
    assert Earns(l.earn, times[0], Highest(times));
  }

  /** The bound is met: of calls at one instant on a new key exactly the burst is allowed. */
  lemma {:induction false} BurstExact(l: Limits, times: seq<real>, burst: nat)
    requires l.Sane() && l.burst == burst as real && forall i :: 0 <= i < |times| ==> times[i] == times[0]
    ensures Grants(l, None, times) == if |times| <= burst then |times| else burst
    ensures times != [] ==> After(l, None, times).value.last == times[0]
    ensures times != [] ==> After(l, None, times).value.tokens == if |times| <= burst then (burst - |times|) as real else 0.0
    decreases |times|
  {
    if |times| > 0 {
      var n := |times| - 1;
      BurstExact(l, times[..n], burst);
      if n > 0 { assert times[..n][0] == times[0] && times[n] == times[0]; }
    }
  }

  /** A key gets through again once the time for a token has passed. */
  lemma PatienceRewarded(l: Limits, b: Bucket, now: real)
    requires l.Sane() && 0.0 <= b.tokens <= l.burst && l.earn(now - b.last) >= 1.0
    ensures Take(l, Some(b), now).ok
  {
    assert Earns(l.earn, now, b.last) && Earns(l.earn, b.last, now);
  }

  // ---- No token is lost but at the burst -----------------------------------------------------

  /** What a call at a time cuts off because the bucket is full. */
  function Cut(l: Limits, b: Bucket, now: real): real
  {
    var full := b.tokens + l.earn(now - b.last) - l.burst;
    if now > b.last && full > 0.0 then full else 0.0
  }

  /** What consecutive calls cut off in all. */
  function AllCut(l: Limits, b: Bucket, times: seq<real>): real
    decreases |times|
  {
    if times == [] then 0.0 else
    var rest := times[..|times| - 1];
    AllCut(l, b, rest) + Cut(l, After(l, Some(b), rest).value, times[|times| - 1])
  }

  /** Every token that was there or is earned is spent on a call, left, or cut off at the burst. */
  lemma {:induction false} Conserved(l: Limits, b: Bucket, times: seq<real>)
    requires l.Sane()
    ensures var after := After(l, Some(b), times).value;
      && b.last <= after.last
      && Grants(l, Some(b), times) as real + after.tokens + AllCut(l, b, times) == b.tokens + (l.earn(after.last) - l.earn(b.last))
    decreases |times|
  {
    if times != [] {
      var n := |times| - 1;
      Conserved(l, b, times[..n]);
      OneConserved(l, After(l, Some(b), times[..n]).value, times[n]);
    }
  }

  lemma OneConserved(l: Limits, b: Bucket, now: real)
    requires l.Sane()
    ensures var t := Take(l, Some(b), now);
      && t.bucket.last == (if now > b.last then now else b.last)
      && (if t.ok then 1.0 else 0.0) + t.bucket.tokens + Cut(l, b, now) == b.tokens + (l.earn(t.bucket.last) - l.earn(b.last))
  {
    assert Earns(l.earn, b.last, now);
  }

  /** The first call on a key finds a full bucket. */
  lemma {:induction false} NewKeyIsFull(l: Limits, times: seq<real>)
    requires l.Sane() && times != []
    ensures After(l, None, times) == After(l, Some(Bucket(l.burst, times[0])), times)
    ensures Grants(l, None, times) == Grants(l, Some(Bucket(l.burst, times[0])), times)
    decreases |times|
  {
    var n := |times| - 1;
    if n == 0 {
      assert times[..n] == [];
    } else {
      assert times[..n][0] == times[0];
      NewKeyIsFull(l, times[..n]);
    }
  }

  /** The balance of a new key: calls allowed and tokens left are the burst and what was earned from the first
      reading to the last refill, less what was cut off. */
  lemma NewKeyConserved(l: Limits, times: seq<real>)
    requires l.Sane() && times != []
    ensures var after := After(l, None, times).value;
      Grants(l, None, times) as real + after.tokens + AllCut(l, Bucket(l.burst, times[0]), times) == l.burst + (l.earn(after.last) - l.earn(times[0]))
  {
    NewKeyIsFull(l, times);
    Conserved(l, Bucket(l.burst, times[0]), times);
  }

  // ---- Which calls are all allowed -----------------------------------------------------------

  /** The highest reading up to the i-th. */
  function HighestTo(times: seq<real>, i: nat): real
    requires i < |times|
  {
    Highest(times[..i + 1])
  }

  /** The calls from the i-th to the j-th are no more than the burst and what is earned meanwhile. */
  predicate Fits(l: Limits, times: seq<real>, i: nat, j: nat)
    requires i <= j < |times|
  {
    (j - i + 1) as real <= l.burst + (l.earn(HighestTo(times, j)) - l.earn(HighestTo(times, i)))
  }

  ghost predicate Conforms(l: Limits, times: seq<real>)
  {
    forall i, j :: 0 <= i <= j < |times| ==> Fits(l, times, i, j)
  }

  /** What is left to spend since the i-th call, if all were allowed. */
  function Room(l: Limits, times: seq<real>, i: nat): real
    requires i < |times|
  {
    l.burst + (l.earn(HighestTo(times, |times| - 1)) - l.earn(HighestTo(times, i))) - (|times| - i) as real
  }

  function Rooms(l: Limits, times: seq<real>): (rooms: seq<real>)
    ensures |rooms| == |times| && forall i :: 0 <= i < |times| ==> rooms[i] == Room(l, times, i)
  {
    seq(|times|, i requires 0 <= i < |times| => Room(l, times, i))
  }

  predicate Least(t: real, rooms: seq<real>)
  {
    (forall i :: 0 <= i < |rooms| ==> t <= rooms[i]) && exists i :: 0 <= i < |rooms| && t == rooms[i]
  }

  /** As long as all calls are allowed, the bucket holds the least room. */
  predicate LeastRoom(l: Limits, times: seq<real>, b: Bucket)
    requires times != []
  {
    b.last == HighestTo(times, |times| - 1) && Least(b.tokens, Rooms(l, times))
  }

  /** Every room grows by what is earned and shrinks by the call, and never beyond a full bucket. */
  lemma LeastNext(t: real, rooms: seq<real>, rooms': seq<real>, gain: real, burst: real)
    requires Least(t, rooms) && |rooms'| == |rooms| + 1
    requires (forall i :: 0 <= i < |rooms| ==> rooms'[i] == rooms[i] + gain - 1.0) && rooms'[|rooms|] == burst - 1.0
    ensures Least((if t + gain > burst then burst else t + gain) - 1.0, rooms')
  {
    var k :| 0 <= k < |rooms| && t == rooms[k];
    var w := if t + gain > burst then |rooms| else k;
    assert rooms'[w] == (if t + gain > burst then burst else t + gain) - 1.0;
  }

  lemma RoomNext(l: Limits, times: seq<real>, i: nat)
    requires i < |times| - 1
    ensures var n := |times| - 1;
      && HighestTo(times, n) == (if times[n] > HighestTo(times[..n], n - 1) then times[n] else HighestTo(times[..n], n - 1))
      && Room(l, times, i) == Room(l, times[..n], i) + (l.earn(HighestTo(times, n)) - l.earn(HighestTo(times[..n], n - 1))) - 1.0
  {
    var n := |times| - 1;
    assert times[..n][..i + 1] == times[..i + 1];
    assert times[..n][..n] == times[..n] && times[..n + 1] == times;
  }

  lemma ConformsPrefix(l: Limits, times: seq<real>)
    requires times != []
    ensures var n := |times| - 1;
      Conforms(l, times) <==> Conforms(l, times[..n]) && FitsNow(l, times)
  {
    var n := |times| - 1;
    forall i, j | 0 <= i <= j < n ensures Fits(l, times[..n], i, j) <==> Fits(l, times, i, j) {
      assert times[..n][..i + 1] == times[..i + 1] && times[..n][..j + 1] == times[..j + 1];
    }
  }

  lemma RoomFits(l: Limits, times: seq<real>, i: nat)
    requires i < |times|
    ensures Fits(l, times, i, |times| - 1) <==> Room(l, times, i) >= 0.0
  {
  }

  /** Room since the call itself. */
  lemma RoomLast(l: Limits, times: seq<real>)
    requires times != []
    ensures Room(l, times, |times| - 1) == l.burst - 1.0
  {
  }

  /** The call fits with all before it. */
  ghost predicate FitsNow(l: Limits, times: seq<real>)
  {
    var n := |times| - 1;
    forall i :: 0 <= i <= n ==> Fits(l, times, i, n)
  }

  /** What is earned between the last refill and a call. */
  function Gain(l: Limits, b: Bucket, now: real): real
  {
    if now > b.last then l.earn(now) - l.earn(b.last) else 0.0
  }

  lemma RefilledGain(l: Limits, b: Bucket, now: real)
    requires l.Sane() && b.tokens <= l.burst
    ensures var r := Refilled(l, b, now);
      && r.tokens == (if b.tokens + Gain(l, b, now) > l.burst then l.burst else b.tokens + Gain(l, b, now))
      && r.last == (if now > b.last then now else b.last)
  {
    assert Earns(l.earn, b.last, now);
  }

  lemma RoomGain(l: Limits, times: seq<real>, b: Bucket, i: nat)
    requires i < |times| - 1 && b.last == HighestTo(times[..|times| - 1], |times| - 2)
    ensures Room(l, times, i) == Room(l, times[..|times| - 1], i) + Gain(l, b, times[|times| - 1]) - 1.0
  {
    RoomNext(l, times, i);
  }

  /** What a refill leaves, when the bucket held the least room. */
  lemma RefilledRoom(l: Limits, times: seq<real>, b: Bucket)
    requires l.Sane() && |times| > 1 && LeastRoom(l, times[..|times| - 1], b)
    ensures var r := Refilled(l, b, times[|times| - 1]);
      LeastRoom(l, times, r.(tokens := r.tokens - 1.0))
  {
    var n := |times| - 1;
    var before := times[..n];
    RoomLast(l, times);
    RoomLast(l, before);
    assert b.tokens <= Rooms(l, before)[n - 1];
    RefilledGain(l, b, times[n]);
    RoomNext(l, times, n - 1);
    forall i | 0 <= i < n ensures Rooms(l, times)[i] == Rooms(l, before)[i] + Gain(l, b, times[n]) - 1.0 { RoomGain(l, times, b, i); }
    LeastNext(b.tokens, Rooms(l, before), Rooms(l, times), Gain(l, b, times[n]), l.burst);
  }

  lemma LeastFits(l: Limits, times: seq<real>, t: real)
    requires times != [] && Least(t, Rooms(l, times))
    ensures t >= 0.0 <==> FitsNow(l, times)
  {
    var n := |times| - 1;
    if t >= 0.0 {
      forall i | 0 <= i <= n ensures Fits(l, times, i, n) {
        assert t <= Rooms(l, times)[i];
        RoomFits(l, times, i);
      }
    } else {
      var k :| 0 <= k <= n && t == Rooms(l, times)[k];
      RoomFits(l, times, k);
      assert !Fits(l, times, k, n);
    }
  }

  /** A call is allowed if and only if it fits with all before it. */
  lemma NextFits(l: Limits, times: seq<real>, b: Bucket)
    requires l.Sane() && |times| > 1 && LeastRoom(l, times[..|times| - 1], b)
    ensures var t := Take(l, Some(b), times[|times| - 1]);
      && (t.ok <==> FitsNow(l, times))
      && (t.ok ==> LeastRoom(l, times, t.bucket))
  {
    RefilledRoom(l, times, b);
    LeastFits(l, times, Refilled(l, b, times[|times| - 1]).tokens - 1.0);
  }

  lemma {:induction false} AtMostAll(l: Limits, slot: Option<Bucket>, times: seq<real>)
    ensures Grants(l, slot, times) <= |times|
    decreases |times|
  {
    if times != [] { AtMostAll(l, slot, times[..|times| - 1]); }
  }

  /** The first call on a key. */
  lemma OneFits(l: Limits, times: seq<real>)
    requires l.Sane() && |times| == 1
    ensures Grants(l, None, times) == 1 && Conforms(l, times) && LeastRoom(l, times, After(l, None, times).value)
  {
    assert times[..0] == [] && times[..1] == times;
    RoomLast(l, times);
    RoomFits(l, times, 0);
    assert After(l, None, times).value == Bucket(l.burst - 1.0, times[0]);
    assert Rooms(l, times)[0] == l.burst - 1.0;
  }

  /** All calls on a new key are allowed if and only if between any two of them no more are made than the
      burst and what is earned meanwhile, whatever the clock does. */
  lemma {:induction false} AllowedExactly(l: Limits, times: seq<real>)
    requires l.Sane()
    ensures Grants(l, None, times) == |times| <==> Conforms(l, times)
    ensures times != [] && Grants(l, None, times) == |times| ==> LeastRoom(l, times, After(l, None, times).value)
    decreases |times|
  {
    if |times| == 1 {
      OneFits(l, times);
    } else if |times| > 1 {
      var n := |times| - 1;
      AllowedExactly(l, times[..n]);
      AtMostAll(l, None, times[..n]);
      ConformsPrefix(l, times);
      if Grants(l, None, times[..n]) == n { NextFits(l, times, After(l, None, times[..n]).value); }
    }
  }

  /** In particular the first calls on a new key, as many as the burst, are allowed at whatever times. */
  lemma BurstAllowed(l: Limits, times: seq<real>)
    requires l.Sane() && |times| as real <= l.burst
    ensures Grants(l, None, times) == |times|
  {
    forall i, j | 0 <= i <= j < |times| ensures Fits(l, times, i, j) {
      HighestGrows(times, i, j);
      assert Earns(l.earn, HighestTo(times, i), HighestTo(times, j));
    }
    AllowedExactly(l, times);
  }

  lemma HighestGrows(times: seq<real>, i: nat, j: nat)
    requires i <= j < |times|
    ensures HighestTo(times, i) <= HighestTo(times, j)
  {
    var k :| 0 <= k < i + 1 && times[..i + 1][k] == HighestTo(times, i);
    assert times[..j + 1][k] == HighestTo(times, i);
  }

  // ---- Calls on many keys --------------------------------------------------------------------

  datatype Call = Call(key: string, now: real)

  function Slot(buckets: map<string, Bucket>, key: string): Option<Bucket>
  {
    if key in buckets then Some(buckets[key]) else None
  }

  function Step(l: Limits, buckets: map<string, Bucket>, call: Call): map<string, Bucket>
  {
    buckets[call.key := Take(l, Slot(buckets, call.key), call.now).bucket]
  }

  function Run(l: Limits, buckets: map<string, Bucket>, calls: seq<Call>): map<string, Bucket>
    decreases |calls|
  {
    if calls == [] then buckets else Step(l, Run(l, buckets, calls[..|calls| - 1]), calls[|calls| - 1])
  }

  function Verdict(l: Limits, buckets: map<string, Bucket>, call: Call): bool
  {
    Take(l, Slot(buckets, call.key), call.now).ok
  }

  /** The allowed calls on one key in a run over all keys. */
  function Granted(l: Limits, buckets: map<string, Bucket>, calls: seq<Call>, key: string): nat
    decreases |calls|
  {
    if calls == [] then 0 else
    var rest, call := calls[..|calls| - 1], calls[|calls| - 1];
    Granted(l, buckets, rest, key) + (if call.key == key && Verdict(l, Run(l, buckets, rest), call) then 1 else 0)
  }

  function TimesOf(calls: seq<Call>, key: string): seq<real>
    decreases |calls|
  {
    if calls == [] then [] else
    TimesOf(calls[..|calls| - 1], key) + (if calls[|calls| - 1].key == key then [calls[|calls| - 1].now] else [])
  }

  /** What happens to a key does not depend on other keys. */
  lemma {:induction false} Independent(l: Limits, buckets: map<string, Bucket>, calls: seq<Call>, key: string)
    ensures Slot(Run(l, buckets, calls), key) == After(l, Slot(buckets, key), TimesOf(calls, key))
    ensures Granted(l, buckets, calls, key) == Grants(l, Slot(buckets, key), TimesOf(calls, key))
    decreases |calls|
  {
    if calls != [] {
      var rest, call := calls[..|calls| - 1], calls[|calls| - 1];
      Independent(l, buckets, rest, key);
      var times := TimesOf(rest, key);
      if call.key == key {
        assert (times + [call.now])[..|times|] == times;
      } else {
        assert times + [] == times;
      }
    }
  }

  ghost predicate AllHold(l: Limits, buckets: map<string, Bucket>)
  {
    forall key :: key in buckets ==> 0.0 <= buckets[key].tokens <= l.burst
  }

  lemma StepHolds(l: Limits, buckets: map<string, Bucket>, call: Call)
    requires l.Sane() && AllHold(l, buckets)
    ensures AllHold(l, Step(l, buckets, call))
  {
    TakeHolds(l, Slot(buckets, call.key), call.now);
  }

  /** Over any run from any state, interleaved with calls on any other keys, the calls allowed on a key
      are at most the burst and what is earned from its first to its highest clock reading. */
  lemma RateBound(l: Limits, buckets: map<string, Bucket>, calls: seq<Call>, key: string)
    requires l.Sane() && AllHold(l, buckets) && TimesOf(calls, key) != []
    ensures var times := TimesOf(calls, key);
      Granted(l, buckets, calls, key) as real <= l.burst + l.earn(Highest(times) - times[0])
  {
    Independent(l, buckets, calls, key);
    GrantsBounded(l, Slot(buckets, key), TimesOf(calls, key));
  }

  /** Of a run of a new limiter, interleaved with calls on any other keys, all calls on a key are allowed if
      and only if they conform. */
  lemma RunAllowedExactly(l: Limits, calls: seq<Call>, key: string)
    requires l.Sane()
    ensures Granted(l, map[], calls, key) == |TimesOf(calls, key)| <==> Conforms(l, TimesOf(calls, key))
  {
    Independent(l, map[], calls, key);
    AllowedExactly(l, TimesOf(calls, key));
  }

  method TakeFrom(given: Bucket, now: real, perMinute: real, burst: real) returns (bucket: Bucket, ok: bool)
    ensures Taken(bucket, ok) == Take(Limits(AtRate(perMinute), burst), Some(given), now)
  {
    bucket := given;
    var elapsed := now - bucket.last;
    if elapsed > 0.0 {
      bucket := bucket.(tokens := bucket.tokens + elapsed * perMinute);
      if bucket.tokens > burst { bucket := bucket.(tokens := burst); }
      bucket := bucket.(last := now);
    }
    if bucket.tokens < 1.0 { return bucket, false; }
    return bucket.(tokens := bucket.tokens - 1.0), true;
  }

  lemma Spent(l: Limits, perMinute: real, granted: nat, first: real, highest: real)
    requires PerMinute(l, perMinute) && granted as real <= l.burst + l.earn(highest - first)
    ensures granted as real <= l.burst + (highest - first) * perMinute
  {
    assert Pays(l, perMinute, highest - first);
  }

  lemma EarnedBound(perMinute: real, l: Limits, buckets: map<string, Bucket>, calls: seq<Call>, key: string)
    requires PerMinute(l, perMinute) && AllHold(l, buckets) && TimesOf(calls, key) != []
    ensures var times := TimesOf(calls, key);
      Granted(l, buckets, calls, key) as real <= l.burst + l.earn(Highest(times) - times[0])
  {
    SaneRate(l, perMinute);
    RateBound(l, buckets, calls, key);
  }

  /** At a positive rate per minute the bound is the burst and the rate times the span from the first
      reading to the highest. */
  lemma RatePerMinute(perMinute: real, l: Limits, buckets: map<string, Bucket>, calls: seq<Call>, key: string, first: real, highest: real)
    requires PerMinute(l, perMinute) && AllHold(l, buckets) && TimesOf(calls, key) != []
    requires first == TimesOf(calls, key)[0] && highest == Highest(TimesOf(calls, key))
    ensures Granted(l, buckets, calls, key) as real <= l.burst + (highest - first) * perMinute
  {
    EarnedBound(perMinute, l, buckets, calls, key);
    Spent(l, perMinute, Granted(l, buckets, calls, key), first, highest);
  }

  class RateLimiter {
    var perMinute: real
    var burst: real
    var buckets: map<string, Bucket>

    ghost function Rate(): (l: Limits)
      reads this`perMinute, this`burst
    {
      Limits(AtRate(perMinute), burst)
    }

    ghost predicate Valid()
      reads this
    {
      perMinute > 0.0 && burst >= 1.0 && AllHold(Rate(), buckets)
    }

    /** Sixty a minute and twenty at once, unless said otherwise. */
    constructor (perMinute: int, burst: int)
      ensures Valid() && buckets == map[]
      ensures this.perMinute == (if perMinute <= 0 then 60.0 else perMinute as real)
      ensures this.burst == (if burst <= 0 then 20.0 else burst as real)
    {
      this.perMinute := if perMinute <= 0 then 60.0 else perMinute as real;
      this.burst := if burst <= 0 then 20.0 else burst as real;
      buckets := map[];
    }

    method Allow(key: string, now: real) returns (ok: bool)
      requires Valid()
      modifies this`buckets
      ensures Valid() && buckets == old(Step(Rate(), buckets, Call(key, now)))
      ensures ok == old(Verdict(Rate(), buckets, Call(key, now)))
    {
      AtRatePays(perMinute, burst);
      SaneRate(Rate(), perMinute);
      StepHolds(Rate(), buckets, Call(key, now));
      if key !in buckets {
        buckets := buckets[key := Bucket(burst - 1.0, now)];
        return true;
      }
      var bucket;
      bucket, ok := TakeFrom(buckets[key], now, perMinute, burst);
      buckets := buckets[key := bucket];
    }
  }
}
