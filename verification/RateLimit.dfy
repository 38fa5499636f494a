/** The request limiter: fixed windows of 60 seconds for each key, least recently touched keys evicted
    first (distributedai/presentation/mcp.py). */
module RateLimit {
  import opened Base

  type Key = string

  const WINDOW := 60.0
  const MAX_KEYS := 10000
  const LOGIN_BUDGET := 10

  /** When the window of a key began, and how often it was touched since. */
  datatype Bucket = Bucket(started: real, count: nat)

  /** What a touch makes of a bucket: a window that is over, or that never began, begins now. */
  function Touched(old_: Option<Bucket>, now: real): Bucket {
    if old_.None? || now - old_.value.started >= WINDOW then Bucket(now, 1)
    else Bucket(old_.value.started, old_.value.count + 1)
  }

  // ---------------------------------------------------------------- one key over its whole history

  /** The bucket after a sequence of touches. */
  function BucketAfter(times: seq<real>): Bucket
    requires times != []
  {
    var n := |times| - 1;
    Touched(if n == 0 then None else Some(BucketAfter(times[..n])), times[n])
  }

  /** The last touch found the window not yet exhausted. */
  predicate LastPassed(times: seq<real>, budget: nat)
    requires times != []
  {
    BucketAfter(times).count - 1 < budget
  }

  /** A clock that never goes back. */
  ghost predicate Monotone(times: seq<real>) {
    forall i, j :: 0 <= i < j < |times| ==> times[i] <= times[j]
  }

  /** How many touches passed within the half-open interval of 60 seconds from `a`. */
  function PassedIn(times: seq<real>, budget: nat, a: real): nat {
    if times == [] then 0
    else
      var n := |times| - 1;
      PassedIn(times[..n], budget, a) + (if a <= times[n] < a + WINDOW && LastPassed(times, budget) then 1 else 0)
  }

  /** How many touches passed in the window that began at `s`. */
  function PassedInWindow(times: seq<real>, budget: nat, s: real): nat {
    if times == [] then 0
    else
      var n := |times| - 1;
      PassedInWindow(times[..n], budget, s) + (if BucketAfter(times).started == s && LastPassed(times, budget) then 1 else 0)
  }

  function Min(a: nat, b: nat): nat { if a <= b then a else b }

  lemma {:induction false} StartedBefore(times: seq<real>)
    requires times != [] && Monotone(times)
    ensures BucketAfter(times).started <= times[|times| - 1] && BucketAfter(times).count >= 1
    decreases |times|
  {
    var n := |times| - 1;
    if n > 0 { StartedBefore(times[..n]); }
  }

  /** The most that a window from before the interval can still admit inside it: its first touch came earlier. */
  function Leftover(passes: nat): nat { if passes == 0 then 0 else passes - 1 }

  /** Before the interval nothing counts; a window from before it adds less than one budget, a window
      that began inside it at most one more, and every later touch lies outside. */
  lemma {:induction false} PassedBound(times: seq<real>, budget: nat, a: real)
    requires times != [] && Monotone(times)
    ensures var b := BucketAfter(times); var p := PassedIn(times, budget, a);
      && (times[|times| - 1] < a ==> p == 0)
      && (b.started < a ==> p <= Leftover(Min(b.count, budget)))
      && (a <= b.started < a + WINDOW ==> p <= Leftover(budget) + Min(b.count, budget))
      && p <= Leftover(2 * budget)
    decreases |times|
  {
    var n := |times| - 1;
    StartedBefore(times);
    if n > 0 {
      PassedBound(times[..n], budget, a);
      StartedBefore(times[..n]);
      assert times[n - 1] <= times[n];
    } else {
      assert PassedIn(times[..0], budget, a) == 0;
    }
  }

  /** Any half-open 60-second interval admits at most twice the budget, and in fact less than that. */
  lemma TwiceTheBudget(times: seq<real>, budget: nat, a: real)
    requires Monotone(times)
    ensures PassedIn(times, budget, a) <= Leftover(2 * budget) <= 2 * budget
  {
    if times != [] { PassedBound(times, budget, a); }
  }

  lemma {:induction false} WindowBound(times: seq<real>, budget: nat, s: real)
    requires times != [] && Monotone(times)
    ensures var b := BucketAfter(times); var p := PassedInWindow(times, budget, s);
      && p <= budget
      && (s == b.started ==> p == Min(b.count, budget))
      && (s > b.started ==> p == 0)
    decreases |times|
  {
    var n := |times| - 1;
    StartedBefore(times);
    if n > 0 {
      WindowBound(times[..n], budget, s);
      StartedBefore(times[..n]);
      assert times[n - 1] <= times[n];
    } else {
      assert PassedInWindow(times[..0], budget, s) == 0;
    }
  }

  /** Each window admits at most the budget. */
  lemma WindowWithinBudget(times: seq<real>, budget: nat, s: real)
    requires Monotone(times)
    ensures PassedInWindow(times, budget, s) <= budget
  {
    if times != [] { WindowBound(times, budget, s); }
  }

  /** One touch opens a window, the rest of the budget comes at its end, and a whole budget in the next. */
  function TightTimes(budget: nat, n: nat): seq<real> {
    seq(n, i => if i == 0 then 0.0 else if i < budget then 59.0 else 60.0)
  }

  lemma {:induction false} TightPasses(budget: nat, n: nat)
    requires 0 < n <= 2 * budget
    ensures BucketAfter(TightTimes(budget, n)) == if n <= budget then Bucket(0.0, n) else Bucket(60.0, n - budget)
    ensures PassedIn(TightTimes(budget, n), budget, 1.0) == n - 1
  {
    assert TightTimes(budget, n)[..n - 1] == TightTimes(budget, n - 1);
    if n > 1 { TightPasses(budget, n - 1); }
  }

  /** The bound is tight for every budget: some history and interval admit one less than twice the budget. */
  lemma BoundIsReached(budget: nat)
    requires budget > 0
    ensures exists times, a :: Monotone(times) && PassedIn(times, budget, a) == 2 * budget - 1
  {
    TightPasses(budget, 2 * budget);
    assert Monotone(TightTimes(budget, 2 * budget));
  }

  // ---------------------------------------------------------------- the limiter

  function Budget(rpm: nat, key: Key): nat {
    if "login:" <= key then Min(rpm, LOGIN_BUDGET) else rpm
  }

  /** A sign-in key passes at most ten times in a window and nineteen in any minute, whatever the general
      budget; every other key has the general budget. */
  lemma SignInBudget(rpm: nat, key: Key, times: seq<real>, a: real, s: real)
    requires Monotone(times)
    ensures WINDOW == 60.0
    ensures "login:" <= key ==>
      && Budget(rpm, key) <= rpm
      && PassedInWindow(times, Budget(rpm, key), s) <= 10
      && PassedIn(times, Budget(rpm, key), a) <= 19
      && (rpm >= 10 ==> Budget(rpm, key) == 10)
      && (rpm < 10 ==> Budget(rpm, key) == rpm)
    ensures !("login:" <= key) ==> Budget(rpm, key) == rpm
  {
    WindowWithinBudget(times, Budget(rpm, key), s);
    TwiceTheBudget(times, Budget(rpm, key), a);
  }

  /** The order with one key taken out. */
  function Without(order: seq<Key>, key: Key): seq<Key> {
    if order == [] then []
    else if order[0] == key then order[1..]
    else [order[0]] + Without(order[1..], key)
  }

  predicate Distinct(order: seq<Key>) {
    forall i, j :: 0 <= i < j < |order| ==> order[i] != order[j]
  }

  lemma Front(order: seq<Key>)
    requires order != [] && Distinct(order)
    ensures Distinct(order[1..]) && order[0] !in order[1..]
  {
    assert forall i :: 0 <= i < |order| - 1 ==> order[1..][i] == order[i + 1];
  }

  lemma Prepended(first: Key, rest: seq<Key>)
    requires Distinct(rest) && first !in rest
    ensures Distinct([first] + rest)
  {
    assert forall i :: 0 <= i < |rest| ==> rest[i] in rest;
  }

  lemma {:induction false} WithoutKeeps(order: seq<Key>, key: Key)
    requires Distinct(order)
    ensures Distinct(Without(order, key))
    ensures forall k :: k in Without(order, key) <==> k in order && k != key
  {
    hide Distinct;
    if order != [] {
      var rest := order[1..];
      assert order == [order[0]] + rest;
      Front(order);
      if order[0] != key {
        WithoutKeeps(rest, key);
        Prepended(order[0], Without(rest, key));
      }
    }
  }

  type Buckets = map<Key, Bucket>
  type Histories = map<Key, seq<real>>
  type Moments = map<Key, nat>

  /** Order and table hold the same keys, each once. */
  ghost predicate Keyed(order: seq<Key>, buckets: Buckets) {
    Distinct(order) && forall k :: k in order <==> k in buckets
  }

  /** Every bucket is the outcome of the key's whole history. */
  ghost predicate Tracked(buckets: Buckets, history: Histories, latest: real) {
    && history.Keys == buckets.Keys
    && forall k :: k in buckets ==>
         history[k] != [] && Monotone(history[k]) && history[k][|history[k]| - 1] <= latest && buckets[k] == BucketAfter(history[k])
  }

  /** The order is the order of the last touches. */
  ghost predicate ByLastTouch(order: seq<Key>, lastTouch: Moments, touches: nat) {
    && (forall k :: k in order ==> k in lastTouch && lastTouch[k] < touches)
    && (forall i, j :: 0 <= i < j < |order| ==> lastTouch[order[i]] < lastTouch[order[j]])
  }

  lemma TouchKeyed(order: seq<Key>, buckets: Buckets, key: Key, b: Bucket)
    requires Keyed(order, buckets)
    ensures Keyed(Without(order, key) + [key], buckets[key := b])
  {
    WithoutKeeps(order, key);
    var out := Without(order, key);
    forall k ensures k in out + [key] <==> k in buckets[key := b] { assert k in out + [key] <==> k in out || k == key; }
    assert forall i :: 0 <= i < |out| ==> out[i] in out;
  }

  lemma TouchTracked(buckets: Buckets, history: Histories, latest: real, key: Key, now: real)
    requires Tracked(buckets, history, latest) && latest <= now
    ensures var times := (if key in history then history[key] else []) + [now];
      && Tracked(buckets[key := BucketAfter(times)], history[key := times], now)
      && BucketAfter(times) == Touched(if key in buckets then Some(buckets[key]) else None, now)
  {
    var before := if key in history then history[key] else [];
    assert (before + [now])[..|before|] == before;
  }

  lemma TouchByLast(order: seq<Key>, lastTouch: Moments, touches: nat, key: Key)
    requires Distinct(order) && ByLastTouch(order, lastTouch, touches)
    ensures ByLastTouch(Without(order, key) + [key], lastTouch[key := touches], touches + 1)
  {
    var out := Without(order, key);
    WithoutByLast(order, lastTouch, touches, key);
    hide Without;
    assert forall i :: 0 <= i < |out| ==> out[i] in out;
  }

  /** Taking a key out leaves the others in the order of their last touches. */
  lemma {:induction false} WithoutByLast(order: seq<Key>, lastTouch: Moments, touches: nat, key: Key)
    requires Distinct(order) && ByLastTouch(order, lastTouch, touches)
    ensures ByLastTouch(Without(order, key), lastTouch, touches) && key !in Without(order, key)
    decreases |order|
  {
    WithoutKeeps(order, key);
    if order != [] {
      var rest := order[1..];
      EvictByLast(order, lastTouch, touches);
      assert Distinct(rest);
      WithoutByLast(rest, lastTouch, touches, key);
      WithoutKeeps(rest, key);
      if order[0] != key { FirstByLast(order[0], Without(rest, key), lastTouch, touches); }
    }
  }

  lemma FirstByLast(first: Key, rest: seq<Key>, lastTouch: Moments, touches: nat)
    requires ByLastTouch(rest, lastTouch, touches) && first in lastTouch && lastTouch[first] < touches
    requires forall k :: k in rest ==> lastTouch[first] < lastTouch[k]
    ensures ByLastTouch([first] + rest, lastTouch, touches)
  {
    assert forall i :: 0 <= i < |rest| ==> rest[i] in rest;
  }

  lemma EvictKeyed(order: seq<Key>, buckets: Buckets)
    requires order != [] && Keyed(order, buckets)
    ensures order[0] in buckets && Keyed(order[1..], buckets - {order[0]}) && order[0] !in order[1..]
  {
    assert order == [order[0]] + order[1..];
    assert order[0] in order;
    assert forall i :: 0 <= i < |order| - 1 ==> order[1..][i] == order[i + 1];
  }

  lemma EvictTracked(buckets: Buckets, history: Histories, latest: real, key: Key)
    requires Tracked(buckets, history, latest)
    ensures Tracked(buckets - {key}, history - {key}, latest)
  {
    hide BucketAfter, Monotone;
  }

  lemma EvictByLast(order: seq<Key>, lastTouch: Moments, touches: nat)
    requires order != [] && ByLastTouch(order, lastTouch, touches)
    ensures ByLastTouch(order[1..], lastTouch, touches)
    ensures order[0] in lastTouch && forall k :: k in order[1..] ==> k in lastTouch && lastTouch[order[0]] < lastTouch[k]
  {
    var rest := order[1..];
    assert order[0] in order;
    assert forall i :: 0 <= i < |rest| ==> rest[i] == order[i + 1] && order[i + 1] in order;
  }

  /** The table of buckets with its order of use. */
  class Limits {
    const rpm: nat
    var buckets: map<Key, Bucket>
    var order: seq<Key>                          // least recently touched first
    ghost var history: map<Key, seq<real>>       // the touches of every key since it was last inserted
    ghost var lastTouch: map<Key, nat>           // when a key was last touched, counted in touches
    ghost var touches: nat
    ghost var latest: real

    ghost predicate Valid()
      reads this
    {
      Keyed(order, buckets) && Tracked(buckets, history, latest) && ByLastTouch(order, lastTouch, touches)
    }

    constructor (rpm: nat, now: real)
      ensures Valid() && this.rpm == rpm && buckets == map[] && latest == now
    {
      this.rpm := rpm;
      buckets, order, history, lastTouch, touches, latest := map[], [], map[], map[], 0, now;
    }

    /** Pop a key, renew its window when it is over, and put it back as the most recent one. */
    method Touch(key: Key, now: real) returns (passed: bool)
      requires Valid() && latest <= now
      modifies this
      ensures Valid() && latest == now && key in buckets
      ensures buckets == old(buckets)[key := Touched(if key in old(buckets) then Some(old(buckets)[key]) else None, now)]
      ensures order == Without(old(order), key) + [key]
      ensures history == old(history)[key := (if key in old(history) then old(history)[key] else []) + [now]]
      ensures passed <==> LastPassed(history[key], Budget(rpm, key))
    {
      hide Keyed, Tracked, ByLastTouch, Monotone, BucketAfter;
      ghost var times := (if key in history then history[key] else []) + [now];
      SameKeys(buckets, history, latest);
      assert Distinct(order) by { KeyedDistinct(order, buckets); }
      TouchTracked(buckets, history, latest, key, now);
      TouchKeyed(order, buckets, key, BucketAfter(times));
      TouchByLast(order, lastTouch, touches, key);
      var started, count := now, 0;
      if key in buckets { started, count := buckets[key].started, buckets[key].count; }
      order := Without(order, key);
      if now - started >= WINDOW { started, count := now, 0; }
      buckets := buckets[key := Bucket(started, count + 1)];
      order := order + [key];
      history := history[key := times];
      lastTouch, touches, latest := lastTouch[key := touches], touches + 1, now;
      passed := count < Budget(rpm, key);
    }

    /** `popitem(last=False)`: the evicted key was touched before every key that stays. */
    method Evict() returns (key: Key)
      requires Valid() && order != []
      modifies `order, `buckets, `history
      ensures Valid() && key == old(order)[0] && key in old(buckets)
      ensures buckets == old(buckets) - {key} && order == old(order)[1..] && history == old(history) - {key}
      ensures key in lastTouch && forall k :: k in order ==> k in lastTouch && lastTouch[key] < lastTouch[k]
    {
      hide Keyed, Tracked, ByLastTouch, BucketAfter;
      key := order[0];
      EvictKeyed(order, buckets);
      EvictTracked(buckets, history, latest, key);
      EvictByLast(order, lastTouch, touches);
      order, buckets, history := order[1..], buckets - {key}, history - {key};
    }

    /** One request: every key in turn, refused at the first that is out of budget, before any eviction. */
    method Admit(keys: seq<Key>, now: real) returns (admitted: bool)
      requires Valid() && latest <= now && keys != []
      modifies this
      ensures Valid() && latest == now
      ensures admitted ==> |buckets| <= MAX_KEYS
      ensures admitted ==> forall k :: k in keys && k in buckets ==> LastPassed(history[k], Budget(rpm, k))
      ensures !admitted ==> exists k :: k in keys && k in buckets && !LastPassed(history[k], Budget(rpm, k))
    {
      for i := 0 to |keys|
        invariant Valid() && latest <= now && (i > 0 ==> latest == now)
        invariant forall k :: k in keys[..i] ==> k in buckets && LastPassed(history[k], Budget(rpm, k))
      {
        assert keys[..i + 1] == keys[..i] + [keys[i]];
        var passed := Touch(keys[i], now);
        if !passed { return false; }
      }
      assert keys[..|keys|] == keys;
      while |order| > MAX_KEYS
        invariant Valid() && latest == now
        invariant forall k :: k in keys && k in buckets ==> LastPassed(history[k], Budget(rpm, k))
        decreases |order|
      {
        var gone := Evict();
      }
      OrderSize(order, buckets);
      return true;
    }

    /** While a key is not evicted, any 60 seconds of its history admit less than twice its budget. */
    lemma AdmitsAtMostTwice(key: Key, a: real, s: real)
      requires Valid() && key in buckets
      ensures PassedIn(history[key], Budget(rpm, key), a) <= 2 * Budget(rpm, key)
      ensures PassedInWindow(history[key], Budget(rpm, key), s) <= Budget(rpm, key)
    {
      TwiceTheBudget(history[key], Budget(rpm, key), a);
      WindowWithinBudget(history[key], Budget(rpm, key), s);
    }
  }

  lemma SameKeys(buckets: Buckets, history: Histories, latest: real)
    requires Tracked(buckets, history, latest)
    ensures history.Keys == buckets.Keys
  {
  }

  lemma KeyedDistinct(order: seq<Key>, buckets: Buckets)
    requires Keyed(order, buckets)
    ensures Distinct(order)
  {
  }

  lemma {:induction false} OrderSize(order: seq<Key>, buckets: map<Key, Bucket>)
    requires Distinct(order) && forall k :: k in order <==> k in buckets
    ensures |buckets| == |order|
    decreases |order|
  {
    if order == [] { assert buckets == map[]; }
    else {
      var rest := order[1..];
      assert order == [order[0]] + rest;
      OrderSize(rest, buckets - {order[0]});
      assert buckets.Keys == (buckets - {order[0]}).Keys + {order[0]};
    }
  }
}
