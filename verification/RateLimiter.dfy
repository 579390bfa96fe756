/** The in-memory sliding-window rate limiter, proved against the full history it
    throws away. */
module RateLimiter {
  import opened Wrappers

  datatype Call = Call(key: string, now: real)

  /** How many instants of `ts` lie in the window that ends at `hi` and excludes `lo`. */
  function Count(ts: seq<real>, lo: real, hi: real): nat {
    if ts == [] then 0
    else Count(ts[..|ts| - 1], lo, hi) + (if lo < ts[|ts| - 1] <= hi then 1 else 0)
  }

  /** The instants at which `key` was let through, over the whole history of calls and
      with nothing ever dropped. */
  function Granted(limit: int, window: real, calls: seq<Call>, key: string): seq<real> {
    if calls == [] then []
    else
      var before := Granted(limit, window, calls[..|calls| - 1], key);
      var last := calls[|calls| - 1];
      if last.key == key && Count(before, last.now - window, last.now) < limit
      then before + [last.now] else before
  }

  predicate Allows(limit: int, window: real, calls: seq<Call>, key: string, now: real) {
    Count(Granted(limit, window, calls, key), now - window, now) < limit
  }

  /** The clock never runs backwards. */
  predicate Chronological(calls: seq<Call>) {
    forall i, j :: 0 <= i < j < |calls| ==> calls[i].now <= calls[j].now
  }

  predicate Sorted(ts: seq<real>) {
    forall i, j :: 0 <= i < j < |ts| ==> ts[i] <= ts[j]
  }

  predicate NoneAfter(ts: seq<real>, t: real) {
    forall i :: 0 <= i < |ts| ==> ts[i] <= t
  }

  predicate AllAfter(ts: seq<real>, t: real) {
    forall i :: 0 <= i < |ts| ==> t < ts[i]
  }

  lemma {:induction false} CountOfConcat(a: seq<real>, b: seq<real>, lo: real, hi: real)
    ensures Count(a + b, lo, hi) == Count(a, lo, hi) + Count(b, lo, hi)
  {
    if b == [] {
      assert a + b == a;
    } else {
      assert (a + b)[..|a + b| - 1] == a + b[..|b| - 1];
      CountOfConcat(a, b[..|b| - 1], lo, hi);
    }
  }

  lemma {:induction false} CountOfStale(ts: seq<real>, lo: real, hi: real)
    requires NoneAfter(ts, lo)
    ensures Count(ts, lo, hi) == 0
  {
    if ts != [] {
      CountOfStale(ts[..|ts| - 1], lo, hi);
    }
  }

  lemma {:induction false} CountOfCurrent(ts: seq<real>, lo: real, hi: real)
    requires AllAfter(ts, lo) && NoneAfter(ts, hi)
    ensures Count(ts, lo, hi) == |ts|
  {
    if ts != [] {
      CountOfCurrent(ts[..|ts| - 1], lo, hi);
    }
  }

  /** A later window ending after every instant holds no more of them. */
  lemma {:induction false} CountShrinks(ts: seq<real>, lo: real, hi: real, lo': real, hi': real)
    requires NoneAfter(ts, hi) && lo <= lo'
    ensures Count(ts, lo', hi') <= Count(ts, lo, hi)
  {
    if ts != [] {
      CountShrinks(ts[..|ts| - 1], lo, hi, lo', hi');
    }
  }

  lemma {:induction false} GrantedIsSorted(limit: int, window: real, calls: seq<Call>, key: string)
    requires Chronological(calls)
    ensures Sorted(Granted(limit, window, calls, key))
    ensures calls == [] ==> Granted(limit, window, calls, key) == []
    ensures calls != [] ==> NoneAfter(Granted(limit, window, calls, key), calls[|calls| - 1].now)
  {
    if calls != [] {
      GrantedIsSorted(limit, window, calls[..|calls| - 1], key);
    }
  }

  /** At no instant does any window hold more than `limit` allowed calls of one key. */
  lemma {:induction false} WindowBound(limit: int, window: real, calls: seq<Call>, key: string, t: real)
    requires Chronological(calls)
    ensures Count(Granted(limit, window, calls, key), t - window, t) <= Max(0, limit)
  {
    if calls != [] {
      var init, last := calls[..|calls| - 1], calls[|calls| - 1];
      var before := Granted(limit, window, init, key);
      WindowBound(limit, window, init, key, t);
      GrantedIsSorted(limit, window, init, key);
      if Granted(limit, window, calls, key) != before && t >= last.now {
        CountShrinks(before, last.now - window, last.now, t - window, t);
      }
      assert (before + [last.now])[..|before|] == before;
    }
  }

  function OnlyKey(calls: seq<Call>, key: string): seq<Call> {
    if calls == [] then []
    else OnlyKey(calls[..|calls| - 1], key)
         + (if calls[|calls| - 1].key == key then [calls[|calls| - 1]] else [])
  }

  lemma OnlyKeyStep(calls: seq<Call>, last: Call, key: string)
    ensures OnlyKey(calls + [last], key) == OnlyKey(calls, key) + (if last.key == key then [last] else [])
  {
    assert (calls + [last])[..|calls|] == calls;
  }

  /** What one key is granted does not depend on any other key's calls. */
  lemma {:induction false} KeysAreIndependent(limit: int, window: real, calls: seq<Call>, key: string)
    ensures Granted(limit, window, OnlyKey(calls, key), key) == Granted(limit, window, calls, key)
  {
    if calls != [] {
      var init, last := calls[..|calls| - 1], calls[|calls| - 1];
      KeysAreIndependent(limit, window, init, key);
      assert calls == init + [last];
      SameGrant(limit, window, init, last, key);
    }
  }

  lemma SameGrant(limit: int, window: real, calls: seq<Call>, last: Call, key: string)
    requires Granted(limit, window, OnlyKey(calls, key), key) == Granted(limit, window, calls, key)
    ensures Granted(limit, window, OnlyKey(calls + [last], key), key) == Granted(limit, window, calls + [last], key)
  {
    var only := OnlyKey(calls, key);
    OnlyKeyStep(calls, last, key);
    GrantedStep(limit, window, calls, last, key);
    if last.key == key {
      GrantedStep(limit, window, only, last, key);
    } else {
      assert only + [] == only;
    }
  }

  lemma GrantedStep(limit: int, window: real, calls: seq<Call>, last: Call, key: string)
    ensures Granted(limit, window, calls + [last], key) ==
            if last.key == key && Allows(limit, window, calls, key, last.now)
            then Granted(limit, window, calls, key) + [last.now] else Granted(limit, window, calls, key)
  {
    assert (calls + [last])[..|calls|] == calls;
  }

  /** `kept` is `all` without some instants at its front, none of them after `t`. */
  ghost predicate PrunedFrom(all: seq<real>, kept: seq<real>, t: real) {
    |kept| <= |all| && all[|all| - |kept|..] == kept && NoneAfter(all[..|all| - |kept|], t)
  }

  /** What a deque may look like for a key: nothing if nothing was granted, and no
      instant missing that the last call's window, or a later one, could hold. */
  ghost predicate KeyConsistent(limit: int, window: real, hits: map<string, seq<real>>,
                                calls: seq<Call>, key: string)
  {
    if key in hits then
      calls != []
      && PrunedFrom(Granted(limit, window, calls, key), hits[key], calls[|calls| - 1].now - window)
    else Granted(limit, window, calls, key) == []
  }

  ghost predicate Consistent(limit: int, window: real, hits: map<string, seq<real>>, calls: seq<Call>) {
    Chronological(calls) && forall key :: KeyConsistent(limit, window, hits, calls, key)
  }

  lemma ConsistentStep(limit: int, window: real, hits: map<string, seq<real>>, calls: seq<Call>,
                       last: Call, queue: seq<real>)
    requires Consistent(limit, window, hits, calls)
    requires calls != [] ==> calls[|calls| - 1].now <= last.now
    requires PrunedFrom(Granted(limit, window, calls + [last], last.key), queue, last.now - window)
    ensures Consistent(limit, window, hits[last.key := queue], calls + [last])
  {
    var hits', calls' := hits[last.key := queue], calls + [last];
    forall key
      ensures KeyConsistent(limit, window, hits', calls', key)
    {
      if key != last.key {
        assert KeyConsistent(limit, window, hits, calls, key);
        GrantedStep(limit, window, calls, last, key);
      }
    }
  }

  /** The next decision, read off the pruned deque. */
  lemma DecisionStep(limit: int, window: real, calls: seq<Call>, last: Call, queue: seq<real>)
    requires Chronological(calls)
    requires calls != [] ==> calls[|calls| - 1].now <= last.now
    requires PrunedFrom(Granted(limit, window, calls, last.key), queue, last.now - window)
    requires queue == [] || last.now - window < queue[0]
    ensures Allows(limit, window, calls, last.key, last.now) <==> |queue| < limit
  {
    var all := Granted(limit, window, calls, last.key);
    GrantedIsSorted(limit, window, calls, last.key);
    assert NoneAfter(all, last.now);
    WindowLeft(all, queue, last.now - window, last.now);
  }

  lemma PrunedAppend(all: seq<real>, queue: seq<real>, t: real, now: real)
    requires PrunedFrom(all, queue, t)
    ensures PrunedFrom(all + [now], queue + [now], t)
  {
    var d := |all| - |queue|;
    assert (all + [now])[..d] == all[..d];
    assert (all + [now])[d..] == all[d..] + [now];
  }

  lemma PrunedStep(limit: int, window: real, calls: seq<Call>, last: Call, queue: seq<real>)
    requires PrunedFrom(Granted(limit, window, calls, last.key), queue, last.now - window)
    requires |queue| < limit <==> Allows(limit, window, calls, last.key, last.now)
    ensures PrunedFrom(Granted(limit, window, calls + [last], last.key),
                       if |queue| < limit then queue + [last.now] else queue, last.now - window)
  {
    GrantedStep(limit, window, calls, last, last.key);
    PrunedAppend(Granted(limit, window, calls, last.key), queue, last.now - window, last.now);
  }

  /** One decision from a pruned deque, and the deque it leaves. */
  lemma AllowStep(limit: int, window: real, hits: map<string, seq<real>>, calls: seq<Call>, last: Call, queue: seq<real>)
    requires Consistent(limit, window, hits, calls)
    requires calls != [] ==> calls[|calls| - 1].now <= last.now
    requires PrunedFrom(Granted(limit, window, calls, last.key), queue, last.now - window)
    requires queue == [] || last.now - window < queue[0]
    ensures |queue| < limit <==> Allows(limit, window, calls, last.key, last.now)
    ensures Consistent(limit, window, hits[last.key := if |queue| < limit then queue + [last.now] else queue], calls + [last])
  {
    DecisionStep(limit, window, calls, last, queue);
    PrunedStep(limit, window, calls, last, queue);
    ConsistentStep(limit, window, hits, calls, last, if |queue| < limit then queue + [last.now] else queue);
  }

  class SlidingWindowRateLimiter {
    const limit: int
    const window: real
    var hits: map<string, seq<real>>
    ghost var calls: seq<Call>

    ghost predicate Valid()
      reads this
    {
      Consistent(limit, window, hits, calls)
    }

    constructor (limit: int, window: real)
      ensures Valid() && this.limit == limit && this.window == window && calls == []
    {
      this.limit := limit;
      this.window := window;
      hits := map[];
      calls := [];
    }

    method Allow(key: string, now: real) returns (allowed: bool)
      requires Valid()
      requires calls != [] ==> calls[|calls| - 1].now <= now
      modifies this
      ensures Valid() && calls == old(calls) + [Call(key, now)]
      ensures allowed <==> Allows(limit, window, old(calls), key, now)
      ensures forall other :: other != key ==>
                (other in hits <==> other in old(hits)) && (other in hits ==> hits[other] == old(hits)[other])
    {
      assert KeyConsistent(limit, window, hits, calls, key);
      var queue := if key in hits then hits[key] else [];
      queue := Prune(queue, now - window, Granted(limit, window, calls, key));
      AllowStep(limit, window, hits, calls, Call(key, now), queue);
      allowed := |queue| < limit;
      if allowed {
        queue := queue + [now];
      }
      calls := calls + [Call(key, now)];
      hits := hits[key := queue];
    }

    /** Drops instants from the front while they are too old. */
    static method Prune(hits: seq<real>, windowStart: real, ghost all: seq<real>) returns (queue: seq<real>)
      requires PrunedFrom(all, hits, windowStart)
      ensures PrunedFrom(all, queue, windowStart)
      ensures queue == [] || windowStart < queue[0]
    {
      queue := hits;
      while queue != [] && queue[0] <= windowStart
        invariant PrunedFrom(all, queue, windowStart)
        decreases |queue|
      {
        assert all[|all| - |queue|] == queue[0];
        queue := queue[1..];
      }
    }

    /** How many hits a key's deque holds; prunes nothing. */
    method HitCount(key: string) returns (n: nat)
      ensures n == if key in hits then |hits[key]| else 0
    {
      n := if key in hits then |hits[key]| else 0;
    }
  }

  /** Once pruned, a deque holds exactly the instants of the window. */
  lemma WindowLeft(all: seq<real>, queue: seq<real>, start: real, now: real)
    requires Sorted(all) && NoneAfter(all, now)
    requires PrunedFrom(all, queue, start)
    requires queue == [] || start < queue[0]
    ensures Count(all, start, now) == |queue|
  {
    var dropped := all[..|all| - |queue|];
    assert all == dropped + queue;
    forall i | 0 <= i < |queue| ensures start < queue[i] <= now {
      assert all[|dropped| + i] == queue[i];
      if i > 0 {
        assert all[|dropped|] == queue[0];
      }
    }
    CountOfConcat(dropped, queue, start, now);
    CountOfStale(dropped, start, now);
    CountOfCurrent(queue, start, now);
  }
}
