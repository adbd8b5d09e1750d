/** The token bucket of src/server.js:57-80 that every oracle call of the
    job server goes through, with the clock made explicit. */
module RateLimit {
  import opened Base

  const Capacity: int := 50         // `refillRate`, also the initial `tokens`
  const RefillInterval: nat := 60000 // `refillInterval`, in milliseconds

  /** The bucket after the refill check at time `now`: full again, and
      refilled at `now`, once a whole interval has passed since the last
      refill; unchanged otherwise. */
  function Refilled(tokens: int, lastRefill: int, now: int): (int, int)
  {
    if now - lastRefill >= RefillInterval then (Capacity, now) else (tokens, lastRefill)
  }

  /** How long one `getToken` at time `now` waits: not at all when a token
      is left after the refill check, one interval otherwise. */
  function Waits(tokens: int, lastRefill: int, now: int): nat
  {
    if Refilled(tokens, lastRefill, now).0 > 0 then 0 else 1
  }

  class TokenBucket {
    var tokens: int
    var lastRefill: int

    /** Tokens stay within 0..Capacity. */
    predicate Valid()
      reads this
    {
      0 <= tokens <= Capacity
    }

    /** The bucket as the server starts: full, last refilled at start-up. */
    constructor (start: int)
      ensures Valid() && tokens == Capacity && lastRefill == start
    {
      tokens := Capacity;
      lastRefill := start;
    }

    /** `getToken` (src/server.js:63-79) called at time `now`, a reading of a
        clock that never runs backwards: refill if an interval has passed;
        while no token is left, sleep one interval and check again at the
        later time; then take one token. Returns how many intervals it
        slept and the time the token was granted. */
    method GetToken(now: int) returns (waits: nat, grantedAt: int)
      requires Valid() && lastRefill <= now
      modifies this
      ensures Valid() && lastRefill <= grantedAt
      ensures waits == Waits(old(tokens), old(lastRefill), now) && waits <= 1
      ensures grantedAt == now + waits * RefillInterval
      ensures waits == 0 ==>
        (tokens + 1, lastRefill) == Refilled(old(tokens), old(lastRefill), now)
      ensures waits == 1 ==> tokens == Capacity - 1 && lastRefill == grantedAt
      ensures (tokens, lastRefill) == Take(old(tokens), old(lastRefill), now)
    {
      var clock := now;
      waits := 0;
      if clock - lastRefill >= RefillInterval {
        tokens := Capacity;
        lastRefill := clock;
      }
      while tokens <= 0
        invariant 0 <= tokens <= Capacity && lastRefill <= clock
        invariant clock == now + waits * RefillInterval
        invariant waits == 0 ==> (tokens, lastRefill) == Refilled(old(tokens), old(lastRefill), now)
        invariant waits == 0 <==> Refilled(old(tokens), old(lastRefill), now).0 > 0 || tokens <= 0
        invariant waits <= 1 && (waits == 1 ==> tokens == Capacity && lastRefill == clock)
        decreases if tokens <= 0 then 1 else 0
      {
        clock := clock + RefillInterval;
        waits := waits + 1;
        if clock - lastRefill >= RefillInterval {
          tokens := Capacity;
          lastRefill := clock;
        }
      }
      tokens := tokens - 1;
      grantedAt := clock;
    }
  }

  /** A refill is a reset, not an addition: whatever was left, a call that
      finds an interval passed leaves Capacity - 1 tokens. */
  lemma RefillResets(tokens: int, lastRefill: int, now: int, left: int)
    requires now - lastRefill >= RefillInterval
    ensures Refilled(tokens, lastRefill, now) == Refilled(left, lastRefill, now)
    ensures Waits(tokens, lastRefill, now) == 0
  {
  }

  /** The bucket after one call at time `now` that finds it this way. */
  function Take(tokens: int, lastRefill: int, now: int): (int, int)
  {
    var r := Refilled(tokens, lastRefill, now);
    if r.0 > 0 then (r.0 - 1, r.1) else (Capacity - 1, now + RefillInterval)
  }

  /** The bucket and the number of waits after calls at the given times,
      one after the other. */
  function Calls(tokens: int, lastRefill: int, times: seq<int>): (int, int, nat)
    decreases |times|
  {
    if times == [] then (tokens, lastRefill, 0)
    else
      var next := Take(tokens, lastRefill, times[0]);
      var rest := Calls(next.0, next.1, times[1..]);
      (rest.0, rest.1, rest.2 + Waits(tokens, lastRefill, times[0]))
  }

  /** Within one interval of the last refill the bucket serves, without
      waiting, exactly as many calls as it holds tokens, one token each. */
  lemma {:induction false} Burst(tokens: int, lastRefill: int, times: seq<int>)
    requires 0 <= tokens <= Capacity && |times| <= tokens
    requires forall i :: 0 <= i < |times| ==> lastRefill <= times[i] < lastRefill + RefillInterval
    ensures Calls(tokens, lastRefill, times) == (tokens - |times|, lastRefill, 0)
  {
    if times != [] {
      Burst(tokens - 1, lastRefill, times[1..]);
    }
  }

  /** The next call in the same interval finds the bucket empty and waits
      exactly once, for a whole interval, after which it holds one token
      less than a full bucket. */
  lemma {:induction false} BurstThenWait(tokens: int, lastRefill: int, times: seq<int>)
    requires 0 <= tokens <= Capacity && |times| == tokens + 1
    requires forall i :: 0 <= i < |times| ==> lastRefill <= times[i] < lastRefill + RefillInterval
    ensures Calls(tokens, lastRefill, times) == (Capacity - 1, times[tokens] + RefillInterval, 1)
  {
    var init := times[..tokens];
    Burst(tokens, lastRefill, init);
    CallsSplit(tokens, lastRefill, init, [times[tokens]]);
    assert init + [times[tokens]] == times;
  }

  lemma {:induction false} CallsSplit(tokens: int, lastRefill: int, a: seq<int>, b: seq<int>)
    ensures var first := Calls(tokens, lastRefill, a);
      var second := Calls(first.0, first.1, b);
      Calls(tokens, lastRefill, a + b) == (second.0, second.1, first.2 + second.2)
    decreases |a|
  {
    if a != [] {
      var next := Take(tokens, lastRefill, a[0]);
      assert (a + b)[1..] == a[1..] + b;
      CallsSplit(next.0, next.1, a[1..], b);
    } else {
      assert a + b == b;
    }
  }

  /** One more call at time `t`, after the calls at `times`. */
  lemma {:induction false} CallsSnoc(tokens: int, lastRefill: int, times: seq<int>, t: int)
    ensures var c := Calls(tokens, lastRefill, times);
      Calls(tokens, lastRefill, times + [t])
      == (Take(c.0, c.1, t).0, Take(c.0, c.1, t).1, c.2 + Waits(c.0, c.1, t))
    decreases |times|
  {
    if times == [] {
      assert times + [t] == [t];
      assert [t][1..] == [];
    } else {
      var next := Take(tokens, lastRefill, times[0]);
      assert (times + [t])[0] == times[0];
      assert (times + [t])[1..] == times[1..] + [t];
      CallsSnoc(next.0, next.1, times[1..], t);
    }
  }

  /** An empty bucket within the interval makes the call wait once. */
  lemma EmptyWaits(lastRefill: int, now: int)
    requires now - lastRefill < RefillInterval
    ensures Waits(0, lastRefill, now) == 1
  {
  }
}
