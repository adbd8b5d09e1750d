/** Small shared vocabulary: optional values and the pauses both servers take. */
module Base {

  datatype Option<+T> = None | Some(value: T)

  /** Why a server sleeps; each `setTimeout` promise of the source is one pause. */
  datatype Reason =
    | BetweenKeywords   // the delay after every keyword
    | BetweenBatches    // the delay at a batch boundary
    | Breaker           // the cooldown after too many consecutive failures
    | RateLimited       // the pause after a 429 answer
    | Backoff           // the exponential delay before an error retry
    | TokenWait         // the rate limiter waiting for its next refill
    | Cooldown          // the pause after a keyword failed with a 429 in its message

  datatype Pause = Pause(reason: Reason, ms: nat)

  function Min(a: int, b: int): int { if a <= b then a else b }

  /** Number of pauses in `ps` taken for `reason`. */
  function CountReason(ps: seq<Pause>, reason: Reason): nat
  {
    if ps == [] then 0
    else CountReason(ps[..|ps| - 1], reason) + (if ps[|ps| - 1].reason == reason then 1 else 0)
  }

  /** The pauses in `ps` that were not taken for `reason`, in order. */
  function Without(ps: seq<Pause>, reason: Reason): seq<Pause>
  {
    if ps == [] then []
    else Without(ps[..|ps| - 1], reason) + (if ps[|ps| - 1].reason == reason then [] else [ps[|ps| - 1]])
  }

  /** Total length of the pauses in `ps`, in milliseconds. */
  function TotalMs(ps: seq<Pause>): nat
  {
    if ps == [] then 0 else TotalMs(ps[..|ps| - 1]) + ps[|ps| - 1].ms
  }

  lemma {:induction false} TotalMsAppend(a: seq<Pause>, b: seq<Pause>)
    ensures TotalMs(a + b) == TotalMs(a) + TotalMs(b)
    decreases |b|
  {
    if b == [] {
      assert a + b == a;
    } else {
      var b' := b[..|b| - 1];
      assert (a + b)[..|a + b| - 1] == a + b';
      TotalMsAppend(a, b');
    }
  }

  lemma {:induction false} CountReasonAppend(a: seq<Pause>, b: seq<Pause>, reason: Reason)
    ensures CountReason(a + b, reason) == CountReason(a, reason) + CountReason(b, reason)
    decreases |b|
  {
    if b == [] {
      assert a + b == a;
    } else {
      var b' := b[..|b| - 1];
      assert (a + b)[..|a + b| - 1] == a + b';
      CountReasonAppend(a, b', reason);
    }
  }

  lemma {:induction false} WithoutAppend(a: seq<Pause>, b: seq<Pause>, reason: Reason)
    ensures Without(a + b, reason) == Without(a, reason) + Without(b, reason)
    decreases |b|
  {
    if b == [] {
      assert a + b == a;
    } else {
      var b' := b[..|b| - 1];
      assert (a + b)[..|a + b| - 1] == a + b';
      WithoutAppend(a, b', reason);
    }
  }
}
