/** The retry policy of the job server's `analyzeKeyword`
    (src/server.js:83-136), as a function of the replies the oracle gives to
    successive attempts for one keyword. */
module Retry {
  import opened Base
  import opened Text
  import opened Oracle

  const MaxRetries: nat := 3
  const RateLimitPauseMs: nat := 60000
  const BackoffBaseMs: nat := 5000
  const TooManyRequests: nat := 429

  function Pow2(k: nat): (r: nat)
    ensures r >= 1
  {
    if k == 0 then 1 else 2 * Pow2(k - 1)
  }

  /** `Math.pow(2, retryCount) * 5000`. */
  function BackoffDelay(retryCount: nat): nat
  {
    Pow2(retryCount) * BackoffBaseMs
  }

  /** The answer the handler checks for first: HTTP 429. */
  predicate RateLimitedReply(r: Reply)
  {
    r.Response? && r.status == TooManyRequests
  }

  /** How the attempts for one keyword end: a verdict, the error of the
      last attempt, or no reply left to try (the model's stand-in for an
      oracle that never answers). */
  datatype Outcome = Classified(relevant: bool) | GaveUp(message: string) | Stalled

  /** What the attempts for one keyword come to: the outcome, the pauses
      taken between attempts, in order, and the number of attempts. */
  datatype Trial = Trial(outcome: Outcome, pauses: seq<Pause>, attempts: nat)

  /** What one attempt made with `retryCount` retries used does with its
      reply (src/server.js:112-134): a 429 pauses a minute and tries again
      with the same count; an answer finishes; any other failure is retried
      after `5000 * 2^retryCount` ms while fewer than three retries are
      used, and otherwise finishes with its error. */
  datatype Next = Again(pause: Pause, retryCount: nat) | Finish(outcome: Outcome)

  function Respond(reply: Reply, retryCount: nat): (n: Next)
    ensures n.Again? ==> n.pause.reason == RateLimited || n.pause.reason == Backoff
  {
    if RateLimitedReply(reply) then Again(Pause(RateLimited, RateLimitPauseMs), retryCount)
    else
      match Read(reply)
      case Relevance(b) => Finish(Classified(b))
      case Failure(m) =>
        if retryCount < MaxRetries then Again(Pause(Backoff, BackoffDelay(retryCount)), retryCount + 1)
        else Finish(GaveUp(m))
  }

  /** A 429 pauses a minute and keeps the retry count; a backoff waits
      `5000 * 2^retryCount` ms and uses up one of the three retries. */
  lemma RespondAgain(reply: Reply, retryCount: nat)
    requires Respond(reply, retryCount).Again?
    ensures var n := Respond(reply, retryCount);
      && (n.pause.reason == RateLimited <==> RateLimitedReply(reply))
      && (n.pause.reason == RateLimited ==>
            n.pause == Pause(RateLimited, RateLimitPauseMs) && n.retryCount == retryCount)
      && (n.pause.reason == Backoff ==>
            n.pause == Pause(Backoff, BackoffDelay(retryCount)) && n.retryCount == retryCount + 1
            && retryCount < MaxRetries)
  {
  }

  /** The attempts from reply `i` on with `retryCount` retries used, each
      answered as `Respond` says, until one finishes or the replies run out. */
  function Policy(replies: seq<Reply>, i: nat, retryCount: nat): (t: Trial)
    requires i <= |replies|
    ensures i + t.attempts <= |replies|
    ensures t.outcome.Stalled? ==> i + t.attempts == |replies|
    decreases |replies| - i
  {
    if i == |replies| then Trial(Stalled, [], 0)
    else
      match Respond(replies[i], retryCount)
      case Finish(outcome) => Trial(outcome, [], 1)
      case Again(pause, count) =>
        var rest := Policy(replies, i + 1, count);
        Trial(rest.outcome, [pause] + rest.pauses, rest.attempts + 1)
  }

  /** The state of the attempts from reply `next` on after `k` of them,
      each answered by a pause: the pauses so far and the retry count
      reached. */
  datatype Walk = Walk(pauses: seq<Pause>, retryCount: nat)

  function Walked(replies: seq<Reply>, next: nat, k: nat): Walk
    requires next + k <= |replies|
  {
    if k == 0 then Walk([], 0)
    else
      var w := Walked(replies, next, k - 1);
      match Respond(replies[next + k - 1], w.retryCount)
      case Again(p, count) => Walk(w.pauses + [p], count)
      case Finish(_) => w
  }

  /** None of the first `k` attempts from `next` finished. */
  predicate Continues(replies: seq<Reply>, next: nat, k: nat)
    requires next + k <= |replies|
  {
    k == 0
    || (Continues(replies, next, k - 1)
        && Respond(replies[next + k - 1], Walked(replies, next, k - 1).retryCount).Again?)
  }

  /** After `k` attempts that each paused, the policy is those pauses
      followed by the policy from reply `next + k` with the count reached. */
  lemma {:induction false} WalkPolicy(replies: seq<Reply>, next: nat, k: nat)
    requires next + k <= |replies| && Continues(replies, next, k)
    ensures var w := Walked(replies, next, k); var rest := Policy(replies, next + k, w.retryCount);
      Policy(replies, next, 0) == Trial(rest.outcome, w.pauses + rest.pauses, k + rest.attempts)
  {
    if k > 0 {
      WalkPolicy(replies, next, k - 1);
      var w := Walked(replies, next, k - 1);
      var n := Respond(replies[next + k - 1], w.retryCount);
      var rest := Policy(replies, next + k, n.retryCount);
      assert Policy(replies, next + k - 1, w.retryCount)
             == Trial(rest.outcome, [n.pause] + rest.pauses, rest.attempts + 1);
      assert w.pauses + ([n.pause] + rest.pauses) == (w.pauses + [n.pause]) + rest.pauses;
    }
  }

  /** The attempt after `k` paused ones finishes: that is the policy. */
  lemma WalkFinish(replies: seq<Reply>, next: nat, k: nat)
    requires next + k < |replies| && Continues(replies, next, k)
    requires Respond(replies[next + k], Walked(replies, next, k).retryCount).Finish?
    ensures Policy(replies, next, 0)
            == Trial(Respond(replies[next + k], Walked(replies, next, k).retryCount).outcome,
                     Walked(replies, next, k).pauses, k + 1)
  {
    WalkPolicy(replies, next, k);
    assert Walked(replies, next, k).pauses + [] == Walked(replies, next, k).pauses;
  }

  /** One more attempt that pauses extends the walk by its pause. */
  lemma WalkAgain(replies: seq<Reply>, next: nat, k: nat)
    requires next + k < |replies| && Continues(replies, next, k)
    requires Respond(replies[next + k], Walked(replies, next, k).retryCount).Again?
    ensures var r := Respond(replies[next + k], Walked(replies, next, k).retryCount);
      Continues(replies, next, k + 1)
      && Walked(replies, next, k + 1) == Walk(Walked(replies, next, k).pauses + [r.pause], r.retryCount)
  {
  }

  /** The replies ran out after `k` paused attempts: the policy stalls. */
  lemma WalkExhausted(replies: seq<Reply>, next: nat, k: nat)
    requires next + k == |replies| && Continues(replies, next, k)
    ensures Policy(replies, next, 0) == Trial(Stalled, Walked(replies, next, k).pauses, k)
  {
    WalkPolicy(replies, next, k);
    assert Walked(replies, next, k).pauses + [] == Walked(replies, next, k).pauses;
  }

  /** Every attempt but the last is followed by exactly one pause, unless
      the attempts stall; and at most `MaxRetries - retryCount` of the
      pauses are backoffs, so a keyword is retried at most three times
      after errors. */
  lemma {:induction false} PolicyBounds(replies: seq<Reply>, i: nat, retryCount: nat)
    requires i <= |replies|
    ensures var t := Policy(replies, i, retryCount);
      |t.pauses| + (if t.outcome.Stalled? then 0 else 1) == t.attempts
      && (retryCount <= MaxRetries ==> CountReason(t.pauses, Backoff) <= MaxRetries - retryCount)
    decreases |replies| - i
  {
    if i < |replies| {
      var n := Respond(replies[i], retryCount);
      if n.Again? {
        var rest := Policy(replies, i + 1, n.retryCount);
        assert Policy(replies, i, retryCount).pauses == [n.pause] + rest.pauses;
        PolicyBounds(replies, i + 1, n.retryCount);
        CountPrepend(n.pause, rest.pauses, Backoff);
      }
    }
  }

  /** A failure other than a 429. */
  predicate Retryable(r: Reply)
  {
    !RateLimitedReply(r) && Read(r).Failure?
  }

  /** The backoff delays are 5, 10 and 20 seconds. */
  lemma BackoffDelays()
    ensures BackoffDelay(0) == 5000 && BackoffDelay(1) == 10000 && BackoffDelay(2) == 20000
  {
  }

  /** A keyword whose replies all fail without a 429 is tried exactly four
      times, with the three backoffs in between, and ends with the error of
      the fourth attempt. */
  lemma AlwaysFailing(replies: seq<Reply>, i: nat)
    requires i + 4 <= |replies|
    requires Retryable(replies[i]) && Retryable(replies[i + 1])
    requires Retryable(replies[i + 2]) && Retryable(replies[i + 3])
    ensures Policy(replies, i, 0)
            == Trial(GaveUp(Read(replies[i + 3]).message),
                     [Pause(Backoff, 5000), Pause(Backoff, 10000), Pause(Backoff, 20000)], 4)
  {
    BackoffDelays();
    var last := Trial(GaveUp(Read(replies[i + 3]).message), [], 1);
    assert Policy(replies, i + 3, 3) == last;
    assert Policy(replies, i + 2, 2) == Trial(last.outcome, [Pause(Backoff, 20000)], 2);
    assert Policy(replies, i + 1, 1) == Trial(last.outcome, [Pause(Backoff, 10000), Pause(Backoff, 20000)], 3);
  }

  /** 429 replies do not use up the retry budget: any run of them in front
      of reply `j` leaves the outcome, and the backoffs, of the attempts as
      they would be from `j`, adding one minute's pause and one attempt each. */
  lemma {:induction false} RateLimitsAreFree(replies: seq<Reply>, i: nat, j: nat, retryCount: nat)
    requires i <= j <= |replies|
    requires forall m :: i <= m < j ==> RateLimitedReply(replies[m])
    ensures var rest := Policy(replies, j, retryCount);
      Policy(replies, i, retryCount)
      == Trial(rest.outcome, RateLimitPauses(j - i) + rest.pauses, (j - i) + rest.attempts)
    decreases j - i
  {
    var fin := Policy(replies, j, retryCount);
    if i == j {
      assert RateLimitPauses(0) + fin.pauses == fin.pauses;
    } else {
      RateLimitsAreFree(replies, i + 1, j, retryCount);
      RateLimitStep(replies, i, retryCount);
      var p := Pause(RateLimited, RateLimitPauseMs);
      var free := RateLimitPauses(j - i - 1);
      assert RateLimitPauses(j - i) == [p] + free;
      assert [p] + (free + fin.pauses) == ([p] + free) + fin.pauses;
    }
  }

  /** A 429 pauses a minute and leaves the count as it was. */
  lemma RateLimitStep(replies: seq<Reply>, i: nat, retryCount: nat)
    requires i < |replies| && RateLimitedReply(replies[i])
    ensures var rest := Policy(replies, i + 1, retryCount);
      Policy(replies, i, retryCount)
      == Trial(rest.outcome, [Pause(RateLimited, RateLimitPauseMs)] + rest.pauses, rest.attempts + 1)
  {
  }

  /** `k` one-minute pauses. */
  function RateLimitPauses(k: nat): (r: seq<Pause>)
    ensures |r| == k
  {
    if k == 0 then [] else [Pause(RateLimited, RateLimitPauseMs)] + RateLimitPauses(k - 1)
  }

  /** A 429 followed by an answer costs exactly one minute's pause. */
  lemma RateLimitThenAnswer(replies: seq<Reply>, i: nat, retryCount: nat)
    requires i + 2 <= |replies| && RateLimitedReply(replies[i])
    requires !RateLimitedReply(replies[i + 1]) && Read(replies[i + 1]).Relevance?
    ensures Policy(replies, i, retryCount)
            == Trial(Classified(Read(replies[i + 1]).relevant), [Pause(RateLimited, RateLimitPauseMs)], 2)
  {
  }

  /** The backoffs are taken in order of the retries: the n-th backoff
      waits `5000 * 2^(retryCount + n)`. */
  lemma {:induction false} BackoffsInOrder(replies: seq<Reply>, i: nat, retryCount: nat)
    requires i <= |replies|
    ensures Without(Policy(replies, i, retryCount).pauses, RateLimited)
            == Backoffs(retryCount, CountReason(Policy(replies, i, retryCount).pauses, Backoff))
    decreases |replies| - i
  {
    if i < |replies| {
      var t := Policy(replies, i, retryCount);
      var n := Respond(replies[i], retryCount);
      if n.Again? {
        var p := n.pause;
        var rest := Policy(replies, i + 1, n.retryCount);
        assert t.pauses == [p] + rest.pauses;
        BackoffsInOrder(replies, i + 1, n.retryCount);
        WithoutPrepend(p, rest.pauses, RateLimited);
        CountPrepend(p, rest.pauses, Backoff);
        if p.reason == Backoff {
          var k := CountReason(rest.pauses, Backoff);
          RespondAgain(replies[i], retryCount);
          assert Backoffs(retryCount, k + 1) == [p] + Backoffs(retryCount + 1, k);
        } else {
          RespondAgain(replies[i], retryCount);
        }
      } else {
        assert t.pauses == [];
      }
    }
  }

  /** `k` backoffs starting from the `c`-th retry. */
  function Backoffs(c: nat, k: nat): seq<Pause>
    decreases k
  {
    if k == 0 then [] else [Pause(Backoff, BackoffDelay(c))] + Backoffs(c + 1, k - 1)
  }

  lemma WithoutPrepend(p: Pause, ps: seq<Pause>, reason: Reason)
    ensures Without([p] + ps, reason) == (if p.reason == reason then [] else [p]) + Without(ps, reason)
  {
    WithoutAppend([p], ps, reason);
    assert [p][..0] == [];
  }

  lemma CountPrepend(p: Pause, ps: seq<Pause>, reason: Reason)
    ensures CountReason([p] + ps, reason) == (if p.reason == reason then 1 else 0) + CountReason(ps, reason)
  {
    CountReasonAppend([p], ps, reason);
    assert [p][..0] == [];
  }
}
