/** The job server's `processingState` (src/server.js:21-32) and the two
    endpoints that drive it: the bulk analysis, which checks the upload,
    resets the job and works through the keywords in batches of two
    (src/server.js:139-223), and the download of the results
    (src/server.js:226-260). The oracle is a supplied sequence of replies,
    consumed in order by the attempts of successive keywords; time is an
    integer clock that advances only by the pauses the server takes. */
module Job {
  import opened Base
  import opened Text
  import opened Oracle
  import opened Sheet
  import opened RateLimit
  import opened Retry

  const BatchSize: nat := 2          // BATCH_SIZE
  const KeywordDelayMs: nat := 1000  // DELAY_BETWEEN_KEYWORDS
  const BatchDelayMs: nat := 3000    // DELAY_BETWEEN_BATCHES

  /** `processingState.status`. */
  datatype Status = Idle | Processing | Completed | Error

  /** One classified keyword, as `analyzeKeyword` returns it. */
  datatype Result = Result(keyword: string, matchType: string, status: bool)

  /** One entry of `processingState.errors`: a keyword that failed, or an
      exception that escaped the handler. */
  datatype ErrorEntry = KeywordError(keyword: string, error: string) | JobError(error: string)

  /** A keyword together with how its attempts ended. */
  datatype Attempted = Attempted(keyword: Keyword, outcome: Outcome)

  /** The entry a keyword adds to `results`, if any. */
  function ResultOf(a: Attempted): Option<Result>
  {
    match a.outcome
    case Classified(b) => Some(Result(a.keyword.text, a.keyword.matchType, b))
    case _ => None
  }

  /** The entry a keyword adds to `errors`, if any. */
  function ErrorOf(a: Attempted): Option<ErrorEntry>
  {
    match a.outcome
    case GaveUp(m) => Some(KeywordError(a.keyword.text, m))
    case _ => None
  }

  /** The keyword, if its attempts never came to an end. */
  function StallOf(a: Attempted): Option<Keyword>
  {
    if a.outcome.Stalled? then Some(a.keyword) else None
  }

  function Listed<T>(o: Option<T>): seq<T>
  {
    if o.Some? then [o.value] else []
  }

  /** Every keyword lands in exactly one of `results` and `errors`, except
      one whose attempts never end. */
  lemma {:induction false} OneEntryEach(xs: seq<Attempted>)
    ensures |FilterMap(ResultOf, xs)| + |FilterMap(ErrorOf, xs)| + |FilterMap(StallOf, xs)| == |xs|
  {
    if xs != [] {
      OneEntryEach(xs[..|xs| - 1]);
    }
  }

  /** How the keywords come out of the first `k` analyses, and the index of
      the next unused reply: each keyword's attempts start where the
      previous keyword's stopped. */
  datatype Tally = Tally(attempted: seq<Attempted>, next: nat)

  function Tallied(keywords: seq<Keyword>, replies: seq<Reply>, k: nat): (t: Tally)
    requires k <= |keywords|
    ensures |t.attempted| == k && t.next <= |replies|
  {
    if k == 0 then Tally([], 0)
    else
      var t := Tallied(keywords, replies, k - 1);
      var trial := Policy(replies, t.next, 0);
      Tally(t.attempted + [Attempted(keywords[k - 1], trial.outcome)], t.next + trial.attempts)
  }

  /** The analyses follow the sheet: the `m`-th is that of the `m`-th keyword. */
  lemma {:induction false} TalliedInOrder(keywords: seq<Keyword>, replies: seq<Reply>, k: nat)
    requires k <= |keywords|
    ensures forall m :: 0 <= m < k ==> Tallied(keywords, replies, k).attempted[m].keyword == keywords[m]
  {
    if k > 0 {
      TalliedInOrder(keywords, replies, k - 1);
    }
  }

  /** Once a keyword's attempts stall, the replies are used up, and so every
      later keyword stalls too. */
  lemma {:induction false} StallsPersist(keywords: seq<Keyword>, replies: seq<Reply>, k: nat, m: nat)
    requires m < k <= |keywords|
    requires Tallied(keywords, replies, m + 1).attempted[m].outcome.Stalled?
    ensures Tallied(keywords, replies, k).next == |replies|
    ensures Tallied(keywords, replies, k).attempted[k - 1].outcome.Stalled?
    decreases k - m
  {
    if k > m + 1 {
      StallsPersist(keywords, replies, k - 1, m);
    }
  }

  /** The first `k` analyses, extended by one more. */
  lemma TalliedStep(keywords: seq<Keyword>, replies: seq<Reply>, k: nat)
    requires k < |keywords|
    ensures Tallied(keywords, replies, k + 1).attempted
            == Tallied(keywords, replies, k).attempted
               + [Attempted(keywords[k], Policy(replies, Tallied(keywords, replies, k).next, 0).outcome)]
  {
  }

  /** A keyword whose replies are all failures other than 429 ends in
      `errors` after four attempts, so a sheet of `k` such keywords uses
      `4k` replies and yields no results and `k` errors. */
  lemma {:induction false} AllFailing(keywords: seq<Keyword>, replies: seq<Reply>, k: nat)
    requires k <= |keywords| && 4 * k <= |replies|
    requires forall m :: 0 <= m < |replies| ==> Retryable(replies[m])
    ensures Tallied(keywords, replies, k).next == 4 * k
    ensures FilterMap(ResultOf, Tallied(keywords, replies, k).attempted) == []
    ensures |FilterMap(ErrorOf, Tallied(keywords, replies, k).attempted)| == k
  {
    var t := Tallied(keywords, replies, k);
    if k > 0 {
      AllFailing(keywords, replies, k - 1);
      var s := Tallied(keywords, replies, k - 1);
      var i := s.next;
      AlwaysFailing(replies, i);
      var a := Attempted(keywords[k - 1], GaveUp(Read(replies[i + 3]).message));
      assert t.attempted == s.attempted + [a];
      FilterMapSnoc(ResultOf, s.attempted, a);
      FilterMapSnoc(ErrorOf, s.attempted, a);
    }
  }

  /** A list of keyword errors; the number of them whose message mentions
      "429", each of which the batch loop follows by a one-minute pause. */
  function Mentioning429(errors: seq<ErrorEntry>): nat
  {
    if errors == [] then 0
    else Mentioning429(errors[..|errors| - 1]) + (if Contains(errors[|errors| - 1].error, "429") then 1 else 0)
  }

  /** No failure that reaches the batch loop is an HTTP 429: the retry
      policy answers those by waiting, so only a message from the
      network or the JSON parser can mention "429". */
  lemma {:induction false} GaveUpNot429(replies: seq<Reply>, i: nat, retryCount: nat)
    requires i <= |replies|
    requires Policy(replies, i, retryCount).outcome.GaveUp?
    ensures exists m :: i <= m < |replies| && Retryable(replies[m])
                        && Read(replies[m]).message == Policy(replies, i, retryCount).outcome.message
    decreases |replies| - i
  {
    var r := replies[i];
    if RateLimitedReply(r) {
      GaveUpNot429(replies, i + 1, retryCount);
    } else if retryCount < MaxRetries {
      GaveUpNot429(replies, i + 1, retryCount + 1);
    } else {
      assert Retryable(replies[i]);
    }
  }

  /** The pauses of one keyword's attempts are rate-limiter waits, 429
      pauses and backoffs. */
  predicate AttemptPauses(ps: seq<Pause>)
  {
    forall p :: p in ps ==> p.reason == TokenWait || p.reason == RateLimited || p.reason == Backoff
  }

  lemma {:induction false} AttemptPausesCount(ps: seq<Pause>, reason: Reason)
    requires AttemptPauses(ps)
    requires reason == BetweenKeywords || reason == BetweenBatches || reason == Cooldown
    ensures CountReason(ps, reason) == 0
  {
    if ps != [] {
      assert ps[|ps| - 1] in ps;
      AttemptPausesCount(ps[..|ps| - 1], reason);
    }
  }

  /** The handler's pauses so far: one after each of `done` keywords, one
      after each of `batches` batches, and one after each error whose
      message mentions "429". */
  predicate Paced(ps: seq<Pause>, done: nat, batches: nat, errors: seq<ErrorEntry>)
  {
    CountReason(ps, BetweenKeywords) == done && CountReason(ps, BetweenBatches) == batches
    && CountReason(ps, Cooldown) == Mentioning429(errors)
  }

  /** What happens to the started job when a submission comes in. */
  datatype Response =
    | Refusal(status: nat, error: string)  // `res.status(status).json({ error })`
    | Started(totalKeywords: nat)          // `{ success: true, message: 'Analysis started', totalKeywords }`
    | NoResponse                           // the handler caught an exception and sent nothing

  /** The message of the TypeError that reading `req.file.buffer` throws
      when no file was uploaded, and that the catch of
      src/server.js:217-221 records. The text is V8's and varies with its
      version: this is the wording of current Node releases, where older
      ones say "Cannot read property 'buffer' of undefined". */
  const MissingFileMessage: string := "Cannot read properties of undefined (reading 'buffer')"

  /** What reading the upload comes to: an exception with its message, or
      the extracted keywords. */
  datatype Intake = Throws(message: string) | Extracted(keywords: seq<Keyword>)

  function IntakeOf(file: Option<Workbook>): Intake
  {
    match file
    case None => Throws(MissingFileMessage)
    case Some(Unloadable(m)) => Throws(m)
    case Some(Loaded(rows)) => Extracted(KeywordsOf(DataRows(rows)))
  }

  /** The result rows and error entries of the first `d` keywords, the
      reply index after them, and no keyword among them stalled. */
  predicate Tracks(keywords: seq<Keyword>, replies: seq<Reply>, d: nat,
                   results: seq<Result>, errors: seq<ErrorEntry>, next: nat)
    requires d <= |keywords|
  {
    var t := Tallied(keywords, replies, d);
    results == FilterMap(ResultOf, t.attempted) && errors == FilterMap(ErrorOf, t.attempted)
    && FilterMap(StallOf, t.attempted) == [] && next == t.next
  }

  /** At the end of a job every keyword has exactly one entry. */
  lemma TracksCover(keywords: seq<Keyword>, replies: seq<Reply>, d: nat,
                    results: seq<Result>, errors: seq<ErrorEntry>, next: nat)
    requires d <= |keywords| && Tracks(keywords, replies, d, results, errors, next)
    ensures |results| + |errors| == d
  {
    OneEntryEach(Tallied(keywords, replies, d).attempted);
  }

  /** One more keyword that did not stall: its entry is appended to the
      results or to the errors, and the reply index moves past its attempts. */
  lemma TracksStep(keywords: seq<Keyword>, replies: seq<Reply>, d: nat,
                   results: seq<Result>, errors: seq<ErrorEntry>, next: nat)
    requires d < |keywords| && Tracks(keywords, replies, d, results, errors, next)
    requires !Policy(replies, next, 0).outcome.Stalled?
    ensures var a := Attempted(keywords[d], Policy(replies, next, 0).outcome);
      Tracks(keywords, replies, d + 1, results + Listed(ResultOf(a)), errors + Listed(ErrorOf(a)),
             next + Policy(replies, next, 0).attempts)
  {
    var t := Tallied(keywords, replies, d);
    var a := Attempted(keywords[d], Policy(replies, next, 0).outcome);
    assert Tallied(keywords, replies, d + 1).attempted == t.attempted + [a];
    FilterMapSnoc(ResultOf, t.attempted, a);
    FilterMapSnoc(ErrorOf, t.attempted, a);
    FilterMapSnoc(StallOf, t.attempted, a);
  }

  /** A keyword that stalls adds no entry. */
  lemma TracksStall(keywords: seq<Keyword>, replies: seq<Reply>, d: nat,
                    results: seq<Result>, errors: seq<ErrorEntry>, next: nat)
    requires d < |keywords| && Tracks(keywords, replies, d, results, errors, next)
    requires Policy(replies, next, 0).outcome.Stalled?
    ensures Tallied(keywords, replies, d + 1).attempted[d].outcome.Stalled?
  {
  }

  /** The handler's pause counts after one more keyword, given the counts
      of the pauses that keyword added. */
  lemma PacedStep(ps: seq<Pause>, qs: seq<Pause>, done: nat, batches: nat,
                  errors: seq<ErrorEntry>, e: Option<ErrorEntry>)
    requires Paced(ps, done, batches, errors)
    requires CountReason(qs, BetweenKeywords) == 1 && CountReason(qs, BetweenBatches) == 0
    requires CountReason(qs, Cooldown) == (if e.Some? && Contains(e.value.error, "429") then 1 else 0)
    ensures Paced(ps + qs, done + 1, batches, errors + Listed(e))
  {
    CountReasonAppend(ps, qs, BetweenKeywords);
    CountReasonAppend(ps, qs, BetweenBatches);
    CountReasonAppend(ps, qs, Cooldown);
    var es := errors + Listed(e);
    if e.Some? {
      assert es[..|es| - 1] == errors;
    } else {
      assert es == errors;
    }
  }

  /** Pauses that are none of the handler's own leave its counts alone. */
  lemma PacedStall(ps: seq<Pause>, qs: seq<Pause>, done: nat, batches: nat, errors: seq<ErrorEntry>)
    requires Paced(ps, done, batches, errors)
    requires CountReason(qs, BetweenKeywords) == 0 && CountReason(qs, BetweenBatches) == 0
    requires CountReason(qs, Cooldown) == 0
    ensures Paced(ps + qs, done, batches, errors)
  {
    CountReasonAppend(ps, qs, BetweenKeywords);
    CountReasonAppend(ps, qs, BetweenBatches);
    CountReasonAppend(ps, qs, Cooldown);
  }

  /** The job's entries and pause counts after keyword `d`, given what its
      analysis appended to the results, the errors and the pauses. */
  lemma KeywordTracked(keywords: seq<Keyword>, replies: seq<Reply>, d: nat, next: nat, batches: nat,
                       results0: seq<Result>, errors0: seq<ErrorEntry>, pauses0: seq<Pause>,
                       results: seq<Result>, errors: seq<ErrorEntry>, added: seq<Pause>)
    requires d < |keywords| && Tracks(keywords, replies, d, results0, errors0, next)
    requires Paced(pauses0, d, batches, errors0)
    requires var o := Policy(replies, next, 0).outcome;
      results == results0 + Listed(ResultOf(Attempted(keywords[d], o)))
      && errors == errors0 + Listed(ErrorOf(Attempted(keywords[d], o)))
      && CountReason(added, BetweenKeywords) == (if o.Stalled? then 0 else 1)
      && CountReason(added, BetweenBatches) == 0
      && CountReason(added, Cooldown) == (if o.GaveUp? && Contains(o.message, "429") then 1 else 0)
    ensures |results| == |results0| + (if Policy(replies, next, 0).outcome.Classified? then 1 else 0)
    ensures var o := Policy(replies, next, 0).outcome;
      if o.Stalled? then
        Tracks(keywords, replies, d, results, errors, next) && Paced(pauses0 + added, d, batches, errors)
      else
        Tracks(keywords, replies, d + 1, results, errors, next + Policy(replies, next, 0).attempts)
        && Paced(pauses0 + added, d + 1, batches, errors)
  {
    var o := Policy(replies, next, 0).outcome;
    if o.Stalled? {
      assert results == results0 && errors == errors0;
      PacedStall(pauses0, added, d, batches, errors);
    } else {
      TracksStep(keywords, replies, d, results0, errors0, next);
      PacedStep(pauses0, added, d, batches, errors0, ErrorOf(Attempted(keywords[d], o)));
    }
  }

  /** The stride loop makes `ceil(n / 2)` batches. */
  lemma BatchTotal(keywords: seq<Keyword>)
    ensures |Batches(keywords, BatchSize)| == (|keywords| + 1) / 2
  {
    BatchCount(keywords, BatchSize, 0);
  }

  /** The global `processingState`. */
  class ProcessingState {
    var isProcessing: bool
    var processedCount: nat
    var totalKeywords: nat
    var results: seq<Result>
    var errors: seq<ErrorEntry>
    var startTime: Option<int>
    var lastUpdateTime: Option<int>
    var currentKeyword: string
    var status: Status

    /** A job is running exactly while its status says so, and the processed
        count is the number of results. */
    predicate Valid()
      reads this
    {
      (isProcessing <==> status == Processing) && processedCount == |results|
    }

    /** The state the server starts with. */
    constructor ()
      ensures Valid() && !isProcessing && status == Idle
      ensures processedCount == 0 && totalKeywords == 0 && results == [] && errors == []
      ensures startTime == None && lastUpdateTime == None && currentKeyword == ""
    {
      isProcessing := false;
      processedCount := 0;
      totalKeywords := 0;
      results := [];
      errors := [];
      startTime := None;
      lastUpdateTime := None;
      currentKeyword := "";
      status := Idle;
    }

    /** `analyzeKeyword` (src/server.js:83-136) for the keyword `keyword`,
        started at time `now` with the replies from index `next` on; the
        self-call carrying `retryCount` becomes this loop, one attempt per
        round. Its outcome, attempts and non-waiting pauses are those of the
        retry policy, the rate limiter goes through one call per attempt,
        made at that attempt's start (`times`: `now` for the first, and the
        end of the previous attempt's pause for the others), and the clock
        advances by exactly the pauses taken. */
    method AnalyzeKeyword(keyword: string, bucket: TokenBucket, replies: seq<Reply>, next: nat, now: int)
      returns (outcome: Outcome, attempts: nat, clock: int, pauses: seq<Pause>, ghost times: seq<int>)
      requires next <= |replies| && bucket.Valid() && bucket.lastRefill <= now
      modifies this`currentKeyword, bucket
      ensures outcome == Policy(replies, next, 0).outcome && attempts == Policy(replies, next, 0).attempts
      ensures Without(pauses, TokenWait) == Policy(replies, next, 0).pauses
      ensures AttemptPauses(pauses) && clock == now + TotalMs(pauses)
      ensures bucket.Valid() && bucket.lastRefill <= clock && |times| == attempts
      ensures (bucket.tokens, bucket.lastRefill, CountReason(pauses, TokenWait))
              == Calls(old(bucket.tokens), old(bucket.lastRefill), times)
      ensures !outcome.Stalled? ==> times == AttemptStarts(now, pauses)
      ensures outcome.Stalled? ==> times + [clock] == AttemptStarts(now, pauses)
      ensures currentKeyword == (if attempts > 0 then keyword else old(currentKeyword))
    {
      ghost var tokens0, refill0 := bucket.tokens, bucket.lastRefill;
      var i := next;
      var retryCount: nat := 0;
      outcome := Stalled;
      clock := now;
      pauses := [];
      times := [];
      while i < |replies|
        invariant next <= i <= |replies| && |times| == i - next
        invariant Metered(bucket, now, clock, pauses, tokens0, refill0, times)
        invariant currentKeyword == (if i > next then keyword else old(currentKeyword))
        invariant outcome.Stalled?
        invariant times + [clock] == AttemptStarts(now, pauses)
        invariant Continues(replies, next, i - next)
        invariant Walked(replies, next, i - next) == Walk(Without(pauses, TokenWait), retryCount)
        decreases |replies| - i
      {
        ghost var k := i - next;
        var step;
        step, clock, pauses, times := Attempt(keyword, bucket, replies[i], retryCount, now, clock, pauses, tokens0, refill0, times);
        if step.Finish? {
          assert times == AttemptStarts(now, pauses);
          WalkFinish(replies, next, k);
          outcome := step.outcome;
          i := i + 1;
          break;
        }
        WalkAgain(replies, next, k);
        retryCount := step.retryCount;
        i := i + 1;
      }
      if outcome.Stalled? {
        WalkExhausted(replies, next, i - next);
      }
      attempts := i - next;
    }

    /** One attempt (src/server.js:85-134 without the self-call): take a
        token at time `clock0`, waiting if the limiter says so; note the
        keyword as current; read the reply, and pause as `Respond` says
        before the next attempt, whose start the pauses then record. */
    method Attempt(keyword: string, bucket: TokenBucket, reply: Reply, retryCount: nat, now: int,
                   clock0: int, pauses0: seq<Pause>, ghost tokens0: int, ghost refill0: int, ghost times0: seq<int>)
      returns (step: Next, clock: int, pauses: seq<Pause>, ghost times: seq<int>)
      requires Metered(bucket, now, clock0, pauses0, tokens0, refill0, times0)
      requires times0 + [clock0] == AttemptStarts(now, pauses0)
      modifies this`currentKeyword, bucket
      ensures step == Respond(reply, retryCount)
      ensures Metered(bucket, now, clock, pauses, tokens0, refill0, times) && times == times0 + [clock0]
      ensures Without(pauses, TokenWait) == Without(pauses0, TokenWait) + (if step.Again? then [step.pause] else [])
      ensures step.Again? ==> times + [clock] == AttemptStarts(now, pauses)
      ensures step.Finish? ==> times == AttemptStarts(now, pauses)
      ensures currentKeyword == keyword
    {
      clock, pauses, times := TakeToken(keyword, bucket, now, clock0, pauses0, tokens0, refill0, times0);
      assert times == AttemptStarts(now, pauses);
      step := Respond(reply, retryCount);
      if step.Again? {
        var p := step.pause;
        SnocPause(pauses, p);
        StartsSnoc(now, pauses, p);
        pauses := pauses + [p];
        clock := clock + p.ms;
      }
    }

    /** The start of one attempt (src/server.js:85-86): take a token from
        the rate limiter at time `clock0`, waiting if it says so, then note
        the keyword as current. The limiter's state and waits follow its
        calls so far with one more at `clock0` appended. */
    method TakeToken(keyword: string, bucket: TokenBucket, now: int, clock0: int, pauses0: seq<Pause>,
                     ghost tokens0: int, ghost refill0: int, ghost times0: seq<int>)
      returns (clock: int, pauses: seq<Pause>, ghost times: seq<int>)
      requires Metered(bucket, now, clock0, pauses0, tokens0, refill0, times0)
      modifies this`currentKeyword, bucket
      ensures Metered(bucket, now, clock, pauses, tokens0, refill0, times) && times == times0 + [clock0]
      ensures Without(pauses, TokenWait) == Without(pauses0, TokenWait)
      ensures AttemptStarts(now, pauses) == AttemptStarts(now, pauses0)
      ensures currentKeyword == keyword
    {
      var waits, grantedAt := bucket.GetToken(clock0);
      CallsSnoc(tokens0, refill0, times0, clock0);
      times := times0 + [clock0];
      pauses := pauses0;
      if waits > 0 {
        var p := Pause(TokenWait, RefillInterval);
        SnocPause(pauses0, p);
        StartsSnoc(now, pauses0, p);
        pauses := pauses0 + [p];
      }
      clock := grantedAt;
      currentKeyword := keyword;
    }

    /** One keyword of the batch loop (src/server.js:190-206): analyse it;
        on success append the result, count it and note the time; on
        failure append an error entry, and pause a minute when its message
        mentions "429"; then wait a second. Attempts that never end leave
        the loop waiting, so nothing after them happens. A success notes
        the time its attempts ended, one second before the step ends; the
        bucket ends as the rate limiter's calls at the attempts' starts
        leave it. */
    method ProcessKeyword(keyword: Keyword, bucket: TokenBucket, replies: seq<Reply>, next: nat, now: int)
      returns (outcome: Outcome, after: nat, clock: int, pauses: seq<Pause>)
      requires next <= |replies| && bucket.Valid() && bucket.lastRefill <= now
      modifies this`results, this`errors, this`processedCount, this`lastUpdateTime, this`currentKeyword, bucket
      ensures outcome == Policy(replies, next, 0).outcome
      ensures after == next + Policy(replies, next, 0).attempts
      ensures results == old(results) + Listed(ResultOf(Attempted(keyword, outcome)))
      ensures errors == old(errors) + Listed(ErrorOf(Attempted(keyword, outcome)))
      ensures processedCount == old(processedCount) + (if outcome.Classified? then 1 else 0)
      ensures outcome.Classified? ==> lastUpdateTime == Some(clock - KeywordDelayMs)
      ensures !outcome.Classified? ==> lastUpdateTime == old(lastUpdateTime)
      ensures outcome.Classified? ==> now + KeywordDelayMs <= clock
      ensures currentKeyword == (if after > next then keyword.text else old(currentKeyword))
      ensures bucket.Valid() && bucket.lastRefill <= clock && clock == now + TotalMs(pauses)
      ensures after - next <= |AttemptStarts(now, pauses)|
      ensures Served(bucket.tokens, bucket.lastRefill, pauses, old(bucket.tokens), old(bucket.lastRefill),
                     AttemptStarts(now, pauses)[..after - next])
      ensures CountReason(pauses, BetweenKeywords) == (if outcome.Stalled? then 0 else 1)
      ensures CountReason(pauses, BetweenBatches) == 0
      ensures CountReason(pauses, Cooldown)
              == (if outcome.GaveUp? && Contains(outcome.message, "429") then 1 else 0)
    {
      var attempts: nat;
      var trialPauses: seq<Pause>;
      ghost var times: seq<int>;
      outcome, attempts, clock, trialPauses, times := AnalyzeKeyword(keyword.text, bucket, replies, next, now);
      after := next + attempts;
      pauses := trialPauses;
      ghost var trialEnd := clock;
      if !outcome.Stalled? {
        clock, pauses := Record(keyword, outcome, clock, trialPauses);
      }
      KeywordPauses(now, trialPauses, outcome, pauses, times, trialEnd, clock);
    }

    /** What the batch loop does with a keyword whose attempts ended
        (src/server.js:192-206), from time `clock0` after the pauses
        `pauses0`: the result or error entry, the count and time of a
        success, the one-minute pause after a "429" failure, and the
        one-second pause before the next keyword. */
    method Record(keyword: Keyword, outcome: Outcome, clock0: int, pauses0: seq<Pause>)
      returns (clock: int, pauses: seq<Pause>)
      requires !outcome.Stalled?
      modifies this`results, this`errors, this`processedCount, this`lastUpdateTime
      ensures results == old(results) + Listed(ResultOf(Attempted(keyword, outcome)))
      ensures errors == old(errors) + Listed(ErrorOf(Attempted(keyword, outcome)))
      ensures processedCount == old(processedCount) + (if outcome.Classified? then 1 else 0)
      ensures outcome.Classified? ==> lastUpdateTime == Some(clock0)
      ensures !outcome.Classified? ==> lastUpdateTime == old(lastUpdateTime)
      ensures var cooldown := outcome.GaveUp? && Contains(outcome.message, "429");
        pauses == pauses0 + (if cooldown then [Pause(Cooldown, RateLimitPauseMs)] else [])
                          + [Pause(BetweenKeywords, KeywordDelayMs)]
        && clock == clock0 + (if cooldown then RateLimitPauseMs else 0) + KeywordDelayMs
    {
      clock, pauses := clock0, pauses0;
      if outcome.Classified? {
        results := results + [Result(keyword.text, keyword.matchType, outcome.relevant)];
        processedCount := processedCount + 1;
        lastUpdateTime := Some(clock);
      } else {
        errors := errors + [KeywordError(keyword.text, outcome.message)];
        if Contains(outcome.message, "429") {
          pauses := pauses + [Pause(Cooldown, RateLimitPauseMs)];
          clock := clock + RateLimitPauseMs;
        }
      }
      pauses := pauses + [Pause(BetweenKeywords, KeywordDelayMs)];
      clock := clock + KeywordDelayMs;
    }

    /** The keywords `keywords[i..hi]` of one batch (src/server.js:190-207),
        starting with reply `next` at time `clock0` after the pauses
        `pauses0`, the job's calls to the rate limiter so far being `times0`.
        Stops early when a keyword's attempts stall. */
    method ProcessBatch(keywords: seq<Keyword>, i: nat, hi: nat, bucket: TokenBucket, replies: seq<Reply>,
                        next: nat, start: int, clock0: int, pauses0: seq<Pause>, ghost batches: nat,
                        ghost tokens0: int, ghost refill0: int, ghost times0: seq<int>)
      returns (stalled: bool, done: nat, after: nat, clock: int, pauses: seq<Pause>, ghost times: seq<int>)
      requires i <= hi <= |keywords| && Tracks(keywords, replies, i, results, errors, next)
      requires processedCount == |results| && Paced(pauses0, i, batches, errors)
      requires bucket.Valid() && bucket.lastRefill <= clock0 && clock0 == start + TotalMs(pauses0)
      requires lastUpdateTime.Some? && start <= lastUpdateTime.value <= clock0
      requires Paid(bucket.tokens, bucket.lastRefill, pauses0, tokens0, refill0, times0, start, clock0) && |times0| == next
      modifies this`results, this`errors, this`processedCount, this`lastUpdateTime, this`currentKeyword, bucket
      ensures i <= done <= hi && Tracks(keywords, replies, done, results, errors, after)
      ensures processedCount == |results| && Paced(pauses, done, batches, errors)
      ensures stalled <==> done < hi
      ensures stalled ==> Policy(replies, after, 0).outcome.Stalled?
      ensures bucket.Valid() && bucket.lastRefill <= clock && clock == start + TotalMs(pauses)
      ensures lastUpdateTime.Some? && start <= lastUpdateTime.value <= clock
      ensures Paid(bucket.tokens, bucket.lastRefill, pauses, tokens0, refill0, times, start, clock)
      ensures |times| == (if stalled then |replies| else after)
    {
      done, after, clock, pauses, times := i, next, clock0, pauses0, times0;
      stalled := false;
      while done < hi
        invariant i <= done <= hi && Tracks(keywords, replies, done, results, errors, after)
        invariant processedCount == |results| && Paced(pauses, done, batches, errors)
        invariant bucket.Valid() && bucket.lastRefill <= clock && clock == start + TotalMs(pauses)
        invariant lastUpdateTime.Some? && start <= lastUpdateTime.value <= clock
        invariant Paid(bucket.tokens, bucket.lastRefill, pauses, tokens0, refill0, times, start, clock) && |times| == after
      {
        stalled, done, after, clock, pauses, times :=
          KeywordStep(keywords, done, bucket, replies, after, start, clock, pauses, batches, tokens0, refill0, times);
        if stalled {
          return;
        }
      }
    }

    /** `ProcessKeyword` as one step of a job that began at `start`: the
        keyword's calls to the rate limiter, made at its attempts' starts,
        follow the job's earlier calls `times0`, so the limiter's state and
        the job's waits are those of all the job's calls so far. */
    method JobKeyword(keyword: Keyword, bucket: TokenBucket, replies: seq<Reply>, next: nat, start: int,
                      now: int, pauses0: seq<Pause>, ghost tokens0: int, ghost refill0: int, ghost times0: seq<int>)
      returns (outcome: Outcome, after: nat, clock: int, pauses: seq<Pause>, ghost times: seq<int>)
      requires next <= |replies| && bucket.Valid() && bucket.lastRefill <= now
      requires Paid(bucket.tokens, bucket.lastRefill, pauses0, tokens0, refill0, times0, start, now)
      modifies this`results, this`errors, this`processedCount, this`lastUpdateTime, this`currentKeyword, bucket
      ensures outcome == Policy(replies, next, 0).outcome
      ensures after == next + Policy(replies, next, 0).attempts
      ensures results == old(results) + Listed(ResultOf(Attempted(keyword, outcome)))
      ensures errors == old(errors) + Listed(ErrorOf(Attempted(keyword, outcome)))
      ensures processedCount == old(processedCount) + (if outcome.Classified? then 1 else 0)
      ensures outcome.Classified? ==> lastUpdateTime == Some(clock - KeywordDelayMs)
      ensures !outcome.Classified? ==> lastUpdateTime == old(lastUpdateTime)
      ensures outcome.Classified? ==> now + KeywordDelayMs <= clock
      ensures bucket.Valid() && bucket.lastRefill <= clock && clock == now + TotalMs(pauses)
      ensures Paid(bucket.tokens, bucket.lastRefill, pauses0 + pauses, tokens0, refill0, times, start, clock)
      ensures |times| == |times0| + (after - next)
      ensures CountReason(pauses, BetweenKeywords) == (if outcome.Stalled? then 0 else 1)
      ensures CountReason(pauses, BetweenBatches) == 0
      ensures CountReason(pauses, Cooldown)
              == (if outcome.GaveUp? && Contains(outcome.message, "429") then 1 else 0)
    {
      ghost var tokens1, refill1 := bucket.tokens, bucket.lastRefill;
      outcome, after, clock, pauses := ProcessKeyword(keyword, bucket, replies, next, now);
      KeywordCalls(tokens0, refill0, times0, pauses0, start, tokens1, refill1, now, pauses, after - next,
                   bucket.tokens, bucket.lastRefill);
      times := times0 + AttemptStarts(now, pauses)[..after - next];
    }

    /** One keyword of a batch (src/server.js:190-206): its analysis, its
        entry in the results or errors, the cooldown after an error that
        mentions 429 and the pause after it; nothing but the attempts' own
        pauses when its attempts stall. */
    method KeywordStep(keywords: seq<Keyword>, d: nat, bucket: TokenBucket, replies: seq<Reply>,
                       next: nat, start: int, clock0: int, pauses0: seq<Pause>, ghost batches: nat,
                       ghost tokens0: int, ghost refill0: int, ghost times0: seq<int>)
      returns (stalled: bool, done: nat, after: nat, clock: int, pauses: seq<Pause>, ghost times: seq<int>)
      requires d < |keywords| && Tracks(keywords, replies, d, results, errors, next)
      requires processedCount == |results| && Paced(pauses0, d, batches, errors)
      requires bucket.Valid() && bucket.lastRefill <= clock0 && clock0 == start + TotalMs(pauses0)
      requires lastUpdateTime.Some? && start <= lastUpdateTime.value <= clock0
      requires Paid(bucket.tokens, bucket.lastRefill, pauses0, tokens0, refill0, times0, start, clock0)
      modifies this`results, this`errors, this`processedCount, this`lastUpdateTime, this`currentKeyword, bucket
      ensures processedCount == |results|
      ensures bucket.Valid() && bucket.lastRefill <= clock && clock == start + TotalMs(pauses)
      ensures lastUpdateTime.Some? && start <= lastUpdateTime.value <= clock
      ensures done == (if stalled then d else d + 1) && done <= |keywords|
      ensures stalled ==> after == next && Policy(replies, next, 0).outcome.Stalled?
      ensures Tracks(keywords, replies, done, results, errors, after) && Paced(pauses, done, batches, errors)
      ensures Paid(bucket.tokens, bucket.lastRefill, pauses, tokens0, refill0, times, start, clock)
      ensures |times| == |times0| + (if stalled then |replies| - next else after - next)
    {
      ghost var results0, errors0 := results, errors;
      var outcome, added;
      outcome, after, clock, added, times :=
        JobKeyword(keywords[d], bucket, replies, next, start, clock0, pauses0, tokens0, refill0, times0);
      TotalMsAppend(pauses0, added);
      KeywordTracked(keywords, replies, d, next, batches, results0, errors0, pauses0, results, errors, added);
      pauses := pauses0 + added;
      stalled := outcome.Stalled?;
      done := if stalled then d else d + 1;
      if stalled {
        after := next;
      }
    }

    /** The batch loop (src/server.js:187-210): batch after batch of
        `BatchSize` keywords, with a pause after each batch, from reply 0 at
        time `start`. Returns how many keywords finished; fewer than all
        exactly when one's attempts stalled, and the job's calls to the rate
        limiter, `times`. */
    method RunBatches(keywords: seq<Keyword>, bucket: TokenBucket, replies: seq<Reply>, start: int)
      returns (done: nat, next: nat, clock: int, pauses: seq<Pause>, ghost times: seq<int>)
      requires results == [] && errors == [] && processedCount == 0 && lastUpdateTime == Some(start)
      requires bucket.Valid() && bucket.lastRefill <= start
      modifies this`results, this`errors, this`processedCount, this`lastUpdateTime, this`currentKeyword, bucket
      ensures done <= |keywords| && processedCount == |results|
      ensures Tracks(keywords, replies, done, results, errors, next)
      ensures done < |keywords| ==> Policy(replies, next, 0).outcome.Stalled?
      ensures Paced(pauses, done, if done == |keywords| then |Batches(keywords, BatchSize)| else done / 2, errors)
      ensures bucket.Valid() && bucket.lastRefill <= clock && clock == start + TotalMs(pauses)
      ensures lastUpdateTime.Some? && start <= lastUpdateTime.value <= clock
      ensures Paid(bucket.tokens, bucket.lastRefill, pauses, old(bucket.tokens), old(bucket.lastRefill), times, start, clock)
      ensures |times| == (if done < |keywords| then |replies| else next)
    {
      var n := |keywords|;
      var i := 0;
      ghost var b := 0;
      ghost var tokens0, refill0 := bucket.tokens, bucket.lastRefill;
      done, next, clock, pauses, times := 0, 0, start, [], [];
      while i < n
        invariant i == BatchSize * b && i <= n + 1 && done == Min(i, n)
        invariant Tracks(keywords, replies, done, results, errors, next)
        invariant processedCount == |results| && Paced(pauses, done, b, errors)
        invariant bucket.Valid() && bucket.lastRefill <= clock && clock == start + TotalMs(pauses)
        invariant lastUpdateTime.Some? && start <= lastUpdateTime.value <= clock
        invariant Paid(bucket.tokens, bucket.lastRefill, pauses, tokens0, refill0, times, start, clock) && |times| == next
      {
        var hi := Min(i + BatchSize, n);
        var stalled;
        stalled, done, next, clock, pauses, times :=
          ProcessBatch(keywords, i, hi, bucket, replies, next, start, clock, pauses, b, tokens0, refill0, times);
        if stalled {
          assert done / 2 == b;
          return;
        }
        var p := Pause(BetweenBatches, BatchDelayMs);
        SnocPause(pauses, p);
        PaidPause(bucket.tokens, bucket.lastRefill, pauses, p, tokens0, refill0, times, start, clock);
        pauses := pauses + [p];
        clock := clock + BatchDelayMs;
        i, b := i + BatchSize, b + 1;
      }
      BatchTotal(keywords);
      assert (n + 1) / 2 == b;
    }

    /** `POST /api/analyze-bulk` (src/server.js:139-223) at time `now`:
        refuse while a job runs; read the upload, where a missing file or an
        unreadable workbook throws into the catch, which marks the job
        failed and sends nothing; refuse a sheet without keywords; otherwise
        reset the job, answer at once and run the batches, then mark the job
        completed. Returns the response, the pauses taken and the number of
        keywords whose analysis finished. Only a job that starts uses the
        rate limiter: one call per attempt, at `times` within the job, which
        leave the limiter's state and the job's token waits. */
    method AnalyzeBulk(file: Option<Workbook>, bucket: TokenBucket, replies: seq<Reply>, now: int)
      returns (response: Response, pauses: seq<Pause>, done: nat, ghost times: seq<int>)
      requires Valid() && bucket.Valid() && bucket.lastRefill <= now
      modifies this, bucket
      ensures Valid() && bucket.Valid()
      ensures old(isProcessing) ==>
        response == Refusal(409, "Analysis already in progress") && pauses == []
        && unchanged(this) && unchanged(bucket)
      ensures !old(isProcessing) && IntakeOf(file).Throws? ==>
        response == NoResponse && pauses == [] && !isProcessing && status == Error
        && errors == old(errors) + [JobError(IntakeOf(file).message)]
        && results == old(results) && processedCount == old(processedCount)
        && totalKeywords == old(totalKeywords) && startTime == old(startTime)
        && lastUpdateTime == old(lastUpdateTime) && currentKeyword == old(currentKeyword)
        && unchanged(bucket)
      ensures !old(isProcessing) && IntakeOf(file) == Extracted([]) ==>
        response == Refusal(400, "No keywords found in file") && pauses == []
        && unchanged(this) && unchanged(bucket)
      ensures !old(isProcessing) && IntakeOf(file).Extracted? && IntakeOf(file).keywords != [] ==>
        var keywords := IntakeOf(file).keywords;
        response == Started(|keywords|) && Ran(keywords, replies, now, pauses, done)
        && bucket.lastRefill <= now + TotalMs(pauses)
        && Paid(bucket.tokens, bucket.lastRefill, pauses, old(bucket.tokens), old(bucket.lastRefill), times, now, now + TotalMs(pauses))
        && |times| == (if done < |keywords| then |replies| else Tallied(keywords, replies, done).next)
    {
      pauses, done, times := [], 0, [];
      if isProcessing {
        return Refusal(409, "Analysis already in progress"), pauses, done, times;
      }
      if file.None? || file.value.Unloadable? {
        var message := if file.None? then MissingFileMessage else file.value.message;
        isProcessing := false;
        status := Error;
        errors := errors + [JobError(message)];
        return NoResponse, pauses, done, times;
      }
      var keywords := ExtractKeywords(file.value.rows);
      if |keywords| == 0 {
        return Refusal(400, "No keywords found in file"), pauses, done, times;
      }
      response := Started(|keywords|);
      pauses, done, times := Run(keywords, bucket, replies, now);
    }

    /** The job from the reset of src/server.js:167-177 on: a fresh job of
        the `keywords` started at `now`, its batches, and the completion of
        src/server.js:212-215 once every keyword's analysis finished. The
        limiter is left as the job's calls at `times`, one per attempt and
        all within the job, leave it. */
    method Run(keywords: seq<Keyword>, bucket: TokenBucket, replies: seq<Reply>, now: int)
      returns (pauses: seq<Pause>, done: nat, ghost times: seq<int>)
      requires bucket.Valid() && bucket.lastRefill <= now
      modifies this, bucket
      ensures Valid() && bucket.Valid() && Ran(keywords, replies, now, pauses, done)
      ensures bucket.lastRefill <= now + TotalMs(pauses)
      ensures Paid(bucket.tokens, bucket.lastRefill, pauses, old(bucket.tokens), old(bucket.lastRefill), times, now, now + TotalMs(pauses))
      ensures |times| == (if done < |keywords| then |replies| else Tallied(keywords, replies, done).next)
    {
      Reset(|keywords|, now);
      var next, clock;
      done, next, clock, pauses, times := RunBatches(keywords, bucket, replies, now);
      if done < |keywords| {
        TracksStall(keywords, replies, done, results, errors, next);
      } else {
        TracksCover(keywords, replies, done, results, errors, next);
        isProcessing := false;
        status := Completed;
        currentKeyword := "";
      }
    }

    /** The reset of src/server.js:167-177 for a job of `n` keywords
        started at `now`. */
    method Reset(n: nat, now: int)
      modifies this
      ensures isProcessing && status == Processing && processedCount == 0 && totalKeywords == n
      ensures results == [] && errors == [] && startTime == Some(now) && lastUpdateTime == Some(now)
      ensures currentKeyword == ""
    {
      isProcessing := true;
      processedCount := 0;
      totalKeywords := n;
      results := [];
      errors := [];
      startTime := Some(now);
      lastUpdateTime := Some(now);
      currentKeyword := "";
      status := Processing;
    }

    /** The job after `AnalyzeBulk` accepted the sheet `keywords` at time
        `now` and `done` keywords finished: totals and start time as set by
        the reset; results and errors those of the first `done` keywords;
        either all finished and the job is completed with one entry per
        keyword, or the next keyword's attempts stalled and the job still
        runs; and the handler's pauses as counted by `Paced`. */
    predicate Ran(keywords: seq<Keyword>, replies: seq<Reply>, now: int, pauses: seq<Pause>, done: nat)
      reads this
    {
      var n := |keywords|;
      totalKeywords == n && startTime == Some(now) && done <= n
      && Tracks(keywords, replies, done, results, errors, Tallied(keywords, replies, done).next)
      && lastUpdateTime.Some? && now <= lastUpdateTime.value <= now + TotalMs(pauses)
      && (done == n ==>
            !isProcessing && status == Completed && currentKeyword == "" && |results| + |errors| == n)
      && (done < n ==>
            isProcessing && status == Processing
            && Tallied(keywords, replies, done + 1).attempted[done].outcome.Stalled?)
      && Paced(pauses, done, if done == n then |Batches(keywords, BatchSize)| else done / 2, errors)
    }
  }

  /** The clock and the rate limiter during one keyword's attempts: the
      limiter is valid and refilled no later than `clock`; the pauses are
      attempt pauses, and together they took `clock - now`; the limiter's
      state and its waits are those of calls at `times` from the state
      `tokens0`, `refill0`. */
  predicate Metered(bucket: TokenBucket, now: int, clock: int, pauses: seq<Pause>,
                    tokens0: int, refill0: int, times: seq<int>)
    reads bucket
  {
    bucket.Valid() && bucket.lastRefill <= clock
    && AttemptPauses(pauses) && clock == now + TotalMs(pauses)
    && (bucket.tokens, bucket.lastRefill, CountReason(pauses, TokenWait)) == Calls(tokens0, refill0, times)
  }

  /** The rate limiter's `tokens` and `lastRefill`, and the waits among
      the `pauses`, are those that calls at the `times`, one after the
      other, leave when they start from the state `tokens0`, `refill0`. */
  predicate Served(tokens: int, lastRefill: int, pauses: seq<Pause>, tokens0: int, refill0: int, times: seq<int>)
  {
    var c := Calls(tokens0, refill0, times);
    tokens == c.0 && lastRefill == c.1 && CountReason(pauses, TokenWait) == c.2
  }

  /** One keyword's calls continue the job's: made at its attempts'
      starts, after the earlier calls and within the job's time, they take
      the limiter on from the state the earlier calls left, and the waits
      add up. */
  lemma KeywordCalls(tokens0: int, refill0: int, times0: seq<int>, pauses0: seq<Pause>, start: int,
                     tokens1: int, refill1: int, now: int, added: seq<Pause>, k: nat, tokens2: int, refill2: int)
    requires Paid(tokens1, refill1, pauses0, tokens0, refill0, times0, start, now)
    requires k <= |AttemptStarts(now, added)|
    requires Served(tokens2, refill2, added, tokens1, refill1, AttemptStarts(now, added)[..k])
    ensures Paid(tokens2, refill2, pauses0 + added, tokens0, refill0,
                 times0 + AttemptStarts(now, added)[..k], start, now + TotalMs(added))
    ensures |times0 + AttemptStarts(now, added)[..k]| == |times0| + k
  {
    var starts := AttemptStarts(now, added)[..k];
    CallsSplit(tokens0, refill0, times0, starts);
    CountReasonAppend(pauses0, added, TokenWait);
    StartsDuring(now, added);
    DuringJoin(times0, AttemptStarts(now, added), k, start, now, now + TotalMs(added));
  }

  /** A pause other than a wait for the limiter leaves what the calls did,
      and only moves the clock on. */
  lemma PaidPause(tokens: int, lastRefill: int, pauses: seq<Pause>, p: Pause, tokens0: int, refill0: int,
                  times: seq<int>, start: int, clock: int)
    requires Paid(tokens, lastRefill, pauses, tokens0, refill0, times, start, clock) && p.reason != TokenWait
    ensures Paid(tokens, lastRefill, pauses + [p], tokens0, refill0, times, start, clock + p.ms)
  {
    CountReasonAppend(pauses, [p], TokenWait);
  }

  /** Times none before `start` and none after `clock`, within a stretch
      that does not end before it begins. */
  predicate During(times: seq<int>, start: int, clock: int)
  {
    start <= clock && forall i :: 0 <= i < |times| ==> start <= times[i] <= clock
  }

  /** The rate limiter during a job that began at `start`: as `Served`,
      with the calls made between `start` and `clock`. */
  predicate Paid(tokens: int, lastRefill: int, pauses: seq<Pause>, tokens0: int, refill0: int,
                 times: seq<int>, start: int, clock: int)
  {
    Served(tokens, lastRefill, pauses, tokens0, refill0, times) && During(times, start, clock)
  }

  /** A keyword's attempts start within its pauses. */
  lemma {:induction false} StartsDuring(now: int, ps: seq<Pause>)
    ensures During(AttemptStarts(now, ps), now, now + TotalMs(ps))
    decreases |ps|
  {
    if ps != [] {
      var init, last := ps[..|ps| - 1], ps[|ps| - 1];
      StartsDuring(now, init);
      assert init + [last] == ps;
      SnocPause(init, last);
    }
  }

  /** The calls of one keyword, made after the earlier ones, keep the job's
      calls within its time. */
  lemma DuringJoin(times0: seq<int>, starts: seq<int>, k: nat, start: int, clock0: int, clock: int)
    requires During(times0, start, clock0) && During(starts, clock0, clock) && k <= |starts|
    ensures During(times0 + starts[..k], start, clock)
  {
    var r := times0 + starts[..k];
    forall i | 0 <= i < |r|
      ensures start <= r[i] <= clock
    {
      if i >= |times0| {
        assert r[i] == starts[i - |times0|];
      }
    }
  }

  /** The times at which a keyword's attempts start, given the pauses
      taken since `now`: the first at `now`, and one more at the end of
      each pause that ends an attempt, which is every pause but a wait for
      the rate limiter (src/server.js:85, 112-114 and 129-132). */
  function AttemptStarts(now: int, ps: seq<Pause>): seq<int>
    decreases |ps|
  {
    if ps == [] then [now]
    else
      var init := AttemptStarts(now, ps[..|ps| - 1]);
      if ps[|ps| - 1].reason == TokenWait then init else init + [now + TotalMs(ps)]
  }

  /** One more pause adds an attempt start at its end, unless it is a wait
      for the rate limiter. */
  lemma StartsSnoc(now: int, ps: seq<Pause>, p: Pause)
    ensures AttemptStarts(now, ps + [p])
            == AttemptStarts(now, ps) + (if p.reason == TokenWait then [] else [now + TotalMs(ps) + p.ms])
  {
    assert (ps + [p])[..|ps|] == ps;
  }

  /** Later pauses only add attempt starts after the earlier ones. */
  lemma {:induction false} StartsPrefix(now: int, ps: seq<Pause>, qs: seq<Pause>)
    ensures AttemptStarts(now, ps) <= AttemptStarts(now, ps + qs)
    decreases |qs|
  {
    if qs == [] {
      assert ps + qs == ps;
    } else {
      var init := qs[..|qs| - 1];
      assert ps + qs == (ps + init) + [qs[|qs| - 1]];
      StartsPrefix(now, ps, init);
      StartsSnoc(now, ps + init, qs[|qs| - 1]);
    }
  }

  /** The pauses after a keyword's attempts ended: the optional one-minute
      cooldown, then the one-second pause. */
  lemma AftermathPauses(ps0: seq<Pause>, cooldown: bool, ps: seq<Pause>)
    requires ps == ps0 + (if cooldown then [Pause(Cooldown, RateLimitPauseMs)] else [])
                       + [Pause(BetweenKeywords, KeywordDelayMs)]
    ensures ps0 <= ps
    ensures TotalMs(ps) == TotalMs(ps0) + (if cooldown then RateLimitPauseMs else 0) + KeywordDelayMs
    ensures CountReason(ps, TokenWait) == CountReason(ps0, TokenWait)
    ensures CountReason(ps, BetweenKeywords) == CountReason(ps0, BetweenKeywords) + 1
    ensures CountReason(ps, BetweenBatches) == CountReason(ps0, BetweenBatches)
    ensures CountReason(ps, Cooldown) == CountReason(ps0, Cooldown) + (if cooldown then 1 else 0)
  {
    var last := Pause(BetweenKeywords, KeywordDelayMs);
    if cooldown {
      var mid := ps0 + [Pause(Cooldown, RateLimitPauseMs)];
      SnocPause(ps0, Pause(Cooldown, RateLimitPauseMs));
      SnocPause(mid, last);
      assert ps == mid + [last];
    } else {
      SnocPause(ps0, last);
      assert ps == ps0 + [last];
    }
  }

  /** The pauses of one keyword of the batch loop: those of its attempts,
      which end at `trialEnd`, then, unless they stalled, the aftermath's,
      which end at `clock`. */
  lemma KeywordPauses(now: int, trial: seq<Pause>, outcome: Outcome, pauses: seq<Pause>, times: seq<int>,
                      trialEnd: int, clock: int)
    requires AttemptPauses(trial) && trialEnd == now + TotalMs(trial)
    requires !outcome.Stalled? ==> times == AttemptStarts(now, trial)
    requires outcome.Stalled? ==> times + [trialEnd] == AttemptStarts(now, trial)
    requires outcome.Stalled? ==> pauses == trial && clock == trialEnd
    requires !outcome.Stalled? ==> var cooldown := outcome.GaveUp? && Contains(outcome.message, "429");
      pauses == trial + (if cooldown then [Pause(Cooldown, RateLimitPauseMs)] else [])
                      + [Pause(BetweenKeywords, KeywordDelayMs)]
      && clock == trialEnd + (if cooldown then RateLimitPauseMs else 0) + KeywordDelayMs
    ensures clock == now + TotalMs(pauses) && trialEnd <= clock
    ensures |times| <= |AttemptStarts(now, pauses)| && times == AttemptStarts(now, pauses)[..|times|]
    ensures CountReason(pauses, TokenWait) == CountReason(trial, TokenWait)
    ensures CountReason(pauses, BetweenKeywords) == (if outcome.Stalled? then 0 else 1)
    ensures CountReason(pauses, BetweenBatches) == 0
    ensures CountReason(pauses, Cooldown) == (if outcome.GaveUp? && Contains(outcome.message, "429") then 1 else 0)
  {
    AttemptPausesCount(trial, BetweenKeywords);
    AttemptPausesCount(trial, BetweenBatches);
    AttemptPausesCount(trial, Cooldown);
    var cooldown := outcome.GaveUp? && Contains(outcome.message, "429");
    if !outcome.Stalled? {
      AftermathPauses(trial, cooldown, pauses);
    } else {
      assert pauses[|trial|..] == [];
    }
    assert times <= AttemptStarts(now, trial);
    StartsKept(now, trial, pauses, times);
  }

  /** Attempt starts read off some pauses stay the first ones once more
      pauses follow. */
  lemma StartsKept(now: int, ps: seq<Pause>, qs: seq<Pause>, times: seq<int>)
    requires ps <= qs && times <= AttemptStarts(now, ps)
    ensures |times| <= |AttemptStarts(now, qs)| && times == AttemptStarts(now, qs)[..|times|]
  {
    assert ps + qs[|ps|..] == qs;
    StartsPrefix(now, ps, qs[|ps|..]);
  }

  /** Appending one pause adds its length to the total and one to the count
      of its reason, and leaves the pauses for other reasons in order. */
  lemma SnocPause(ps: seq<Pause>, p: Pause)
    ensures TotalMs(ps + [p]) == TotalMs(ps) + p.ms
    ensures forall r :: CountReason(ps + [p], r) == CountReason(ps, r) + (if p.reason == r then 1 else 0)
    ensures forall r :: Without(ps + [p], r) == Without(ps, r) + (if p.reason == r then [] else [p])
  {
    assert (ps + [p])[..|ps|] == ps;
  }

  /** `GET /api/download-results` (src/server.js:226-242): 404 while there
      are no results; otherwise a worksheet of a header row and one row per
      result, in order. */
  datatype Export = NoResults(status: nat, error: string) | Exported(rows: seq<seq<string>>)

  const ExportHeader: seq<string> := ["Keyword", "Match Type", "Status"]

  function StatusLabel(status: bool): string
  {
    if status then "Relevant" else "Not Relevant"
  }

  function ExportRow(r: Result): seq<string>
  {
    [r.keyword, r.matchType, StatusLabel(r.status)]
  }

  /** One row per result, in order. */
  function ExportRows(results: seq<Result>): (rows: seq<seq<string>>)
    ensures |rows| == |results|
  {
    if results == [] then []
    else ExportRows(results[..|results| - 1]) + [ExportRow(results[|results| - 1])]
  }

  /** `GET /api/download` (src/server.js:226-242): 404 without results;
      otherwise the header row and one row per result, which read back as
      the results, in order, so the download loses nothing. */
  function Download(results: seq<Result>): (e: Export)
    ensures e.NoResults? <==> results == []
    ensures e.NoResults? ==> e == NoResults(404, "No results available")
    ensures e.Exported? ==>
      |e.rows| == |results| + 1 && e.rows[0] == ExportHeader
      && Rectangular(e.rows) && ReadExport(e.rows) == results
  {
    if results == [] then NoResults(404, "No results available")
    else
      var rows := [ExportHeader] + ExportRows(results);
      RowsRoundTrip(results);
      assert rows[1..] == ExportRows(results);
      Exported(rows)
  }

  /** Every row has the three columns. */
  predicate Rectangular(rows: seq<seq<string>>)
  {
    forall i :: 0 <= i < |rows| ==> |rows[i]| == 3
  }

  function ImportRow(row: seq<string>): Result
    requires |row| == 3
  {
    Result(row[0], row[1], row[2] == "Relevant")
  }

  function ImportRows(rows: seq<seq<string>>): seq<Result>
    requires Rectangular(rows)
  {
    if rows == [] then []
    else ImportRows(rows[..|rows| - 1]) + [ImportRow(rows[|rows| - 1])]
  }

  /** Reading an exported worksheet back: every row after the header is a
      result, relevant exactly when its third cell says "Relevant". */
  function ReadExport(rows: seq<seq<string>>): seq<Result>
    requires Rectangular(rows)
  {
    if rows == [] then [] else ImportRows(rows[1..])
  }

  /** A result's row reads back as that result. */
  lemma ExportImport(r: Result)
    ensures |ExportRow(r)| == 3 && ImportRow(ExportRow(r)) == r
  {
    assert "Not Relevant" != "Relevant";
  }

  /** Row j of the export is the row of result j. */
  lemma {:induction false} ExportRowsAt(results: seq<Result>, j: nat)
    requires j < |results|
    ensures ExportRows(results)[j] == ExportRow(results[j])
  {
    if j < |results| - 1 {
      ExportRowsAt(results[..|results| - 1], j);
    }
  }

  /** Every exported row has the three columns. */
  lemma RowsRectangular(results: seq<Result>)
    ensures Rectangular(ExportRows(results))
  {
    var rows := ExportRows(results);
    forall i | 0 <= i < |rows|
      ensures |rows[i]| == 3
    {
      ExportRowsAt(results, i);
    }
  }

  lemma {:induction false} RowsRoundTrip(results: seq<Result>)
    ensures Rectangular(ExportRows(results)) && ImportRows(ExportRows(results)) == results
  {
    RowsRectangular(results);
    if results != [] {
      var init := results[..|results| - 1];
      var last := results[|results| - 1];
      RowsRoundTrip(init);
      ExportImport(last);
      var rows := ExportRows(results);
      assert rows[..|rows| - 1] == ExportRows(init);
      assert rows[|rows| - 1] == ExportRow(last);
      assert ImportRows(rows) == ImportRows(ExportRows(init)) + [ImportRow(ExportRow(last))];
      assert results == init + [last];
    }
  }

  /** One header row, then one row per result, in order: its keyword, its
      match type and its status label. */
  lemma DownloadRows(results: seq<Result>)
    requires results != []
    ensures |Download(results).rows| == |results| + 1 && Download(results).rows[0] == ExportHeader
    ensures forall j :: 0 <= j < |results| ==>
      Download(results).rows[j + 1] == [results[j].keyword, results[j].matchType, StatusLabel(results[j].status)]
  {
    var rows := Download(results).rows;
    forall j | 0 <= j < |results|
      ensures rows[j + 1] == ExportRow(results[j])
    {
      ExportRowsAt(results, j);
    }
  }

  /** The status column says "Relevant" exactly for the relevant results
      and "Not Relevant" for all others. */
  lemma StatusLabels(status: bool)
    ensures StatusLabel(status) == "Relevant" <==> status
    ensures StatusLabel(status) == "Not Relevant" <==> !status
  {
    assert "Not Relevant" != "Relevant";
  }
}
