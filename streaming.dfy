/** The bulk-analysis endpoint of server.js: the request checks, the
    per-keyword `analyzeKeyword`, and the `processKeywords` loop with its
    circuit breaker, its pauses and the progress events it publishes. */
module Streaming {
  import opened Base
  import opened Text
  import opened Oracle
  import opened Sheet

  const BatchSize: nat := 10
  const BetweenBatchesMs: nat := 300
  const BetweenKeywordsMs: nat := 100
  const BreakerMs: nat := 30000
  const MaxConsecutiveErrors: nat := 3

  /** The payloads `sendProgressUpdate` is called with, without the timestamp
      it adds. */
  datatype Event =
    | Start(total: nat)                                  // type 'start'
    | Processing(keyword: string)                        // type 'processing'
    | KeywordCompleted(keyword: string)                  // type 'completed'
    | KeywordError(keyword: string)                      // type 'error' for one keyword
    | Progress(processed: nat, total: nat, percent: nat) // type 'progress'
    | Complete(processed: nat, total: nat)               // type 'complete'

  /** The observable steps of a run, in the order they happen. */
  datatype Effect = Publish(event: Event) | Sleep(pause: Pause)

  /** One entry of `results`: the classification, or the error entry with
      `status: 'error'` and the error's message. */
  datatype Entry =
    | Classified(keyword: string, matchType: string, relevant: bool)
    | Errored(keyword: string, matchType: string, message: string)

  function Publishes(events: seq<Event>): (r: seq<Effect>)
    ensures |r| == |events|
  {
    seq(|events|, i requires 0 <= i < |events| => Publish(events[i]))
  }

  function Sleeps(pauses: seq<Pause>): (r: seq<Effect>)
    ensures |r| == |pauses|
  {
    seq(|pauses|, i requires 0 <= i < |pauses| => Sleep(pauses[i]))
  }

  function PauseOf(e: Effect): Option<Pause>
  {
    if e.Sleep? then Some(e.pause) else None
  }

  function PercentOf(e: Effect): Option<nat>
  {
    if e.Publish? && e.event.Progress? then Some(e.event.percent) else None
  }

  /** The pauses of a run, in order. */
  function PausesIn(effects: seq<Effect>): seq<Pause>
  {
    FilterMap(PauseOf, effects)
  }

  /** The `percentComplete` values of a run's progress events, in order. */
  function PercentsIn(effects: seq<Effect>): seq<nat>
  {
    FilterMap(PercentOf, effects)
  }

  lemma {:induction false} PausesOfSleeps(pauses: seq<Pause>)
    ensures PausesIn(Sleeps(pauses)) == pauses
    ensures PercentsIn(Sleeps(pauses)) == []
  {
    if pauses != [] {
      var init := pauses[..|pauses| - 1];
      PausesOfSleeps(init);
      assert Sleeps(pauses)[..|pauses| - 1] == Sleeps(init);
    }
  }

  lemma PublishesArePublishes(events: seq<Event>)
    ensures PausesIn(Publishes(events)) == []
  {
    FilterMapNone(PauseOf, Publishes(events));
  }

  /** Integer division of naturals, by repeated subtraction. */
  function Quotient(x: nat, d: nat): nat
    requires d > 0
    decreases x
  {
    if x < d then 0 else 1 + Quotient(x - d, d)
  }

  /** `Quotient` is the quotient: `x` lies in `[q * d, q * d + d)` for
      exactly `q == Quotient(x, d)`. */
  lemma {:induction false} QuotientExact(x: nat, d: nat, q: nat)
    requires d > 0 && q * d <= x < q * d + d
    ensures Quotient(x, d) == q
    decreases q
  {
    if q > 0 {
      assert q * d == (q - 1) * d + d;
      QuotientExact(x - d, d, q - 1);
    }
  }

  lemma {:induction false} QuotientMonotone(x: nat, y: nat, d: nat)
    requires d > 0 && x <= y
    ensures Quotient(x, d) <= Quotient(y, d)
    decreases x
  {
    if x >= d {
      QuotientMonotone(x - d, y - d, d);
    }
  }

  /** `Math.round(p / n * 100)` in exact arithmetic: the nearest integer to
      100p/n with halves rounded up, which is the quotient of 200p + n by 2n. */
  function Percent(p: nat, n: nat): nat
    requires n > 0
  {
    Quotient(200 * p + n, 2 * n)
  }

  /** `percentComplete` stays within 0..100 while at most all keywords are
      processed, never decreases as more are processed, and is 100 once all
      are. */
  lemma PercentRange(p: nat, q: nat, n: nat)
    requires 0 < n && p <= q <= n
    ensures Percent(p, n) <= Percent(q, n) <= 100
    ensures Percent(n, n) == 100
  {
    QuotientMonotone(200 * p + n, 200 * q + n, 2 * n);
    QuotientMonotone(200 * q + n, 200 * n + n, 2 * n);
    QuotientExact(200 * n + n, 2 * n, 100);
  }

  /** The rounding: the percentage is within half a point of 100p/n. */
  lemma PercentRounds(p: nat, n: nat)
    requires n > 0
    ensures 2 * n * Percent(p, n) <= 200 * p + n < 2 * n * Percent(p, n) + 2 * n
  {
    QuotientBounds(200 * p + n, 2 * n);
  }

  lemma {:induction false} QuotientBounds(x: nat, d: nat)
    requires d > 0
    ensures d * Quotient(x, d) <= x < d * Quotient(x, d) + d
    decreases x
  {
    if x >= d {
      QuotientBounds(x - d, d);
      assert d * Quotient(x, d) == d * Quotient(x - d, d) + d;
    }
  }

  /** The body of `analyzeKeyword` was parsed as JSON: the point at which the
      'completed' event is published. */
  predicate Parsed(reply: Reply)
  {
    reply.Response? && IsOk(reply.status) && reply.body.Json?
  }

  /** What one call of `analyzeKeyword` publishes and how it ends. */
  datatype Analysis = Analysis(events: seq<Event>, verdict: Verdict)

  /** `analyzeKeyword` (server.js:111-173) for one oracle reply: it publishes
      'processing', then 'completed' once the body is parsed, then 'error'
      if anything threw, and returns or rethrows. */
  function AnalyzeKeyword(keyword: string, reply: Reply): Analysis
  {
    var completed := if Parsed(reply) then [KeywordCompleted(keyword)] else [];
    var failed := if Read(reply).Failure? then [KeywordError(keyword)] else [];
    Analysis([Processing(keyword)] + completed + failed, Read(reply))
  }

  /** Every call publishes 'processing' first and only events about its own
      keyword; 'completed' exactly when the body was parsed, 'error' exactly
      when the call throws; the verdict is the reading of the reply. A
      reply whose JSON is read but whose answer expression throws publishes
      both 'completed' and 'error'. */
  lemma AnalyzeKeywordEvents(keyword: string, reply: Reply)
    ensures var a := AnalyzeKeyword(keyword, reply);
      1 <= |a.events| <= 3 && a.events[0] == Processing(keyword)
      && (KeywordCompleted(keyword) in a.events <==> Parsed(reply))
      && (KeywordError(keyword) in a.events <==> a.verdict.Failure?)
      && (forall e :: e in a.events ==>
            e == Processing(keyword) || e == KeywordCompleted(keyword) || e == KeywordError(keyword))
      && a.verdict == Read(reply)
    ensures Parsed(reply) && Read(reply).Failure? ==>
      AnalyzeKeyword(keyword, reply).events == [Processing(keyword), KeywordCompleted(keyword), KeywordError(keyword)]
  {
  }

  /** The result entry a keyword gets. */
  function EntryOf(keyword: Keyword, v: Verdict): Entry
  {
    match v
    case Relevance(b) => Classified(keyword.text, keyword.matchType, b)
    case Failure(m) => Errored(keyword.text, keyword.matchType, m)
  }

  /** The result entries of the first k keywords. */
  function Entries(keywords: seq<Keyword>, replies: seq<Reply>, k: nat): (r: seq<Entry>)
    requires |replies| == |keywords| && k <= |keywords|
    ensures |r| == k
  {
    if k == 0 then [] else Entries(keywords, replies, k - 1) + [EntryOf(keywords[k - 1], Read(replies[k - 1]))]
  }

  /** Entry m of the results is the entry of keyword m, whatever number of
      keywords has been processed since. */
  lemma {:induction false} EntriesAt(keywords: seq<Keyword>, replies: seq<Reply>, k: nat, m: nat)
    requires |replies| == |keywords| && m < k <= |keywords|
    ensures Entries(keywords, replies, k)[m] == EntryOf(keywords[m], Read(replies[m]))
  {
    if m < k - 1 {
      EntriesAt(keywords, replies, k - 1, m);
    }
  }

  predicate Fails(reply: Reply)
  {
    Read(reply).Failure?
  }

  /** The number of failures among the first k keywords that no success
      follows. */
  function FailureRun(replies: seq<Reply>, k: nat): nat
    requires k <= |replies|
  {
    if k == 0 || !Fails(replies[k - 1]) then 0
    else FailureRun(replies, k - 1) + 1
  }

  /** Keyword k opens a batch: k is a multiple of the batch size. */
  predicate BatchStart(k: nat)
    decreases k
  {
    if k < BatchSize then k == 0 else BatchStart(k - BatchSize)
  }

  lemma {:induction false} BatchStartMultiple(k: nat)
    ensures BatchStart(k) <==> k % BatchSize == 0
    decreases k
  {
    if k >= BatchSize {
      BatchStartMultiple(k - BatchSize);
    }
  }

  /** Inside a batch no keyword but the first opens one. */
  lemma BatchInterior(i: nat, j: nat)
    requires BatchStart(i) && 0 < j < BatchSize
    ensures !BatchStart(i + j)
  {
    BatchStartMultiple(i);
    BatchStartMultiple(i + j);
  }

  /** The local state of `processKeywords`: `results`, `processedCount`,
      `consecutiveErrors`, and what has been published and slept so far. */
  datatype State = State(results: seq<Entry>, processed: nat, errors: nat, effects: seq<Effect>)

  const Initial: State := State([], 0, 0, [])

  /** What the inner loop does between the analysis of a keyword and the
      pause before the next (server.js:249-266): publish progress after a
      success, pause for the breaker after the failure that brings the
      counter `errors` to the maximum, nothing after any other failure. */
  function Aftermath(v: Verdict, errors: nat, processed: nat, n: nat): seq<Effect>
    requires n > 0
  {
    if v.Relevance? then [Publish(Progress(processed, n, Percent(processed, n)))]
    else if errors + 1 >= MaxConsecutiveErrors then [Sleep(Pause(Breaker, BreakerMs))]
    else []
  }

  /** The body of the inner loop for keyword k (server.js:235-273): analyse
      it and record its entry; on success reset the breaker counter and
      publish progress, on failure count the error and pause for the breaker
      once it reaches the maximum; then pause before the next keyword. */
  function Advance(keywords: seq<Keyword>, replies: seq<Reply>, s: State, k: nat): State
    requires |replies| == |keywords| && k < |keywords|
  {
    var a := AnalyzeKeyword(keywords[k].text, replies[k]);
    var errors := if a.verdict.Relevance? || s.errors + 1 >= MaxConsecutiveErrors then 0 else s.errors + 1;
    State(s.results + [EntryOf(keywords[k], a.verdict)], s.processed + 1, errors,
          s.effects + Publishes(a.events) + Aftermath(a.verdict, s.errors, s.processed + 1, |keywords|)
          + [Sleep(Pause(BetweenKeywords, BetweenKeywordsMs))])
  }

  /** The pause between batches, taken after the batch that ends in front
      of keyword k when that keyword exists. */
  function Settle(s: State, k: nat, n: nat): State
  {
    if 0 < k < n && BatchStart(k) then
      s.(effects := s.effects + [Sleep(Pause(BetweenBatches, BetweenBatchesMs))])
    else s
  }

  /** The state after the first k keywords have been through the loop body. */
  function Run(keywords: seq<Keyword>, replies: seq<Reply>, k: nat): State
    requires |replies| == |keywords| && k <= |keywords|
  {
    if k == 0 then Initial
    else Advance(keywords, replies, Settle(Run(keywords, replies, k - 1), k - 1, |keywords|), k - 1)
  }

  /** `processKeywords` (server.js:226-288) with `replies[k]` the oracle's
      answer for keyword k: it goes through every keyword, batch by batch,
      and ends with the 'complete' event. */
  method ProcessKeywords(keywords: seq<Keyword>, replies: seq<Reply>)
    returns (results: seq<Entry>, processedCount: nat, consecutiveErrors: nat, effects: seq<Effect>)
    requires |replies| == |keywords|
    ensures State(results, processedCount, consecutiveErrors, effects)
            == Run(keywords, replies, |keywords|).(effects := Run(keywords, replies, |keywords|).effects
                                                             + [Publish(Complete(|keywords|, |keywords|))])
    ensures processedCount == |results| == |keywords|
    ensures forall m :: 0 <= m < |keywords| ==> results[m] == EntryOf(keywords[m], Read(replies[m]))
    ensures consecutiveErrors == FailureRun(replies, |keywords|) % MaxConsecutiveErrors
    ensures PauseCount(effects, BetweenKeywords) == |keywords|
    ensures PauseCount(effects, Breaker) == TripCount(replies, |keywords|)
    ensures |keywords| > 0 ==> PauseCount(effects, BetweenBatches) == |Batches(keywords, BatchSize)| - 1
  {
    var n := |keywords|;
    var s := Initial;
    var i := 0;
    ghost var done := 0;
    while i < n
      invariant BatchStart(i)
      invariant done <= n && (done == i || (done == n && i >= n))
      invariant i < n ==> s == Settle(Run(keywords, replies, i), i, n)
      invariant i >= n ==> s == Run(keywords, replies, n)
    {
      s := NextBatch(keywords, replies, i, s);
      done := if i + BatchSize < n then i + BatchSize else n;
      i := i + BatchSize;
    }
    results, processedCount, consecutiveErrors := s.results, s.processed, s.errors;
    effects := s.effects + [Publish(Complete(n, n))];
    RunSummary(keywords, replies);
  }

  /** One pass of the outer loop of `processKeywords`: the batch that
      starts at keyword `i`, then the pause before the next batch if there
      is one. */
  method NextBatch(keywords: seq<Keyword>, replies: seq<Reply>, i: nat, s0: State) returns (s: State)
    requires |replies| == |keywords| && BatchStart(i) && i < |keywords|
    requires s0 == Settle(Run(keywords, replies, i), i, |keywords|)
    ensures i + BatchSize < |keywords| ==>
      s == Settle(Run(keywords, replies, i + BatchSize), i + BatchSize, |keywords|)
    ensures i + BatchSize >= |keywords| ==> s == Run(keywords, replies, |keywords|)
  {
    var n := |keywords|;
    var hi := if i + BatchSize < n then i + BatchSize else n;
    var batch := keywords[i..hi];
    assert i + |batch| == hi;
    s := ProcessBatch(keywords, replies, i, batch, s0);
    BatchPasses(keywords, replies, i, hi);
    assert s == Run(keywords, replies, hi);
    if i + BatchSize < n {
      assert BatchStart(hi);
      s := s.(effects := s.effects + [Sleep(Pause(BetweenBatches, BetweenBatchesMs))]);
    }
  }

  /** The inner loop of `processKeywords` over the batch that starts at
      keyword `i`, from the state the previous batches left. */
  method ProcessBatch(keywords: seq<Keyword>, replies: seq<Reply>, i: nat, batch: seq<Keyword>, s0: State)
    returns (s: State)
    requires |replies| == |keywords| && BatchStart(i)
    requires 0 < |batch| <= BatchSize && i + |batch| <= |keywords|
    requires forall t :: 0 <= t < |batch| ==> batch[t] == keywords[i + t]
    ensures s == Passes(keywords, replies, s0, i, i + |batch|)
  {
    s := s0;
    var j := 0;
    while j < |batch|
      invariant 0 <= j <= |batch|
      invariant s == Passes(keywords, replies, s0, i, i + j)
    {
      s := ProcessKeyword(keywords, replies, i + j, batch[j], s);
      j := j + 1;
    }
  }

  /** The state after the passes of the loop body from `s` over keywords
      `i` up to `hi`, with no batch boundary in between. */
  function Passes(keywords: seq<Keyword>, replies: seq<Reply>, s: State, i: nat, hi: nat): State
    requires |replies| == |keywords| && i <= hi <= |keywords|
    decreases hi
  {
    if hi == i then s else Advance(keywords, replies, Passes(keywords, replies, s, i, hi - 1), hi - 1)
  }

  /** Within one batch the run is the passes from the batch's first
      keyword `i`, after the boundary pause before it, up to keyword `hi`. */
  lemma {:induction false} BatchPasses(keywords: seq<Keyword>, replies: seq<Reply>, i: nat, hi: nat)
    requires |replies| == |keywords| && BatchStart(i)
    requires i < hi <= i + BatchSize && hi <= |keywords|
    ensures Passes(keywords, replies, Settle(Run(keywords, replies, i), i, |keywords|), i, hi)
            == Run(keywords, replies, hi)
  {
    var k := hi - 1;
    if k > i {
      BatchPasses(keywords, replies, i, k);
      BatchInterior(i, k - i);
      assert Settle(Run(keywords, replies, k), k, |keywords|) == Run(keywords, replies, k);
    }
  }

  /** One pass of the inner loop, on the loop's local state. */
  method ProcessKeyword(keywords: seq<Keyword>, replies: seq<Reply>, k: nat, keyword: Keyword, s0: State)
    returns (s: State)
    requires |replies| == |keywords| && k < |keywords| && keyword == keywords[k]
    ensures s == Advance(keywords, replies, s0, k)
  {
    var n := |keywords|;
    var results, processedCount, consecutiveErrors, effects := s0.results, s0.processed, s0.errors, s0.effects;
    var a := AnalyzeKeyword(keyword.text, replies[k]);
    effects := effects + Publishes(a.events);
    if a.verdict.Relevance? {
      results := results + [EntryOf(keyword, a.verdict)];
      processedCount := processedCount + 1;
      consecutiveErrors := 0;
      effects := effects + [Publish(Progress(processedCount, n, Percent(processedCount, n)))];
    } else {
      consecutiveErrors := consecutiveErrors + 1;
      results := results + [EntryOf(keyword, a.verdict)];
      processedCount := processedCount + 1;
      if consecutiveErrors >= MaxConsecutiveErrors {
        effects := effects + [Sleep(Pause(Breaker, BreakerMs))];
        consecutiveErrors := 0;
      }
    }
    effects := effects + [Sleep(Pause(BetweenKeywords, BetweenKeywordsMs))];
    s := State(results, processedCount, consecutiveErrors, effects);
  }

  /** What a whole run ends with: one entry per keyword in keyword order,
      the breaker counter, and the number of pauses of each kind. */
  lemma RunSummary(keywords: seq<Keyword>, replies: seq<Reply>)
    requires |replies| == |keywords|
    ensures var n := |keywords|;
      var s := Run(keywords, replies, n);
      var effects := s.effects + [Publish(Complete(n, n))];
      && s.processed == |s.results| == n
      && (forall m :: 0 <= m < n ==> s.results[m] == EntryOf(keywords[m], Read(replies[m])))
      && s.errors == FailureRun(replies, n) % MaxConsecutiveErrors
      && PauseCount(effects, BetweenKeywords) == n
      && PauseCount(effects, Breaker) == TripCount(replies, n)
      && (n > 0 ==> PauseCount(effects, BetweenBatches) == |Batches(keywords, BatchSize)| - 1)
  {
    var n := |keywords|;
    var s := Run(keywords, replies, n);
    var last := [Publish(Complete(n, n))];
    RunResults(keywords, replies, n);
    forall m | 0 <= m < n
      ensures s.results[m] == EntryOf(keywords[m], Read(replies[m]))
    {
      EntriesAt(keywords, replies, n, m);
    }
    RunErrors(keywords, replies, n);
    forall r: Reason
      ensures PauseCount(s.effects + last, r) == ExpectedPauses(replies, n, r)
    {
      RunPauses(keywords, replies, n, r);
      PauseCountAppend(s.effects, last, r);
      PauseCountOne(last[0], r);
    }
    assert PauseCount(s.effects + last, BetweenKeywords) == n;
    assert PauseCount(s.effects + last, Breaker) == TripCount(replies, n);
    if n > 0 {
      assert PauseCount(s.effects + last, BetweenBatches) == (n - 1) / BatchSize;
      BatchGapCount(keywords);
    }
  }

  /** The pauses taken for `reason` among some effects. */
  function PauseCount(effects: seq<Effect>, reason: Reason): nat
  {
    CountReason(PausesIn(effects), reason)
  }

  lemma PauseCountAppend(a: seq<Effect>, b: seq<Effect>, reason: Reason)
    ensures PauseCount(a + b, reason) == PauseCount(a, reason) + PauseCount(b, reason)
  {
    FilterMapAppend(PauseOf, a, b);
    CountReasonAppend(PausesIn(a), PausesIn(b), reason);
  }

  lemma PauseCountOne(e: Effect, reason: Reason)
    ensures PauseCount([e], reason) == if e.Sleep? && e.pause.reason == reason then 1 else 0
  {
    FilterMapOne(PauseOf, e);
    if e.Sleep? {
      assert PausesIn([e]) == [e.pause];
      assert [e.pause][..0] == [];
      assert CountReason([e.pause], reason) == CountReason([], reason) + (if e.pause.reason == reason then 1 else 0);
    } else {
      assert PausesIn([e]) == [];
    }
  }

  lemma PauseCountPublishes(events: seq<Event>, reason: Reason)
    ensures PauseCount(Publishes(events), reason) == 0
  {
    PublishesArePublishes(events);
  }

  /** Keyword k trips the breaker: it fails and ends a run of failures whose
      length is a multiple of the maximum. */
  predicate Trips(replies: seq<Reply>, k: nat)
    requires k < |replies|
  {
    Fails(replies[k]) && FailureRun(replies, k + 1) % MaxConsecutiveErrors == 0
  }

  /** The number of keywords among the first k that trip the breaker. */
  function TripCount(replies: seq<Reply>, k: nat): nat
    requires k <= |replies|
  {
    if k == 0 then 0 else TripCount(replies, k - 1) + (if Trips(replies, k - 1) then 1 else 0)
  }

  /** Every keyword is processed once and gets its entry, in keyword order. */
  lemma {:induction false} RunResults(keywords: seq<Keyword>, replies: seq<Reply>, k: nat)
    requires |replies| == |keywords| && k <= |keywords|
    ensures Run(keywords, replies, k).processed == k
    ensures Run(keywords, replies, k).results == Entries(keywords, replies, k)
  {
    if k > 0 {
      RunResults(keywords, replies, k - 1);
    }
  }

  /** Between keywords the breaker counter is the length of the current run
      of failures modulo the maximum, so it is always below the maximum. */
  lemma {:induction false} RunErrors(keywords: seq<Keyword>, replies: seq<Reply>, k: nat)
    requires |replies| == |keywords| && k <= |keywords|
    ensures Run(keywords, replies, k).errors == FailureRun(replies, k) % MaxConsecutiveErrors
    ensures Run(keywords, replies, k).errors < MaxConsecutiveErrors
  {
    if k > 0 {
      var j := k - 1;
      RunErrors(keywords, replies, j);
      var s := Settle(Run(keywords, replies, j), j, |keywords|);
      var x := FailureRun(replies, j);
      assert s.errors == x % MaxConsecutiveErrors;
      assert Run(keywords, replies, k) == Advance(keywords, replies, s, j);
      if Fails(replies[j]) {
        assert FailureRun(replies, k) == x + 1;
        CounterStep(x, s.errors);
      } else {
        assert FailureRun(replies, k) == 0;
      }
    }
  }


  /** Any filter of the effects of one pass of the loop body splits into
      the filter of the effects before it, of the analysis's events, of the
      aftermath and of the pause before the next keyword. */
  lemma AdvanceFilter<B>(f: Effect -> Option<B>, keywords: seq<Keyword>, replies: seq<Reply>, s: State, k: nat)
    requires |replies| == |keywords| && k < |keywords|
    ensures var a := AnalyzeKeyword(keywords[k].text, replies[k]);
      FilterMap(f, Advance(keywords, replies, s, k).effects)
      == FilterMap(f, s.effects) + FilterMap(f, Publishes(a.events))
         + FilterMap(f, Aftermath(a.verdict, s.errors, s.processed + 1, |keywords|))
         + FilterMap(f, [Sleep(Pause(BetweenKeywords, BetweenKeywordsMs))])
  {
    var a := AnalyzeKeyword(keywords[k].text, replies[k]);
    var published := Publishes(a.events);
    var after := Aftermath(a.verdict, s.errors, s.processed + 1, |keywords|);
    var next := [Sleep(Pause(BetweenKeywords, BetweenKeywordsMs))];
    FilterMapAppend(f, s.effects, published);
    FilterMapAppend(f, s.effects + published, after);
    FilterMapAppend(f, s.effects + published + after, next);
  }

  /** The aftermath announces no keyword; it reports the percentage of the
      keywords processed exactly after a success; and it pauses once, for
      the breaker, exactly after the failure that reaches the maximum. */
  lemma AftermathFilters(v: Verdict, errors: nat, processed: nat, n: nat, reason: Reason)
    requires n > 0
    ensures FilterMap(AnnouncedOf, Aftermath(v, errors, processed, n)) == []
    ensures FilterMap(PercentOf, Aftermath(v, errors, processed, n))
            == if v.Relevance? then [Percent(processed, n)] else []
    ensures PauseCount(Aftermath(v, errors, processed, n), reason)
            == if reason == Breaker && v.Failure? && errors + 1 >= MaxConsecutiveErrors then 1 else 0
  {
    var after := Aftermath(v, errors, processed, n);
    if after == [] {
      assert PausesIn(after) == [];
    } else {
      FilterMapOne(AnnouncedOf, after[0]);
      FilterMapOne(PercentOf, after[0]);
      PauseCountOne(after[0], reason);
    }
  }

  /** The pauses a run of k keywords takes for each reason: one after each
      keyword, one for each keyword that trips the breaker, one at each
      batch boundary crossed, and none for any other reason. */
  function ExpectedPauses(replies: seq<Reply>, k: nat, reason: Reason): nat
    requires k <= |replies|
  {
    match reason
    case BetweenKeywords => k
    case Breaker => TripCount(replies, k)
    case BetweenBatches => if k == 0 then 0 else (k - 1) / BatchSize
    case _ => 0
  }

  lemma {:induction false} RunPauses(keywords: seq<Keyword>, replies: seq<Reply>, k: nat, reason: Reason)
    requires |replies| == |keywords| && k <= |keywords|
    ensures PauseCount(Run(keywords, replies, k).effects, reason) == ExpectedPauses(replies, k, reason)
  {
    if k > 0 {
      var j := k - 1;
      RunPauses(keywords, replies, j, reason);
      RunErrors(keywords, replies, j);
      SettleAdvancePauses(keywords, replies, Run(keywords, replies, j), j, reason);
    }
  }

  /** One batch boundary and one loop pass, from a state that has taken
      the pauses of `j` keywords and holds their breaker counter, take the
      pauses of `j + 1` keywords. */
  lemma SettleAdvancePauses(keywords: seq<Keyword>, replies: seq<Reply>, r: State, j: nat, reason: Reason)
    requires |replies| == |keywords| && j < |keywords|
    requires PauseCount(r.effects, reason) == ExpectedPauses(replies, j, reason)
    requires r.errors == FailureRun(replies, j) % MaxConsecutiveErrors
    ensures PauseCount(Advance(keywords, replies, Settle(r, j, |keywords|), j).effects, reason)
            == ExpectedPauses(replies, j + 1, reason)
  {
    var s := Settle(r, j, |keywords|);
    SettlePauses(r, j, |keywords|, reason);
    TripsWhen(replies, j, s.errors);
    AdvancePauses(keywords, replies, s, j, reason);
    ExpectedStep(replies, j + 1, reason);
  }

  /** The expected counts grow by one pause per keyword, one per breaker
      trip and one per batch boundary crossed. */
  lemma ExpectedStep(replies: seq<Reply>, k: nat, reason: Reason)
    requires 0 < k <= |replies|
    ensures ExpectedPauses(replies, k, reason)
            == ExpectedPauses(replies, k - 1, reason)
               + (if reason == BetweenKeywords then 1 else 0)
               + (if reason == Breaker && Trips(replies, k - 1) then 1 else 0)
               + (if reason == BetweenBatches && 0 < k - 1 && (k - 1) % BatchSize == 0 then 1 else 0)
  {
    if reason == BetweenBatches && k > 1 {
      QuotientStep(k - 1);
    }
  }

  /** Crossing a multiple of the batch size adds one to the batch count. */
  lemma QuotientStep(j: nat)
    requires j > 0
    ensures j / BatchSize == (j - 1) / BatchSize + (if j % BatchSize == 0 then 1 else 0)
  {
    var q, r := j / BatchSize, j % BatchSize;
    assert j == BatchSize * q + r;
    if r == 0 {
      assert j - 1 == BatchSize * (q - 1) + (BatchSize - 1);
    } else {
      assert j - 1 == BatchSize * q + (r - 1);
    }
  }

  /** The batch pause in front of keyword j. */
  lemma SettlePauses(s: State, j: nat, n: nat, reason: Reason)
    ensures PauseCount(Settle(s, j, n).effects, reason) == PauseCount(s.effects, reason)
            + (if reason == BetweenBatches && 0 < j < n && j % BatchSize == 0 then 1 else 0)
  {
    BatchStartMultiple(j);
    var gap := [Sleep(Pause(BetweenBatches, BetweenBatchesMs))];
    if 0 < j < n && BatchStart(j) {
      PauseCountAppend(s.effects, gap, reason);
      PauseCountOne(gap[0], reason);
    }
  }

  /** The pauses of one pass of the loop body: the one before the next
      keyword, and the breaker pause when the failure reaches the maximum. */
  lemma AdvancePauses(keywords: seq<Keyword>, replies: seq<Reply>, s: State, k: nat, reason: Reason)
    requires |replies| == |keywords| && k < |keywords|
    ensures PauseCount(Advance(keywords, replies, s, k).effects, reason)
            == PauseCount(s.effects, reason)
               + (if reason == BetweenKeywords then 1 else 0)
               + (if reason == Breaker && Fails(replies[k]) && s.errors + 1 >= MaxConsecutiveErrors then 1 else 0)
  {
    var a := AnalyzeKeyword(keywords[k].text, replies[k]);
    var published := Publishes(a.events);
    var after := Aftermath(a.verdict, s.errors, s.processed + 1, |keywords|);
    var next := [Sleep(Pause(BetweenKeywords, BetweenKeywordsMs))];
    AdvanceFilter(PauseOf, keywords, replies, s, k);
    PublishesArePublishes(a.events);
    CountReasonAppend(PausesIn(s.effects), PausesIn(published), reason);
    CountReasonAppend(PausesIn(s.effects) + PausesIn(published), PausesIn(after), reason);
    CountReasonAppend(PausesIn(s.effects) + PausesIn(published) + PausesIn(after), PausesIn(next), reason);
    PauseCountOne(next[0], reason);
    AftermathFilters(a.verdict, s.errors, s.processed + 1, |keywords|, reason);
  }

  /** With the breaker counter `e` left by the first j keywords, keyword j
      trips the breaker exactly when it fails and brings the counter to the
      maximum. */
  lemma TripsWhen(replies: seq<Reply>, j: nat, e: nat)
    requires j < |replies| && e == FailureRun(replies, j) % MaxConsecutiveErrors
    ensures Trips(replies, j) <==> Fails(replies[j]) && e + 1 >= MaxConsecutiveErrors
  {
    if Fails(replies[j]) {
      var x := FailureRun(replies, j);
      assert FailureRun(replies, j + 1) == x + 1;
      ModThreeStep(x);
    }
  }

  /** The breaker counter after one more failure: the run length modulo
      the maximum, reset when it reaches the maximum. */
  lemma CounterStep(x: nat, e: nat)
    requires e == x % MaxConsecutiveErrors
    ensures (if e + 1 >= MaxConsecutiveErrors then 0 else e + 1) == (x + 1) % MaxConsecutiveErrors
  {
    ModThreeStep(x);
    var q := x / 3;
    assert x == 3 * q + e;
    if e < 2 {
      assert x + 1 == 3 * q + (e + 1);
    }
  }

  lemma ModThreeStep(x: nat)
    ensures (x + 1) % 3 == 0 <==> x % 3 == 2
  {
    var q, r := x / 3, x % 3;
    assert x == 3 * q + r;
    assert x + 1 == 3 * q + (r + 1);
    if r == 2 {
      assert x + 1 == 3 * (q + 1);
    }
  }

  /** The run pauses between batches once per batch but the last. */
  lemma BatchGapCount(keywords: seq<Keyword>)
    requires |keywords| > 0
    ensures (|keywords| - 1) / BatchSize == |Batches(keywords, BatchSize)| - 1
  {
    BatchCount(keywords, BatchSize, 0);
  }

  /** When every reply fails, the breaker pauses after every third keyword. */
  lemma {:induction false} AllFailing(replies: seq<Reply>, k: nat)
    requires k <= |replies| && forall m :: 0 <= m < |replies| ==> Fails(replies[m])
    ensures FailureRun(replies, k) == k
    ensures TripCount(replies, k) == k / MaxConsecutiveErrors
  {
    if k > 0 {
      AllFailing(replies, k - 1);
    }
  }

  /** How many of the first k keywords get a verdict. */
  function Successes(replies: seq<Reply>, k: nat): nat
    requires k <= |replies|
  {
    if k == 0 then 0 else Successes(replies, k - 1) + (if Fails(replies[k - 1]) then 0 else 1)
  }

  /** The keyword a 'processing' event announces. */
  function AnnouncedOf(e: Effect): Option<string>
  {
    if e.Publish? && e.event.Processing? then Some(e.event.keyword) else None
  }

  /** The keywords announced as 'processing', in order. */
  function Announced(effects: seq<Effect>): seq<string>
  {
    FilterMap(AnnouncedOf, effects)
  }

  /** What one analysis publishes announces its keyword once and carries no
      progress. */
  lemma AnalysisFilters(keyword: string, reply: Reply)
    ensures Announced(Publishes(AnalyzeKeyword(keyword, reply).events)) == [keyword]
    ensures PercentsIn(Publishes(AnalyzeKeyword(keyword, reply).events)) == []
  {
    var completed := if Parsed(reply) then [KeywordCompleted(keyword)] else [];
    var failed := if Read(reply).Failure? then [KeywordError(keyword)] else [];
    var events := AnalyzeKeyword(keyword, reply).events;
    assert events == [Processing(keyword)] + (completed + failed);
    HeadedFilters(keyword, completed + failed);
  }

  /** Events that start with 'processing' for a keyword and go on with no
      'processing' and no progress event announce that keyword once and
      carry no progress. */
  lemma HeadedFilters(keyword: string, rest: seq<Event>)
    requires forall i :: 0 <= i < |rest| ==> !rest[i].Processing? && !rest[i].Progress?
    ensures Announced(Publishes([Processing(keyword)] + rest)) == [keyword]
    ensures PercentsIn(Publishes([Processing(keyword)] + rest)) == []
  {
    var first := Publish(Processing(keyword));
    var tail := Publishes(rest);
    assert Publishes([Processing(keyword)] + rest) == [first] + tail;
    FilterMapAppend(AnnouncedOf, [first], tail);
    FilterMapAppend(PercentOf, [first], tail);
    FilterMapOne(AnnouncedOf, first);
    FilterMapOne(PercentOf, first);
    FilterMapNone(AnnouncedOf, tail);
    FilterMapNone(PercentOf, tail);
  }

  /** A filter that ignores the batch pause sees no difference in `Settle`. */
  lemma SettleFilter<B>(f: Effect -> Option<B>, s: State, k: nat, n: nat)
    requires f(Sleep(Pause(BetweenBatches, BetweenBatchesMs))).None?
    ensures FilterMap(f, Settle(s, k, n).effects) == FilterMap(f, s.effects)
  {
    var gap := [Sleep(Pause(BetweenBatches, BetweenBatchesMs))];
    FilterMapAppend(f, s.effects, gap);
    FilterMapOne(f, gap[0]);
  }

  /** One pass of the loop body announces its own keyword. */
  lemma AdvanceAnnounced(keywords: seq<Keyword>, replies: seq<Reply>, s: State, k: nat)
    requires |replies| == |keywords| && k < |keywords|
    ensures Announced(Advance(keywords, replies, s, k).effects) == Announced(s.effects) + [keywords[k].text]
  {
    var a := AnalyzeKeyword(keywords[k].text, replies[k]);
    AdvanceFilter(AnnouncedOf, keywords, replies, s, k);
    AnalysisFilters(keywords[k].text, replies[k]);
    AftermathFilters(a.verdict, s.errors, s.processed + 1, |keywords|, Breaker);
    FilterMapOne(AnnouncedOf, Sleep(Pause(BetweenKeywords, BetweenKeywordsMs)));
  }

  /** One pass of the loop body reports the percentage of the keywords
      processed when its keyword succeeds, and nothing otherwise. */
  lemma AdvancePercents(keywords: seq<Keyword>, replies: seq<Reply>, s: State, k: nat)
    requires |replies| == |keywords| && k < |keywords|
    ensures PercentsIn(Advance(keywords, replies, s, k).effects)
            == PercentsIn(s.effects) + (if Fails(replies[k]) then [] else [Percent(s.processed + 1, |keywords|)])
  {
    var a := AnalyzeKeyword(keywords[k].text, replies[k]);
    var added: seq<nat> := if a.verdict.Relevance? then [Percent(s.processed + 1, |keywords|)] else [];
    var after := Aftermath(a.verdict, s.errors, s.processed + 1, |keywords|);
    var next := Sleep(Pause(BetweenKeywords, BetweenKeywordsMs));
    assert FilterMap(PercentOf, Publishes(a.events)) == [] by {
      AnalysisFilters(keywords[k].text, replies[k]);
    }
    assert FilterMap(PercentOf, after) == added by {
      AftermathFilters(a.verdict, s.errors, s.processed + 1, |keywords|, Breaker);
    }
    assert FilterMap(PercentOf, [next]) == [] by {
      FilterMapOne(PercentOf, next);
    }
    AdvanceFilter(PercentOf, keywords, replies, s, k);
  }

  /** One batch boundary and one loop pass, from a state that has seen
      `j` keywords, add keyword j's percentage when it succeeds. */
  lemma SettleAdvancePercents(keywords: seq<Keyword>, replies: seq<Reply>, r: State, j: nat)
    requires |replies| == |keywords| && j < |keywords| && r.processed == j
    ensures PercentsIn(Advance(keywords, replies, Settle(r, j, |keywords|), j).effects)
            == PercentsIn(r.effects) + (if Fails(replies[j]) then [] else [Percent(j + 1, |keywords|)])
  {
    SettleFilter(PercentOf, r, j, |keywords|);
    AdvancePercents(keywords, replies, Settle(r, j, |keywords|), j);
  }

  /** Keyword j adds its percentage to the progress reports of the run
      when it succeeds. */
  lemma StepPercents(keywords: seq<Keyword>, replies: seq<Reply>, j: nat)
    requires |replies| == |keywords| && j < |keywords|
    ensures PercentsIn(Run(keywords, replies, j + 1).effects)
            == PercentsIn(Run(keywords, replies, j).effects)
               + (if Fails(replies[j]) then [] else [Percent(j + 1, |keywords|)])
  {
    RunResults(keywords, replies, j);
    SettleAdvancePercents(keywords, replies, Run(keywords, replies, j), j);
  }

  /** The texts of the first `k` keywords, in order. */
  predicate TextsOf(announced: seq<string>, keywords: seq<Keyword>, k: nat)
    requires k <= |keywords|
  {
    |announced| == k && forall m :: 0 <= m < k ==> announced[m] == keywords[m].text
  }

  lemma TextsOfExtend(announced: seq<string>, keywords: seq<Keyword>, k: nat)
    requires k < |keywords| && TextsOf(announced, keywords, k)
    ensures TextsOf(announced + [keywords[k].text], keywords, k + 1)
  {
  }

  /** Keyword m is the m-th keyword announced: the run announces every
      keyword once, in keyword order. */
  lemma {:induction false} RunAnnounces(keywords: seq<Keyword>, replies: seq<Reply>, k: nat)
    requires |replies| == |keywords| && k <= |keywords|
    ensures TextsOf(Announced(Run(keywords, replies, k).effects), keywords, k)
  {
    if k > 0 {
      var j := k - 1;
      RunAnnounces(keywords, replies, j);
      SettleFilter(AnnouncedOf, Run(keywords, replies, j), j, |keywords|);
      AdvanceAnnounced(keywords, replies, Settle(Run(keywords, replies, j), j, |keywords|), j);
      TextsOfExtend(Announced(Run(keywords, replies, j).effects), keywords, j);
    }
  }

  /** Percentages in non-decreasing order, none above `bound`. */
  predicate SortedUpTo(ps: seq<nat>, bound: nat)
  {
    (forall a, b :: 0 <= a < b < |ps| ==> ps[a] <= ps[b]) && (forall a :: 0 <= a < |ps| ==> ps[a] <= bound)
  }

  /** Such a list bounded by `lo`, extended by at most one percentage
      `hi >= lo`, stays sorted and is bounded by `hi`. */
  lemma SortedUpToExtend(ps: seq<nat>, lo: nat, hi: nat, added: seq<nat>)
    requires SortedUpTo(ps, lo) && lo <= hi && (added == [] || added == [hi])
    ensures SortedUpTo(ps + added, hi)
  {
  }

  /** The progress percentages of a run: one per keyword that succeeded,
      never decreasing, and never above the percentage of the keywords
      processed so far, nor above 100. */
  lemma {:induction false} RunProgress(keywords: seq<Keyword>, replies: seq<Reply>, k: nat)
    requires |replies| == |keywords| && 0 < |keywords| && k <= |keywords|
    ensures |PercentsIn(Run(keywords, replies, k).effects)| == Successes(replies, k)
    ensures SortedUpTo(PercentsIn(Run(keywords, replies, k).effects), Percent(k, |keywords|))
    ensures Percent(k, |keywords|) <= 100
  {
    var n := |keywords|;
    PercentRange(k, k, n);
    if k > 0 {
      var j := k - 1;
      RunProgress(keywords, replies, j);
      PercentRange(j, k, n);
      StepPercents(keywords, replies, j);
      var before := PercentsIn(Run(keywords, replies, j).effects);
      var added: seq<nat> := if Fails(replies[j]) then [] else [Percent(k, n)];
      SortedUpToExtend(before, Percent(j, n), Percent(k, n), added);
    }
  }

  /** The last reported percentage is 100 when the last keyword succeeds. */
  lemma ProgressReachesHundred(keywords: seq<Keyword>, replies: seq<Reply>)
    requires |replies| == |keywords| && 0 < |keywords| && !Fails(replies[|keywords| - 1])
    ensures var ps := PercentsIn(Run(keywords, replies, |keywords|).effects);
      |ps| > 0 && ps[|ps| - 1] == 100
  {
    var n := |keywords|;
    var j := n - 1;
    StepPercents(keywords, replies, j);
    assert j + 1 == n;
    PercentRange(n, n, n);
  }

  /** `!req.body.topic`: a missing or empty topic. */
  predicate Truthy(topic: Option<string>)
  {
    topic.Some? && topic.value != []
  }

  /** The handler's answer: the keywords it goes on to process, or the
      status and JSON body of the error response. */
  datatype Admission =
    | Admitted(keywords: seq<Keyword>)
    | Refused(status: nat, error: string, message: Option<string>)

  /** The checks of `POST /api/analyze-bulk` (server.js:176-224, 291-296),
      in the order the handler makes them. `configured` says whether the
      API key is set. An admitted request carries the keywords of the data
      rows: every row that gives a keyword contributes it and no keyword
      comes from elsewhere, each trimmed and non-empty. */
  function Admit(configured: bool, file: Option<Workbook>, topic: Option<string>): (r: Admission)
    ensures r.Admitted? <==> configured && file.Some? && Truthy(topic) && file.value.Loaded?
    ensures !configured ==> r == Refused(500, "Analysis failed to start", Some("API key is not configured"))
    ensures configured && file.None? ==> r == Refused(400, "No file uploaded", None)
    ensures configured && file.Some? && !Truthy(topic) ==> r == Refused(400, "Topic is required", None)
    ensures configured && file.Some? && Truthy(topic) && file.value.Unloadable? ==>
      r == Refused(500, "Analysis failed to start", Some(file.value.message))
    ensures r.Admitted? ==> r.keywords == KeywordsOf(DataRows(file.value.rows))
    ensures r.Admitted? ==> forall k :: k in r.keywords ==>
      k.text != [] && Trim(k.text) == k.text && k.matchType != [] && Trim(k.matchType) == k.matchType
    ensures r.Admitted? ==> var data := DataRows(file.value.rows);
      (forall i :: 0 <= i < |data| && KeywordOf(data[i]).Some? ==> KeywordOf(data[i]).value in r.keywords)
      && (forall k :: k in r.keywords ==> exists i :: 0 <= i < |data| && KeywordOf(data[i]) == Some(k))
  {
    if !configured then Refused(500, "Analysis failed to start", Some("API key is not configured"))
    else if file.None? then Refused(400, "No file uploaded", None)
    else if !Truthy(topic) then Refused(400, "Topic is required", None)
    else match file.value
      case Unloadable(message) => Refused(500, "Analysis failed to start", Some(message))
      case Loaded(rows) =>
        KeywordsWellFormed(DataRows(rows));
        KeywordsFromRows(DataRows(rows));
        Admitted(KeywordsOf(DataRows(rows)))
  }

  /** A sheet with no keyword is admitted: the run then announces zero
      keywords and completes at once. */
  lemma EmptySheetAdmitted(topic: Option<string>)
    requires Truthy(topic)
    ensures Admit(true, Some(Loaded([])), topic) == Admitted([])
  {
  }

  /** The handler's response; `Accepted` is the 200 body with `success` set
      and the keyword count. */
  datatype Response = Accepted(totalKeywords: nat) | Error(status: nat, error: string, message: Option<string>)

  /** `POST /api/analyze-bulk` followed by the run it starts in the
      background, with `replies` the oracle's answers for the keywords it
      admits: it publishes 'start' with the keyword count, answers with that
      count, and then processes the keywords; a refused request publishes
      nothing. */
  method AnalyzeBulk(configured: bool, file: Option<Workbook>, topic: Option<string>, replies: seq<Reply>)
    returns (response: Response, effects: seq<Effect>)
    requires Admit(configured, file, topic).Admitted? ==> |replies| == |Admit(configured, file, topic).keywords|
    ensures var a := Admit(configured, file, topic);
      a.Refused? ==> response == Error(a.status, a.error, a.message) && effects == []
    ensures var a := Admit(configured, file, topic);
      a.Admitted? ==>
        var n := |a.keywords|;
        response == Accepted(n)
        && effects == [Publish(Start(n))] + Run(a.keywords, replies, n).effects + [Publish(Complete(n, n))]
  {
    if !configured {
      return Error(500, "Analysis failed to start", Some("API key is not configured")), [];
    }
    if file.None? {
      return Error(400, "No file uploaded", None), [];
    }
    if !Truthy(topic) {
      return Error(400, "Topic is required", None), [];
    }
    if file.value.Unloadable? {
      return Error(500, "Analysis failed to start", Some(file.value.message)), [];
    }
    var keywords := ExtractKeywords(file.value.rows);
    response := Accepted(|keywords|);
    effects := Announce(keywords, replies);
  }

  /** The 'start' event (server.js:211-216) and the run it announces. */
  method Announce(keywords: seq<Keyword>, replies: seq<Reply>) returns (effects: seq<Effect>)
    requires |replies| == |keywords|
    ensures var n := |keywords|;
      effects == [Publish(Start(n))] + Run(keywords, replies, n).effects + [Publish(Complete(n, n))]
  {
    var _, _, _, run := ProcessKeywords(keywords, replies);
    effects := [Publish(Start(|keywords|))] + run;
  }
}
