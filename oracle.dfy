/** The classification oracle, seen from the servers: what one chat-completion
    call can come back with, and how a reply is read into a verdict. */
module Oracle {
  import opened Text

  /** What `data.choices?.[0]?.message?.content?.toLowerCase()` meets once the
      body has been parsed as JSON: no content at all (some link of the
      optional chain is null or undefined), a content string, or a shape on
      which the chain throws a TypeError (the body is `null`, or the content
      is not a string), with that error's message. */
  datatype Answer = NoContent | Content(text: string) | Malformed(message: string)

  /** `response.json()`: parsed, or rejected with the parser's message. */
  datatype Body = Json(answer: Answer) | NotJson(message: string)

  /** One `fetch`: a response with its HTTP status, or a rejected promise
      (network failure, timeout) with its message. */
  datatype Reply = Response(status: nat, body: Body) | Rejected(message: string)

  /** `response.ok`. */
  predicate IsOk(status: nat) { 200 <= status <= 299 }

  /** The outcome of reading one reply: the relevance answer, or the message
      of the error thrown while reading it. */
  datatype Verdict = Relevance(relevant: bool) | Failure(message: string)

  /** The answer expression applied to a content string: lower-cased,
      trimmed, compared with "true". */
  predicate IsAffirmative(content: string)
  {
    Trim(Lower(content)) == "true"
  }

  /** The error the servers throw for a non-2xx response. */
  function ApiError(status: nat): string
  {
    "API error: " + Decimal(status)
  }

  /** Reading a reply (server.js:145-161, src/server.js:117-125): a non-2xx
      status throws `API error: <status>`; a body that is not JSON, or on
      which the answer expression throws, fails with that error; otherwise
      the answer is parsed leniently and is never an error. */
  function Read(reply: Reply): (v: Verdict)
    ensures v.Failure? <==>
      (reply.Rejected? || !IsOk(reply.status) || reply.body.NotJson? || reply.body.answer.Malformed?)
    ensures reply.Response? && !IsOk(reply.status) ==> v == Failure(ApiError(reply.status))
    ensures v.Relevance? ==>
      (v.relevant <==> reply.body.answer.Content? && IsAffirmative(reply.body.answer.text))
  {
    match reply
    case Rejected(message) => Failure(message)
    case Response(status, body) =>
      if !IsOk(status) then Failure(ApiError(status))
      else
        match body
        case NotJson(message) => Failure(message)
        case Json(answer) =>
          match answer
          case NoContent => Relevance(false)
          case Content(text) => Relevance(IsAffirmative(text))
          case Malformed(message) => Failure(message)
  }

  /** Any spelling of "true" in any letter case, with any whitespace around
      it, is affirmative. */
  lemma AffirmativeAccepted(p: string, t: string, q: string)
    requires AllSpace(p) && AllSpace(q) && Lower(t) == "true"
    ensures IsAffirmative(p + t + q)
  {
    LowerAppend(p, t);
    LowerAppend(p + t, q);
    assert Lower(p + t + q) == Lower(p) + Lower(t) + Lower(q);
    LowerAllSpace(p);
    LowerAllSpace(q);
    TrimUnique(Lower(p), "true", Lower(q));
  }

  /** And nothing else is: an affirmative content is exactly four letters
      spelling "true" up to case, with only whitespace around them. */
  lemma AffirmativeOnly(s: string) returns (i: nat)
    requires IsAffirmative(s)
    ensures i + 4 <= |s| && Lower(s[i..i + 4]) == "true"
    ensures AllSpace(s[..i]) && AllSpace(s[i + 4..])
  {
    i := TrimShape(s);
    TrimLowerCommute(s);
    assert Lower(Trim(s)) == "true";
  }

  /** A verdict is an error only when the call, the status, the JSON or the
      answer expression failed: a well-formed 2xx reply is always a verdict,
      whatever text it carries. */
  lemma LenientParse(status: nat, answer: Answer)
    requires IsOk(status) && !answer.Malformed?
    ensures Read(Response(status, Json(answer))).Relevance?
    ensures Read(Response(status, Json(answer))).relevant
            <==> answer.Content? && IsAffirmative(answer.text)
  {
  }

  /** For a three-digit status, `API error: <status>` mentions "429" exactly
      when the status is 429. */
  lemma ApiErrorMentions429(status: nat)
    requires 100 <= status <= 999
    ensures Contains(ApiError(status), "429") <==> status == 429
  {
    var d := Decimal(status);
    var s := ApiError(status);
    assert |Decimal(status / 10)| == 2;
    assert |d| == 3;
    assert |s| == 14;
    if status == 429 {
      assert d == "429";
      assert s[11..14] == "429";
      ContainsAt(s, "429", 11);
    }
    if Contains(s, "429") {
      var k := ContainsWitness(s, "429");
      assert s[k] == s[k..k + 3][0] == '4';
      assert forall j :: 0 <= j < 11 ==> s[j] != '4';
      assert k == 11;
      assert d == s[11..14];
      DecimalThreeDigits(status);
    }
  }

  lemma DecimalThreeDigits(n: nat)
    requires 100 <= n <= 999
    ensures Decimal(n) == [Digit(n / 100), Digit(n / 10 % 10), Digit(n % 10)]
  {
    assert Decimal(n / 10) == Decimal(n / 100) + [Digit(n / 10 % 10)];
  }
}
