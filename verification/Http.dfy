/** Provider calls over HTTP (providers/http.py): bounded retries, and the guard that
    compares a Content-Length without converting it to a number. */
module Http {
  import opened Prelude
  import opened Sorting

  // Content-Length (section 8.6 of RFC 9110).

  const MAX_BODY_BYTES: nat := 8 * 1024 * 1024
  const MAX_BODY_TEXT: string := "8388608"

  predicate IsDigit(c: char) { '0' <= c <= '9' }

  predicate AllDigits(s: string) { forall i :: 0 <= i < |s| ==> IsDigit(s[i]) }

  function Digit(c: char): nat
    requires IsDigit(c)
  {
    c as int - '0' as int
  }

  function Pow10(n: nat): (p: nat)
    ensures p >= 1
  {
    if n == 0 then 1 else 10 * Pow10(n - 1)
  }

  /** The number a digit string denotes. */
  function Value(s: string): nat
    requires AllDigits(s)
  {
    if s == [] then 0 else Digit(s[0]) * Pow10(|s| - 1) + Value(s[1..])
  }

  function StripZeros(s: string): (r: string)
    ensures r == [] || r[0] != '0'
  {
    if s == [] then [] else if s[0] == '0' then StripZeros(s[1..]) else s
  }

  /** `raw.lstrip("0") or "0"`. */
  function Canonical(s: string): string {
    if StripZeros(s) == [] then "0" else StripZeros(s)
  }

  /** The guard, on text alone: by length first, then character by character. */
  predicate TextExceeds(canonical: string) {
    |canonical| > |MAX_BODY_TEXT|
    || (|canonical| == |MAX_BODY_TEXT| && !StringLeq(canonical, MAX_BODY_TEXT))
  }

  lemma {:induction false} StripKeepsValue(s: string)
    requires AllDigits(s)
    ensures AllDigits(StripZeros(s)) && Value(StripZeros(s)) == Value(s)
  {
    if s != [] && s[0] == '0' {
      StripKeepsValue(s[1..]);
    }
  }

  lemma {:induction false} ValueIsBounded(s: string)
    requires AllDigits(s)
    ensures Value(s) < Pow10(|s|)
  {
    if s != [] {
      ValueIsBounded(s[1..]);
      DigitTimes(Digit(s[0]), Pow10(|s| - 1));
    }
  }

  lemma DigitTimes(d: nat, p: nat)
    requires d <= 9
    ensures d * p + p <= 10 * p
    ensures d >= 1 ==> d * p >= p
  {
  }

  lemma {:induction false} Pow10Grows(m: nat, n: nat)
    requires m <= n
    ensures Pow10(m) <= Pow10(n)
  {
    if m < n {
      Pow10Grows(m, n - 1);
    }
  }

  /** Without leading zeros, the longer number is the larger one. */
  lemma LongerIsLarger(a: string, b: string)
    requires AllDigits(a) && AllDigits(b) && |a| > |b| && a[0] != '0'
    ensures Value(a) > Value(b)
  {
    ValueIsBounded(b);
    Pow10Grows(|b|, |a| - 1);
    DigitTimes(Digit(a[0]), Pow10(|a| - 1));
  }

  /** Numbers of the same length compare as texts do. */
  lemma {:induction false} SameLengthCompares(a: string, b: string)
    requires AllDigits(a) && AllDigits(b) && |a| == |b|
    ensures StringLeq(a, b) <==> Value(a) <= Value(b)
  {
    if a != [] {
      SameLengthCompares(a[1..], b[1..]);
      ValueIsBounded(a[1..]);
      ValueIsBounded(b[1..]);
      if a[0] < b[0] {
        DigitStep(Digit(a[0]), Digit(b[0]), Pow10(|a| - 1));
      } else if b[0] < a[0] {
        DigitStep(Digit(b[0]), Digit(a[0]), Pow10(|a| - 1));
      }
    }
  }

  lemma DigitStep(d: nat, e: nat, p: nat)
    requires d < e
    ensures d * p + p <= e * p
  {
    var r := e - d - 1;
    assert e * p == (d + 1 + r) * p == d * p + p + r * p;
  }

  lemma FrontDigit(c: char, s: string)
    requires IsDigit(c) && AllDigits(s)
    ensures AllDigits([c] + s) && Value([c] + s) == Digit(c) * Pow10(|s|) + Value(s)
  {
    assert ([c] + s)[1..] == s;
  }

  lemma MaximumIsItsText()
    ensures AllDigits(MAX_BODY_TEXT) && Value(MAX_BODY_TEXT) == MAX_BODY_BYTES
  {
    FrontDigit('8', "");
    FrontDigit('0', "8");
    FrontDigit('6', "08");
    FrontDigit('8', "608");
    FrontDigit('8', "8608");
    FrontDigit('3', "88608");
    FrontDigit('8', "388608");
    assert ['8'] + "388608" == MAX_BODY_TEXT;
  }

  /** A digit string of any length passes the guard if and only if the number it
      denotes is at most 8 MiB. */
  lemma GuardIsNumeric(raw: string)
    requires AllDigits(raw)
    ensures TextExceeds(Canonical(raw)) <==> Value(raw) > MAX_BODY_BYTES
  {
    var stripped, canonical := StripZeros(raw), Canonical(raw);
    MaximumIsItsText();
    StripKeepsValue(raw);
    if stripped != [] {
      if |canonical| > |MAX_BODY_TEXT| {
        LongerIsLarger(canonical, MAX_BODY_TEXT);
      } else if |canonical| < |MAX_BODY_TEXT| {
        LongerIsLarger(MAX_BODY_TEXT, canonical);
      } else {
        SameLengthCompares(canonical, MAX_BODY_TEXT);
      }
    }
  }

  type Bytes = seq<bv8>

  datatype BodyError = InvalidLength | TooLarge | LengthMismatch
  datatype BodyResult = Body(content: Bytes) | Rejected(error: BodyError)

  /** `_read_bounded_body`: whatever is read is the whole of the chunks, never more than
      the limit, and as long as announced (unless the content is encoded). */
  method ReadBoundedBody(length: Option<string>, encoded: bool, chunks: seq<Bytes>) returns (r: BodyResult)
    ensures r.Body? <==>
              && (length.Some? ==> length.value != [] && AllDigits(length.value) && Value(length.value) <= MAX_BODY_BYTES)
              && |Flatten(chunks)| <= MAX_BODY_BYTES
              && (length.Some? && !encoded ==> |Flatten(chunks)| == Value(length.value))
    ensures r.Body? ==> r.content == Flatten(chunks)
    ensures r == Rejected(InvalidLength) <==> length.Some? && (length.value == [] || !AllDigits(length.value))
    ensures r == Rejected(TooLarge) <==>
              r != Rejected(InvalidLength)
              && ((length.Some? && Value(length.value) > MAX_BODY_BYTES) || |Flatten(chunks)| > MAX_BODY_BYTES)
  {
    if length.Some? {
      if length.value == [] || !(forall i :: 0 <= i < |length.value| ==> IsDigit(length.value[i])) {
        return Rejected(InvalidLength);
      }
      GuardIsNumeric(length.value);
      if TextExceeds(Canonical(length.value)) {
        return Rejected(TooLarge);
      }
    }
    var body: Bytes := [];
    for k := 0 to |chunks|
      invariant body == Flatten(chunks[..k]) && |body| <= MAX_BODY_BYTES
    {
      FlattenSplit(chunks, k);
      FlattenSplit(chunks[..k + 1], k);
      assert chunks[..k + 1][..k] == chunks[..k] && chunks[..k + 1][k..] == [chunks[k]];
      if |body| + |chunks[k]| > MAX_BODY_BYTES {
        FlattenSplit(chunks, k + 1);
        return Rejected(TooLarge);
      }
      body := body + chunks[k];
    }
    assert chunks[..|chunks|] == chunks;
    if length.Some? && !encoded && |body| != Value(length.value) {
      return Rejected(LengthMismatch);
    }
    r := Body(body);
  }

  lemma {:induction false} FlattenSplit<T>(ss: seq<seq<T>>, k: nat)
    requires k <= |ss|
    ensures Flatten(ss) == Flatten(ss[..k]) + Flatten(ss[k..])
    ensures k < |ss| ==> Flatten([ss[k]]) == ss[k]
  {
    if k == 0 {
      assert ss[0..] == ss;
    } else {
      FlattenSplit(ss[1..], k - 1);
      assert ss[1..][..k - 1] == ss[..k][1..] && ss[1..][k - 1..] == ss[k..];
    }
  }

  // Retries (Retry-After: section 10.2.3 of RFC 9110).

  datatype Policy = Policy(attempts: int, baseDelay: real, maxDelay: real)

  /** What comes back for one request.  `retryAfter` is the parsed header; `readable`
      and `valid` say whether the body could be read and is JSON. */
  datatype Reply =
    | Timeout
    | TransportFailure
    | Response(code: nat, retryAfter: Option<real>, readable: bool, empty: bool, valid: bool)

  datatype Kind = Authentication | Authorization | NotFound | Conflict | RateLimited | ServerError | BadStatus
    | Indeterminate | SchemaDrift | TimedOut | NetworkDown

  datatype Outcome = Answered(hasContent: bool) | Error(kind: Kind)

  /** `readOnly`: the method is GET, HEAD or OPTIONS. */
  datatype Call = Call(readOnly: bool, isHead: bool, isDelete: bool, write: bool)
  {
    /** Only such calls are repeated after an answer of the server. */
    predicate Safe() { readOnly && !write }
  }

  datatype Decision = Done(outcome: Outcome) | Backoff | After(delay: real)

  /** What one reply means, with or without attempts left. */
  function Decide(call: Call, policy: Policy, reply: Reply, more: bool): Decision {
    match reply
    case Timeout => if call.write then Done(Error(Indeterminate)) else if more then Backoff else Done(Error(TimedOut))
    case TransportFailure => if call.write then Done(Error(Indeterminate)) else if more then Backoff else Done(Error(NetworkDown))
    case Response(code, retryAfter, readable, empty, valid) =>
      if code == 401 then Done(Error(Authentication))
      else if code == 403 then Done(Error(Authorization))
      else if code == 404 then Done(Error(NotFound))
      else if code == 409 then Done(Error(Conflict))
      else if code == 429 then
        if retryAfter.Some? && retryAfter.value > policy.maxDelay then Done(Error(RateLimited))
        else if !call.Safe() || !more then Done(Error(RateLimited))
        else if retryAfter.Some? then After(retryAfter.value)
        else Backoff
      else if code >= 500 then
        if call.write then Done(Error(Indeterminate))
        else if call.Safe() && more then Backoff
        else Done(Error(ServerError))
      else if code < 200 || code >= 300 then Done(Error(BadStatus))
      else if code == 204 || call.isHead then
        if call.write && !call.isDelete then Done(Error(Indeterminate)) else Done(Answered(false))
      else if !readable then Done(Error(if call.write then Indeterminate else SchemaDrift))
      else if empty then
        if call.write && !call.isDelete then Done(Error(Indeterminate)) else Done(Answered(false))
      else if valid then Done(Answered(true))
      else Done(Error(if call.write then Indeterminate else SchemaDrift))
  }

  predicate NoAnswer(reply: Reply) { reply.Timeout? || reply.TransportFailure? }

  predicate Successful(reply: Reply) { reply.Response? && 200 <= reply.code <= 299 }

  /** Nothing to read is expected: no content, or the answer to a HEAD. */
  predicate Bodiless(call: Call, reply: Reply) { reply.Response? && (reply.code == 204 || call.isHead) }

  /** A request is repeated if and only if attempts are left and nothing can have been
      changed twice: without an answer if it is no write; after 429 or a server error if
      it only reads -- and after 429 only if the server does not ask for too long. */
  lemma RetriesExactly(call: Call, policy: Policy, reply: Reply, more: bool)
    ensures !Decide(call, policy, reply, more).Done? <==>
              more && !call.write
              && (|| NoAnswer(reply)
                  || (reply.Response? && call.readOnly && (reply.code >= 500 || reply.code == 429)
                      && (reply.code == 429 && reply.retryAfter.Some? ==> reply.retryAfter.value <= policy.maxDelay)))
    ensures Decide(call, policy, reply, more).After? <==>
              !Decide(call, policy, reply, more).Done? && reply.Response? && reply.code == 429 && reply.retryAfter.Some?
    ensures Decide(call, policy, reply, more).After? ==> Decide(call, policy, reply, more).delay == reply.retryAfter.value
  {
  }

  /** A call is answered if and only if the server reports success and the body is what
      it has to be: none, where none is expected and no write needs one, or valid JSON. */
  lemma AnsweredExactly(call: Call, policy: Policy, reply: Reply, more: bool)
    ensures (Decide(call, policy, reply, more).Done? && Decide(call, policy, reply, more).outcome.Answered?) <==>
              && Successful(reply)
              && if Bodiless(call, reply) || (reply.readable && reply.empty) then !call.write || call.isDelete
                 else reply.readable && reply.valid
    ensures Decide(call, policy, reply, more) == Done(Answered(true)) ==>
              !Bodiless(call, reply) && reply.readable && !reply.empty && reply.valid
  {
  }

  /** A write ends as indeterminate exactly where it may have been carried out without
      our knowing the result: no answer, a server error, or a success without a usable
      body. */
  lemma IndeterminateExactly(call: Call, policy: Policy, reply: Reply, more: bool)
    ensures Decide(call, policy, reply, more) == Done(Error(Indeterminate)) <==>
              call.write
              && (|| NoAnswer(reply)
                  || (reply.Response? && reply.code >= 500)
                  || (Successful(reply) && Decide(call, policy, reply, more).Done? && !Decide(call, policy, reply, more).outcome.Answered?))
  {
  }

  /** The refusals a caller can tell apart. */
  lemma RefusalsAreTold(call: Call, policy: Policy, reply: Reply, more: bool)
    requires reply.Response?
    ensures var d := Decide(call, policy, reply, more);
            && (d == Done(Error(Authentication)) <==> reply.code == 401)
            && (d == Done(Error(Authorization)) <==> reply.code == 403)
            && (d == Done(Error(NotFound)) <==> reply.code == 404)
            && (d == Done(Error(Conflict)) <==> reply.code == 409)
            && (d == Done(Error(RateLimited)) <==> reply.code == 429 && d.Done?)
            && (d == Done(Error(ServerError)) <==> reply.code >= 500 && !call.write && d.Done?)
            && (d == Done(Error(BadStatus)) <==>
                  reply.code < 500 && !Successful(reply) && reply.code !in {401, 403, 404, 409, 429})
  {
  }

  function Power2(n: nat): (p: real)
    ensures p >= 1.0
  {
    if n == 0 then 1.0 else 2.0 * Power2(n - 1)
  }

  function Maximum(policy: Policy, attempt: nat): real
    requires attempt >= 1
  {
    var doubled := policy.baseDelay * Power2(attempt - 1);
    if doubled < policy.maxDelay then doubled else policy.maxDelay
  }

  /** The pause doubles from one attempt to the next, up to the maximum. */
  lemma BackoffDoubles(policy: Policy, attempt: nat)
    requires Sensible(policy) && attempt >= 1
    ensures Maximum(policy, 1) == if policy.baseDelay < policy.maxDelay then policy.baseDelay else policy.maxDelay
    ensures Maximum(policy, attempt + 1)
            == if 2.0 * Maximum(policy, attempt) < policy.maxDelay then 2.0 * Maximum(policy, attempt) else policy.maxDelay
  {
    var doubled := policy.baseDelay * Power2(attempt - 1);
    assert Power2(0) == 1.0 && Power2(attempt) == 2.0 * Power2(attempt - 1);
    assert policy.baseDelay * Power2(attempt) == 2.0 * doubled;
  }

  /** The pause after an answer that is not the last: as long as the server asks for
      after 429, and otherwise the backoff. */
  function Pause(policy: Policy, reply: Reply, attempt: nat, factor: real): real
    requires attempt >= 1
  {
    if reply.Response? && reply.code == 429 && reply.retryAfter.Some? then reply.retryAfter.value
    else Maximum(policy, attempt) * factor
  }

  /** All pauses before request number n + 1. */
  ghost function Pauses(policy: Policy, replies: nat -> Reply, jitter: nat -> real, n: nat): real {
    if n == 0 then 0.0 else Pauses(policy, replies, jitter, n - 1) + Pause(policy, replies(n - 1), n, jitter(n - 1))
  }

  ghost predicate Sensible(policy: Policy) { policy.attempts >= 1 && policy.baseDelay >= 0.0 && policy.maxDelay >= 0.0 }

  /** Parsed Retry-After values are never negative, and the random factor of a backoff
      lies between a half and one. */
  ghost predicate Bounded(replies: nat -> Reply, jitter: nat -> real) {
    && (forall k :: replies(k).Response? && replies(k).retryAfter.Some? ==> replies(k).retryAfter.value >= 0.0)
    && forall k :: 0.5 <= jitter(k) <= 1.0
  }

  /** `request_json`: the k-th request gets the reply `replies(k)`.  A write is sent
      exactly once; every call ends with the decision on its last reply; and it sleeps
      as long as the replies and the policy say, and no longer than the policy allows. */
  method RequestJson(call: Call, policy: Policy, replies: nat -> Reply, jitter: nat -> real)
    returns (outcome: Outcome, sent: nat, slept: real)
    requires Sensible(policy) && Bounded(replies, jitter)
    ensures 1 <= sent <= policy.attempts && (call.write ==> sent == 1)
    ensures Decide(call, policy, replies(sent - 1), sent < policy.attempts) == Done(outcome)
    ensures forall k :: 0 <= k < sent - 1 ==> !Decide(call, policy, replies(k), true).Done?
    ensures 0.0 <= slept <= ((sent - 1) as real) * policy.maxDelay
    ensures slept <= ((policy.attempts - 1) as real) * policy.maxDelay
    ensures slept == Pauses(policy, replies, jitter, sent - 1)
  {
    hide Decide, Pause, Pauses, Maximum;
    sent, slept := 0, 0.0;
    PausesNext(policy, replies, jitter, 0);
    while sent < policy.attempts
      invariant 0 <= sent < policy.attempts
      invariant call.write ==> sent == 0
      invariant forall k :: 0 <= k < sent ==> !Decide(call, policy, replies(k), true).Done?
      invariant 0.0 <= slept <= (sent as real) * policy.maxDelay
      invariant slept == Pauses(policy, replies, jitter, sent)
    {
      var decision := Decide(call, policy, replies(sent), sent + 1 < policy.attempts);
      if decision.Done? {
        MoreSleep(sent, policy.attempts - 1, policy.maxDelay);
        return decision.outcome, sent + 1, slept;
      }
      PauseIsDecided(call, policy, replies(sent), sent + 1 < policy.attempts, sent + 1, jitter(sent));
      PausesNext(policy, replies, jitter, sent);
      OneMoreDelay(sent, policy.maxDelay);
      if decision.Backoff? {
        var maximum := Maximum(policy, sent + 1);
        slept := slept + maximum * jitter(sent);
      } else {
        slept := slept + decision.delay;
      }
      sent := sent + 1;
    }
    assert false;
    outcome := Error(TimedOut);
  }

  lemma PausesNext(policy: Policy, replies: nat -> Reply, jitter: nat -> real, n: nat)
    ensures Pauses(policy, replies, jitter, 0) == 0.0
    ensures Pauses(policy, replies, jitter, n + 1)
            == Pauses(policy, replies, jitter, n) + Pause(policy, replies(n), n + 1, jitter(n))
  {
  }

  lemma PauseIsDecided(call: Call, policy: Policy, reply: Reply, more: bool, attempt: nat, factor: real)
    requires Sensible(policy) && attempt >= 1 && 0.5 <= factor <= 1.0
    requires reply.Response? && reply.retryAfter.Some? ==> reply.retryAfter.value >= 0.0
    requires !Decide(call, policy, reply, more).Done?
    ensures more && !call.write
    ensures 0.0 <= Pause(policy, reply, attempt, factor) <= policy.maxDelay
    ensures Pause(policy, reply, attempt, factor)
            == if Decide(call, policy, reply, more).Backoff? then Maximum(policy, attempt) * factor
               else Decide(call, policy, reply, more).delay
  {
    hide Maximum;
    DelayIsBounded(policy, attempt, factor);
  }

  lemma MaximumIsBounded(policy: Policy, attempt: nat)
    requires Sensible(policy) && attempt >= 1
    ensures 0.0 <= Maximum(policy, attempt) <= policy.maxDelay
  {
    assert policy.baseDelay * Power2(attempt - 1) >= 0.0;
  }

  lemma Shrinks(x: real, factor: real)
    requires x >= 0.0 && 0.0 <= factor <= 1.0
    ensures 0.0 <= x * factor
    ensures x * factor <= x
  {
    assert x * (1.0 - factor) >= 0.0;
    assert x * factor == x - x * (1.0 - factor);
  }

  lemma DelayIsBounded(policy: Policy, attempt: nat, factor: real)
    requires Sensible(policy) && attempt >= 1 && 0.5 <= factor <= 1.0
    ensures 0.0 <= Maximum(policy, attempt) * factor
    ensures Maximum(policy, attempt) * factor <= policy.maxDelay
  {
    MaximumIsBounded(policy, attempt);
    ProductIsBounded(Maximum(policy, attempt), policy.maxDelay, factor);
  }

  lemma ProductIsBounded(x: real, bound: real, factor: real)
    requires 0.0 <= x <= bound && 0.0 <= factor <= 1.0
    ensures 0.0 <= x * factor
    ensures x * factor <= bound
  {
    Shrinks(x, factor);
  }

  lemma OneMoreDelay(sent: nat, maxDelay: real)
    ensures ((sent + 1) as real) * maxDelay == (sent as real) * maxDelay + maxDelay
  {
  }

  lemma MoreSleep(a: int, b: int, maxDelay: real)
    requires a <= b && maxDelay >= 0.0
    ensures (a as real) * maxDelay <= (b as real) * maxDelay
  {
    assert ((b - a) as real) * maxDelay >= 0.0;
  }
}
