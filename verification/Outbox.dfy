/** The notification outbox (outbox.py, OutboxConsumer): claims fenced by a token and
    a lease, retries with exponential backoff, dead-lettering. */
module Outbox {
  import opened Prelude

  type Token = string
  type Time = int

  datatype Status = PENDING | FAILED | PROCESSING | DELIVERED | DEAD

  /** `number` is the item's UUID as an integer; `next` is next_attempt_at, which is
      the end of the lease while the item is processed. */
  datatype Item = Item(number: nat, status: Status, attempts: nat, token: Option<Token>, next: Time)

  datatype Settings = Settings(maxAttempts: nat, lease: nat, batchSize: nat)
  {
    predicate Valid() { 1 <= maxAttempts <= 25 && 120 <= lease <= 3600 && 1 <= batchSize <= 50 }

    /** How many items one batch may claim: no limit, or 0, means the configured size. */
    function Bound(limit: Option<int>): (n: nat)
      ensures 1 <= n <= 500
      ensures limit.Some? && 1 <= limit.value <= 500 ==> n == limit.value
      ensures limit.Some? && limit.value > 500 ==> n == 500
      ensures limit.Some? && limit.value < 0 ==> n == 1
      ensures (limit.None? || limit.value == 0) && 1 <= batchSize <= 500 ==> n == batchSize
    {
      var wanted := if limit.Some? && limit.value != 0 then limit.value else batchSize;
      if wanted < 1 then 1 else if wanted > 500 then 500 else wanted
    }
  }

  // Backoff.

  const CAP: nat := 6 * 60 * 60

  function Power(n: nat): (p: nat)
    ensures p >= 1
  {
    if n == 0 then 1 else 2 * Power(n - 1)
  }

  function Base(attempts: nat): nat {
    var doubled := 15 * Power(if attempts == 0 then 0 else attempts - 1);
    if doubled < CAP then doubled else CAP
  }

  function Jitter(number: nat, base: nat): nat {
    number % (if base / 4 + 1 > 1 then base / 4 + 1 else 1)
  }

  function Delay(number: nat, attempts: nat): nat {
    Base(attempts) + Jitter(number, Base(attempts))
  }

  /** For every item and attempt count: at least 15 seconds, at most a quarter above
      the base, never more than 27000 seconds. */
  lemma DelayIsBounded(number: nat, attempts: nat)
    ensures Base(attempts) <= Delay(number, attempts) <= Base(attempts) + Base(attempts) / 4
    ensures 15 <= Base(attempts) && Delay(number, attempts) <= 27000
  {
  }

  lemma {:induction false} PowerGrows(m: nat, n: nat)
    requires m <= n
    ensures Power(m) <= Power(n)
  {
    if m < n {
      PowerGrows(m, n - 1);
    }
  }

  /** The doubled base leaves room for the whole jitter below it; so does the step
      onto the cap. */
  lemma BaseLeavesRoom(attempts: nat)
    requires attempts >= 1
    ensures Base(attempts + 1) == Base(attempts) || Base(attempts) + Base(attempts) / 4 <= Base(attempts + 1)
  {
    assert Power(attempts) == 2 * Power(attempts - 1);
    if attempts >= 12 {
      PowerGrows(11, attempts - 1);
      assert Power(11) == 2048;
    } else {
      PowerGrows(attempts - 1, 10);
      assert Power(10) == 1024;
    }
  }

  /** The delay never shrinks from one attempt to the next. */
  lemma DelayGrows(number: nat, attempts: nat)
    requires attempts >= 1
    ensures Delay(number, attempts) <= Delay(number, attempts + 1)
  {
    BaseLeavesRoom(attempts);
    DelayIsBounded(number, attempts);
    DelayIsBounded(number, attempts + 1);
  }

  // One item, one transaction at a time.

  predicate Due(item: Item, now: Time) {
    (item.status.PENDING? || item.status.FAILED? || item.status.PROCESSING?) && item.next <= now
  }

  predicate Holds(item: Item, token: Token) {
    item.status.PROCESSING? && item.token == Some(token)
  }

  function Claimed(item: Item, token: Token, now: Time, s: Settings): Item {
    item.(status := PROCESSING, attempts := item.attempts + 1, token := Some(token), next := now + s.lease)
  }

  function Failed(item: Item, now: Time, permanent: bool, s: Settings): Item {
    if permanent || item.attempts >= s.maxAttempts then item.(status := DEAD, token := None)
    else item.(status := FAILED, token := None, next := now + Delay(item.number, item.attempts))
  }

  datatype Step =
    | Claim(token: Token, now: Time)
    | Renew(token: Token, now: Time)
    | Confirm(token: Token)
    | Fail(token: Token, now: Time, permanent: bool)

  function Apply(item: Item, step: Step, s: Settings): Item {
    match step
    case Claim(token, now) => if Due(item, now) then Claimed(item, token, now, s) else item
    case Renew(token, now) => if Holds(item, token) then item.(next := now + s.lease) else item
    case Confirm(token) => if Holds(item, token) then item.(status := DELIVERED, token := None) else item
    case Fail(token, now, permanent) => if Holds(item, token) then Failed(item, now, permanent, s) else item
  }

  /** A claim that takes an item over from a worker whose lease has run out. */
  predicate TakesOver(item: Item, step: Step) {
    step.Claim? && item.status.PROCESSING? && Due(item, step.now)
  }

  predicate Grants(item: Item, step: Step) {
    step.Claim? && Due(item, step.now)
  }

  function Created(number: nat, now: Time): Item { Item(number, PENDING, 0, None, now) }

  function After(item: Item, steps: seq<Step>, s: Settings): Item {
    if steps == [] then item else Apply(After(item, steps[..|steps| - 1], s), steps[|steps| - 1], s)
  }

  function Takeovers(item: Item, steps: seq<Step>, s: Settings): nat {
    if steps == [] then 0
    else
      var n := |steps| - 1;
      Takeovers(item, steps[..n], s) + (if TakesOver(After(item, steps[..n], s), steps[n]) then 1 else 0)
  }

  function Claims(item: Item, steps: seq<Step>, s: Settings): nat {
    if steps == [] then 0
    else
      var n := |steps| - 1;
      Claims(item, steps[..n], s) + (if Grants(After(item, steps[..n], s), steps[n]) then 1 else 0)
  }

  /** What holds of every item in the table, given how often it was taken over. */
  predicate Sound(item: Item, takeovers: nat, s: Settings) {
    && (item.status.PROCESSING? <==> item.token.Some?)
    && (item.status.PENDING? ==> item.attempts == 0)
    && (item.status.PROCESSING? ==> item.attempts >= 1)
    && (item.status.FAILED? ==> 1 <= item.attempts < s.maxAttempts)
    && item.attempts <= s.maxAttempts + takeovers
  }

  lemma StepIsSound(item: Item, step: Step, takeovers: nat, s: Settings)
    requires s.Valid() && Sound(item, takeovers, s)
    ensures Sound(Apply(item, step, s), takeovers + (if TakesOver(item, step) then 1 else 0), s)
  {
  }

  /** For any interleaving of workers, renewals and deaths: an item is PROCESSING iff a
      token holds it, FAILED items have attempts left, and there are never more
      attempts than the maximum plus the takeovers. */
  lemma {:induction false} AlwaysSound(number: nat, start: Time, steps: seq<Step>, s: Settings)
    requires s.Valid()
    ensures Sound(After(Created(number, start), steps, s), Takeovers(Created(number, start), steps, s), s)
    ensures After(Created(number, start), steps, s).attempts == Claims(Created(number, start), steps, s)
  {
    if steps != [] {
      var n := |steps| - 1;
      var item := Created(number, start);
      AlwaysSound(number, start, steps[..n], s);
      StepIsSound(After(item, steps[..n], s), steps[n], Takeovers(item, steps[..n], s), s);
    }
  }

  /** Without takeovers an item is claimed at most `maxAttempts` times, and whatever
      the last permitted worker reports ends it. */
  lemma EndsWithinMaximum(number: nat, start: Time, steps: seq<Step>, s: Settings, last: Step)
    requires s.Valid() && Takeovers(Created(number, start), steps, s) == 0
    ensures Claims(Created(number, start), steps, s) <= s.maxAttempts
    ensures var item := After(Created(number, start), steps, s);
            Claims(Created(number, start), steps, s) == s.maxAttempts && (last.Confirm? || last.Fail?) ==>
              !item.status.PENDING? && !item.status.FAILED?
              && (item.status.PROCESSING? && Holds(item, last.token) ==>
                    Apply(item, last, s).status.DELIVERED? || Apply(item, last, s).status.DEAD?)
  {
    AlwaysSound(number, start, steps, s);
  }

  lemma {:induction false} EndIsFinal(item: Item, steps: seq<Step>, s: Settings)
    requires item.status.DELIVERED? || item.status.DEAD?
    ensures After(item, steps, s) == item
  {
    if steps != [] {
      EndIsFinal(item, steps[..|steps| - 1], s);
    }
  }

  /** The step is a worker's report or renewal under `token`. */
  predicate Under(step: Step, token: Token) {
    !step.Claim? && step.token == token
  }

  /** Once lost, a token never holds the item again -- claims bring fresh tokens -- and
      nothing done under it changes the item any more. */
  lemma {:induction false} LostForGood(item: Item, steps: seq<Step>, s: Settings, token: Token, late: Step)
    requires !Holds(item, token)
    requires forall i :: 0 <= i < |steps| && steps[i].Claim? ==> steps[i].token != token
    ensures !Holds(After(item, steps, s), token)
    ensures Under(late, token) ==> Apply(After(item, steps, s), late, s) == After(item, steps, s)
  {
    if steps != [] {
      LostForGood(item, steps[..|steps| - 1], s, token, late);
    }
  }

  // A batch.

  datatype Answer = Sent | Refused(permanent: bool)

  datatype BatchResult = BatchResult(claimed: nat, delivered: nat, retried: nat, dead: nat)

  predicate Before(items: seq<Item>, i: nat, j: nat)
    requires i < |items| && j < |items|
  {
    items[i].next < items[j].next || (items[i].next == items[j].next && i <= j)
  }

  /** What a claim and the report after it make of a due item. */
  function Processed(item: Item, token: Token, answer: Answer, now: Time, s: Settings): Item {
    var claimed := Apply(item, Claim(token, now), s);
    Apply(claimed, if answer.Sent? then Confirm(token) else Fail(token, now, answer.permanent), s)
  }

  function Tally(items: seq<Item>, claims: seq<nat>, status: Status): nat {
    if claims == [] then 0
    else
      var k := claims[|claims| - 1];
      Tally(items, claims[..|claims| - 1], status) + (if k < |items| && items[k].status == status then 1 else 0)
  }

  lemma {:induction false} TallyKeeps(items: seq<Item>, after: seq<Item>, claims: seq<nat>, status: Status)
    requires |after| == |items|
    requires forall i :: 0 <= i < |claims| && claims[i] < |items| ==> after[claims[i]] == items[claims[i]]
    ensures Tally(after, claims, status) == Tally(items, claims, status)
  {
    if claims != [] {
      TallyKeeps(items, after, claims[..|claims| - 1], status);
    }
  }

  /** A due item, claimed and reported at once, ends up delivered, dead or waiting. */
  lemma ProcessedEnds(item: Item, token: Token, answer: Answer, now: Time, s: Settings)
    requires s.Valid() && Due(item, now)
    ensures var done := Processed(item, token, answer, now, s);
            && !Due(done, now)
            && (done.status.DELIVERED? <==> answer.Sent?)
            && (done.status.DEAD? <==> answer.Refused? && (answer.permanent || item.attempts + 1 >= s.maxAttempts))
            && (done.status.FAILED? <==> answer.Refused? && !answer.permanent && item.attempts + 1 < s.maxAttempts)
            && (done.status.FAILED? ==> done.next == now + Delay(item.number, item.attempts + 1))
  {
    DelayIsBounded(item.number, item.attempts + 1);
  }

  /** The table in order of creation. */
  class Consumer {
    const settings: Settings
    var items: seq<Item>

    constructor (s: Settings, rows: seq<Item>)
      ensures settings == s && items == rows
    {
      settings, items := s, rows;
    }

    /** `_claim_one`: the due item with the earliest next attempt. */
    method ClaimOne(now: Time, token: Token) returns (k: Option<nat>)
      modifies this`items
      ensures k.None? ==> items == old(items) && forall i :: 0 <= i < |items| ==> !Due(items[i], now)
      ensures k.Some? ==>
                && k.value < |old(items)| && Due(old(items)[k.value], now)
                && (forall i :: 0 <= i < |old(items)| && Due(old(items)[i], now) ==> Before(old(items), k.value, i))
                && items == old(items)[k.value := Apply(old(items)[k.value], Claim(token, now), settings)]
    {
      k := None;
      var i := 0;
      while i < |items|
        invariant 0 <= i <= |items|
        invariant k.None? ==> forall j :: 0 <= j < i ==> !Due(items[j], now)
        invariant k.Some? ==>
                    && k.value < i && Due(items[k.value], now)
                    && forall j :: 0 <= j < i && Due(items[j], now) ==> Before(items, k.value, j)
      {
        if Due(items[i], now) && (k.None? || items[i].next < items[k.value].next) {
          k := Some(i);
        }
        i := i + 1;
      }
      if k.Some? {
        items := items[k.value := Claimed(items[k.value], token, now, settings)];
      }
    }

    /** `_deliver` and `_fail`, after the channel has answered. */
    method Report(k: nat, token: Token, answer: Answer, now: Time) returns (outcome: Status)
      requires k < |items|
      modifies this`items
      ensures var step := if answer.Sent? then Confirm(token) else Fail(token, now, answer.permanent);
              items == old(items)[k := Apply(old(items)[k], step, settings)]
      ensures outcome == if Holds(old(items)[k], token) then items[k].status else FAILED
    {
      if !(items[k].status.PROCESSING? && items[k].token == Some(token)) {
        return FAILED;
      }
      if answer.Sent? {
        items := items[k := items[k].(status := DELIVERED, token := None)];
      } else {
        items := items[k := Failed(items[k], now, answer.permanent, settings)];
      }
      outcome := items[k].status;
    }

    /** One turn of the batch: claim, deliver, report. */
    method ProcessOne(now: Time, token: Token, answer: Answer) returns (k: Option<nat>, outcome: Status)
      requires settings.Valid()
      modifies this`items
      ensures k.None? ==> items == old(items) && forall i :: 0 <= i < |items| ==> !Due(items[i], now)
      ensures k.Some? ==>
                && k.value < |old(items)| && Due(old(items)[k.value], now)
                && items == old(items)[k.value := Processed(old(items)[k.value], token, answer, now, settings)]
                && outcome == items[k.value].status
    {
      outcome := FAILED;
      k := ClaimOne(now, token);
      if k.Some? {
        outcome := Report(k.value, token, answer, now);
      }
    }

    /** `process_batch` at a fixed time: it claims pairwise distinct items, accounts for
        every one of them, and stops early only when nothing is due any more. */
    method ProcessBatch(now: Time, limit: Option<int>, tokens: nat -> Token, answers: nat -> Answer)
      returns (r: BatchResult, claims: seq<nat>)
      requires settings.Valid()
      modifies this`items
      ensures r.claimed == |claims| == r.delivered + r.retried + r.dead && r.claimed <= settings.Bound(limit)
      ensures Handled(old(items), items, claims, tokens, answers, now, settings)
      ensures r.delivered == Tally(items, claims, DELIVERED) && r.dead == Tally(items, claims, DEAD)
      ensures r.retried == Tally(items, claims, FAILED)
      ensures r.claimed < settings.Bound(limit) ==> forall k :: 0 <= k < |items| ==> !Due(items[k], now)
    {
      hide *;
      var bound := settings.Bound(limit);
      var delivered, retried, dead := 0, 0, 0;
      claims := [];
      NothingHandled(items, tokens, answers, now, settings);
      while |claims| < bound
        invariant |claims| == delivered + retried + dead <= bound
        invariant Handled(old(items), items, claims, tokens, answers, now, settings)
        invariant delivered == Tally(items, claims, DELIVERED) && dead == Tally(items, claims, DEAD)
        invariant retried == Tally(items, claims, FAILED)
        decreases bound - |claims|
      {
        ghost var start := items;
        var k, outcome := ProcessOne(now, tokens(|claims|), answers(|claims|));
        if k.None? {
          return BatchResult(|claims|, delivered, retried, dead), claims;
        }
        OneMoreHandled(old(items), start, items, claims, k.value, tokens, answers, now, settings);
        OneMoreTallied(old(items), start, items, claims, k.value, tokens, answers, now, settings, DELIVERED);
        OneMoreTallied(old(items), start, items, claims, k.value, tokens, answers, now, settings, DEAD);
        OneMoreTallied(old(items), start, items, claims, k.value, tokens, answers, now, settings, FAILED);
        if outcome.DELIVERED? {
          delivered := delivered + 1;
        } else if outcome.DEAD? {
          dead := dead + 1;
        } else {
          retried := retried + 1;
        }
        claims := claims + [k.value];
      }
      r := BatchResult(|claims|, delivered, retried, dead);
    }
  }

  /** `items` is `was` with exactly the items of `claims`, each once, processed. */
  ghost predicate Handled(was: seq<Item>, items: seq<Item>, claims: seq<nat>, tokens: nat -> Token, answers: nat -> Answer,
                          now: Time, s: Settings)
  {
    && |items| == |was|
    && (forall i, j :: 0 <= i < j < |claims| ==> claims[i] != claims[j])
    && (forall i :: 0 <= i < |claims| ==>
          && claims[i] < |items| && Due(was[claims[i]], now)
          && items[claims[i]] == Processed(was[claims[i]], tokens(i), answers(i), now, s))
    && forall k :: 0 <= k < |items| && k !in claims ==> items[k] == was[k]
  }

  lemma NothingHandled(items: seq<Item>, tokens: nat -> Token, answers: nat -> Answer, now: Time, s: Settings)
    ensures Handled(items, items, [], tokens, answers, now, s)
    ensures forall status :: Tally(items, [], status) == 0
  {
  }

  /** An item handled once is not due at this time any more, so the next one is new. */
  lemma NextIsNew(was: seq<Item>, start: seq<Item>, claims: seq<nat>, k: nat, tokens: nat -> Token,
                  answers: nat -> Answer, now: Time, s: Settings)
    requires s.Valid() && Handled(was, start, claims, tokens, answers, now, s) && k < |start| && Due(start[k], now)
    ensures k !in claims && start[k] == was[k]
  {
    if k in claims {
      var i :| 0 <= i < |claims| && claims[i] == k;
      ProcessedEnds(was[k], tokens(i), answers(i), now, s);
    }
  }

  lemma OneMoreHandled(was: seq<Item>, start: seq<Item>, items: seq<Item>, claims: seq<nat>, k: nat, tokens: nat -> Token,
                       answers: nat -> Answer, now: Time, s: Settings)
    requires s.Valid() && Handled(was, start, claims, tokens, answers, now, s)
    requires k < |start| && Due(start[k], now)
    requires items == start[k := Processed(start[k], tokens(|claims|), answers(|claims|), now, s)]
    ensures Handled(was, items, claims + [k], tokens, answers, now, s)
    ensures items[k].status.DELIVERED? || items[k].status.DEAD? || items[k].status.FAILED?
  {
    hide Processed, Due;
    NextIsNew(was, start, claims, k, tokens, answers, now, s);
    ProcessedEnds(was[k], tokens(|claims|), answers(|claims|), now, s);
  }

  lemma OneMoreTallied(was: seq<Item>, start: seq<Item>, items: seq<Item>, claims: seq<nat>, k: nat, tokens: nat -> Token,
                       answers: nat -> Answer, now: Time, s: Settings, status: Status)
    requires s.Valid() && Handled(was, start, claims, tokens, answers, now, s)
    requires k < |start| && Due(start[k], now)
    requires |items| == |start| && forall i :: 0 <= i < |items| && i != k ==> items[i] == start[i]
    ensures Tally(items, claims + [k], status)
            == Tally(start, claims, status) + (if items[k].status == status then 1 else 0)
  {
    NextIsNew(was, start, claims, k, tokens, answers, now, s);
    assert (claims + [k])[..|claims|] == claims;
    TallyKeeps(start, items, claims, status);
  }
}
