/** Who may send a notification, and when: a live claim holds against every other one, a
    due item is claimed, and a failed one waits for its backoff. */
module OutboxClaims {
  import opened Prelude
  import opened Outbox

  // A live claim.

  predicate HeldUntil(item: Item, token: Token, until: Time) {
    item.status.PROCESSING? && item.token == Some(token) && item.next >= until
  }

  /** The holder neither reports nor shortens its lease. */
  predicate LeavesBe(step: Step, token: Token, until: Time, s: Settings) {
    match step
    case Claim(_, now) => now < until
    case Renew(other, now) => other == token ==> now + s.lease >= until
    case Confirm(other) => other != token
    case Fail(other, _, _) => other != token
  }

  /** From a claim on, up to the end of its lease, no other claim is granted, whatever is
      claimed, renewed or reported by others. */
  lemma {:induction false} LiveClaimExcludes(item: Item, steps: seq<Step>, s: Settings, token: Token, until: Time)
    requires HeldUntil(item, token, until) && forall i :: 0 <= i < |steps| ==> LeavesBe(steps[i], token, until, s)
    ensures HeldUntil(After(item, steps, s), token, until) && After(item, steps, s).attempts == item.attempts
    ensures forall other, now :: now < until ==> Apply(After(item, steps, s), Claim(other, now), s) == After(item, steps, s)
  {
    if steps != [] {
      LiveClaimExcludes(item, steps[..|steps| - 1], s, token, until);
    }
  }

  /** A renewal by the holder, and no other, starts the lease anew. */
  lemma RenewedClaimExcludes(item: Item, steps: seq<Step>, s: Settings, token: Token, now: Time)
    requires item.status.PROCESSING? && item.token == Some(token)
    requires forall i :: 0 <= i < |steps| ==> LeavesBe(steps[i], token, now + s.lease, s)
    ensures var after := After(Apply(item, Renew(token, now), s), steps, s);
            forall other, t :: t < now + s.lease ==> Apply(after, Claim(other, t), s) == after
    ensures forall other :: other != token ==> Apply(item, Renew(other, now), s) == item
  {
    LiveClaimExcludes(Apply(item, Renew(token, now), s), steps, s, token, now + s.lease);
  }

  /** A claim is granted if and only if the item is open -- new, failed or in the hands of
      a worker -- and its time has come; it holds for the lease. */
  lemma ClaimIsGrantedExactly(item: Item, token: Token, now: Time, s: Settings)
    ensures var after := Apply(item, Claim(token, now), s);
            if item.status in {PENDING, FAILED, PROCESSING} && item.next <= now
            then after == Item(item.number, PROCESSING, item.attempts + 1, Some(token), now + s.lease)
            else after == item
  {
  }

  // Reports.

  /** A refused or exhausted item is dead; another one waits, open to later claims. */
  lemma FailureExactly(item: Item, token: Token, now: Time, permanent: bool, s: Settings)
    requires item.status.PROCESSING? && item.token == Some(token)
    ensures var after := Apply(item, Fail(token, now, permanent), s);
            && after.number == item.number && after.attempts == item.attempts && after.token == None
            && (after.status.DEAD? <==> permanent || item.attempts >= s.maxAttempts)
            && (!after.status.DEAD? ==> after.status.FAILED? && after.next == now + Delay(item.number, item.attempts))
  {
  }

  /** Before its backoff is over nobody gets a failed item. */
  lemma {:induction false} BackoffIsKept(item: Item, steps: seq<Step>, s: Settings)
    requires item.status.FAILED? && item.token.None?
    requires forall i :: 0 <= i < |steps| && steps[i].Claim? ==> steps[i].now < item.next
    ensures After(item, steps, s) == item
  {
    if steps != [] {
      BackoffIsKept(item, steps[..|steps| - 1], s);
    }
  }

  // The backoff.

  /** 15 seconds at first, then twice as long each time, up to six hours. */
  lemma BaseDoubles(attempts: nat)
    ensures Base(0) == 15 && Base(1) == 15
    ensures attempts >= 1 ==> Base(attempts + 1) == if 2 * Base(attempts) < 6 * 3600 then 2 * Base(attempts) else 6 * 3600
  {
    if attempts >= 1 {
      assert Power(attempts) == 2 * Power(attempts - 1);
    }
  }

  /** From the twelfth attempt on the cap is reached. */
  lemma {:induction false} BaseIsCapped(attempts: nat)
    requires attempts >= 12
    ensures Base(attempts) == 6 * 3600
  {
    PowerGrows(11, attempts - 1);
    assert Power(11) == 2048;
  }

  /** The jitter spreads items over the whole quarter: each number of seconds in it is
      taken by every item whose number leaves that remainder. */
  lemma JitterSpreads(number: nat, attempts: nat, extra: nat)
    requires extra <= Base(attempts) / 4
    ensures Delay(number, attempts) == Base(attempts) + extra <==> number % (Base(attempts) / 4 + 1) == extra
    ensures Delay(extra, attempts) == Base(attempts) + extra
  {
    SmallRemainder(extra, Base(attempts) / 4 + 1);
  }

  lemma SmallRemainder(k: nat, n: nat)
    requires k < n
    ensures k % n == k
  {
  }
}
