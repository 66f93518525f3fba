/** Who may execute a run: a live lease holds against every claim, and a claim that
    nothing stands against is granted. */
module RunClaims {
  import opened Prelude
  import opened RunLease

  predicate Holds(run: Run, a: Token, until: Time) {
    run.status.RUNNING? && run.owner == Some(a) && run.expires.Some? && run.expires.value >= until
  }

  /** Worker a goes on working at least up to `until`, and the workspace stays open. */
  predicate Undisturbed(step: Step, a: Token, until: Time) {
    match step.op
    case DoFinish(token, _) => token != a
    case DoRenew(token, ttl) => token == a ==> step.now + ttl >= until
    case DoClaim(_, _, around) => !around.Archived?
    case _ => true
  }

  lemma StepLeavesLease(run: Run, step: Step, redelivery: nat, a: Token, until: Time)
    requires Holds(run, a, until) && step.now <= until && Undisturbed(step, a, until)
    ensures Holds(Apply(run, step, redelivery), a, until)
  {
  }

  lemma {:induction false} LeaseStays(run: Run, steps: seq<Step>, redelivery: nat, a: Token, until: Time)
    requires Holds(run, a, until)
    requires forall i :: 0 <= i < |steps| ==> steps[i].now <= until && Undisturbed(steps[i], a, until)
    ensures Holds(After(run, steps, redelivery), a, until)
  {
    if steps != [] {
      LeaseStays(run, steps[..|steps| - 1], redelivery, a, until);
      StepLeavesLease(After(run, steps[..|steps| - 1], redelivery), steps[|steps| - 1], redelivery, a, until);
    }
  }

  /** A live lease excludes everybody else: from the time worker a holds the run, and up
      to its expiry, whatever is claimed, delivered, renewed or finished by others, no
      other token passes the fence and no claim of any token is granted. */
  lemma LiveLeaseExcludes(run: Run, steps: seq<Step>, redelivery: nat, a: Token, until: Time, now: Time)
    requires Coherent(run) && Fenced(run, a, now) && run.expires == Some(until)
    requires forall i :: 0 <= i < |steps| ==> steps[i].now <= until && Undisturbed(steps[i], a, until)
    ensures forall b, t :: Fenced(After(run, steps, redelivery), b, t) ==> b == a
    ensures forall t :: t < until ==> Fenced(After(run, steps, redelivery), a, t)
    ensures forall b, ttl, around, t :: t <= until && around != Archived ==>
              Claim(After(run, steps, redelivery), b, ttl, around, t) == (After(run, steps, redelivery), false)
  {
    LeaseStays(run, steps, redelivery, a, until);
  }

  /** From a granted claim on, for as long as it was granted. */
  lemma GrantExcludes(run: Run, a: Token, ttl: nat, around: Surroundings, now: Time, steps: seq<Step>, redelivery: nat)
    requires Coherent(run) && Claim(run, a, ttl, around, now).1 && ttl > 0
    requires forall i :: 0 <= i < |steps| ==> steps[i].now <= now + ttl && Undisturbed(steps[i], a, now + ttl)
    ensures var after := After(Claim(run, a, ttl, around, now).0, steps, redelivery);
            && (forall b, t :: Fenced(after, b, t) ==> b == a)
            && (forall t :: t < now + ttl ==> Fenced(after, a, t))
            && forall b, more, other, t :: t <= now + ttl && other != Archived ==> Claim(after, b, more, other, t) == (after, false)
  {
    LiveLeaseExcludes(Claim(run, a, ttl, around, now).0, steps, redelivery, a, now + ttl, now);
  }

  /** When a claim must be granted: an active run is given away if and only if nobody
      passes its fence, its lease does not end at this very instant, and workspace and
      profile allow it -- a changed profile only if the plan has been stored. */
  lemma ClaimIsGrantedExactly(run: Run, token: Token, ttl: nat, around: Surroundings, now: Time)
    requires Coherent(run)
    ensures Claim(run, token, ttl, around, now).1
            <==> && run.status.Active() && (forall b :: !Fenced(run, b, now)) && run.expires != Some(now)
                 && (around.Usable? || (around.RevisionChanged? && run.plan.Some?))
    ensures Claim(run, token, ttl, around, now).1 ==>
              Claim(run, token, ttl, around, now).0 == Run(RUNNING, Some(token), Some(now + ttl), run.plan, run.dispatched)
  {
    if run.status.RUNNING? {
      assert Fenced(run, run.owner.value, now) <==> run.expires.value > now;
    }
  }

  /** A refused claim leaves the run alone, or ends it: canceled in an archived
      workspace, and otherwise only where nobody is executing it. */
  lemma RefusalEnds(run: Run, token: Token, ttl: nat, around: Surroundings, now: Time)
    requires Coherent(run) && !Claim(run, token, ttl, around, now).1
    ensures Claim(run, token, ttl, around, now).0 != run <==>
              && run.status.Active()
              && (around.Archived? || ((forall b :: !Fenced(run, b, now)) && run.expires != Some(now)))
    ensures var after := Claim(run, token, ttl, around, now).0;
            after != run ==>
              && run.status.Active() && after.owner.None? && after.expires.None? && after.plan == run.plan
              && (around.Archived? || forall b :: !Fenced(run, b, now))
              && after.status == (match around
                                  case Archived => CANCELED
                                  case ProfileGone => FAILED
                                  case InvalidProfile => FAILED
                                  case _ => SKIPPED)
  {
    if run.status.RUNNING? {
      assert Fenced(run, run.owner.value, now) <==> run.expires.value > now;
    }
  }

  /** A lease lasts exactly as long as it was granted or renewed for. */
  lemma LeaseLasts(run: Run, token: Token, ttl: nat, around: Surroundings, now: Time, t: Time)
    ensures Claim(run, token, ttl, around, now).1 ==>
              (Fenced(Claim(run, token, ttl, around, now).0, token, t) <==> t < now + ttl)
    ensures Fenced(run, token, now) ==> (Fenced(Renew(run, token, ttl, now), token, t) <==> t < now + ttl)
    ensures !Fenced(run, token, now) ==> Renew(run, token, ttl, now) == run
  {
  }

  /** A worker that died is replaced: once its lease has run out, the first claim that
      workspace and profile allow is granted, whatever was refused before. */
  lemma DeadWorkerIsReplaced(run: Run, steps: seq<Step>, redelivery: nat, from: Time, token: Token, ttl: nat, over: Time, now: Time)
    requires Coherent(run) && InTime(steps, from) && After(run, steps, redelivery).status.Active()
    requires over < now && forall b :: !Fenced(After(run, steps, redelivery), b, over)
    ensures Claim(After(run, steps, redelivery), token, ttl, Usable, now).1
  {
    AlwaysCoherent(run, steps, redelivery, from);
    var r := After(run, steps, redelivery);
    if r.status.RUNNING? {
      assert !Fenced(r, r.owner.value, over);
    }
  }
}
