/** One sync run as workers, scheduler and API change it (runtime.py, routers/runs.py,
    routers/workspaces.py): every database transaction is one step of a state machine
    that is fenced by an owner token and an expiry time. */
module RunLease {
  import opened Prelude

  /** The first 200 characters of an owner token, as the column stores them. */
  type Token = string
  type Time = int
  /** A plan stands for its fingerprint. */
  type Plan = string

  datatype RunStatus = QUEUED | RUNNING | SUCCEEDED | PARTIAL | FAILED | CANCELED | SKIPPED
  {
    predicate Active() { QUEUED? || RUNNING? }
  }

  datatype Run = Run(
    status: RunStatus, owner: Option<Token>, expires: Option<Time>, plan: Option<Plan>, dispatched: Option<Time>)

  /** What a claim finds when it looks at workspace and profile. */
  datatype Surroundings = Archived | ProfileGone | RevisionChanged | InvalidProfile | Usable

  /** `_active_leased_run`: the fence before every mutation on behalf of a worker. */
  predicate Fenced(run: Run, token: Token, now: Time) {
    run.status.RUNNING? && run.owner == Some(token) && run.expires.Some? && run.expires.value > now
  }

  predicate Expired(run: Run, now: Time) {
    run.status.RUNNING? && run.expires.Some? && run.expires.value < now
  }

  function Ended(run: Run, status: RunStatus): Run {
    run.(status := status, owner := None, expires := None)
  }

  function Claim(run: Run, token: Token, ttl: nat, around: Surroundings, now: Time): (Run, bool) {
    if around.Archived? then (if run.status.Active() then Ended(run, CANCELED) else run, false)
    else if !(run.status.QUEUED? || Expired(run, now)) then (run, false)
    else if around.ProfileGone? then (Ended(run, FAILED), false)
    else if around.RevisionChanged? && run.plan.None? then (Ended(run, SKIPPED), false)
    else if around.InvalidProfile? then (Ended(run, FAILED), false)
    else (run.(status := RUNNING, owner := Some(token), expires := Some(now + ttl)), true)
  }

  function Renew(run: Run, token: Token, ttl: nat, now: Time): Run {
    if Fenced(run, token, now) then run.(expires := Some(now + ttl)) else run
  }

  /** A plan is written once; the same plan again is accepted, another one refused. */
  function PersistPlan(run: Run, token: Token, plan: Plan, now: Time): (Run, bool) {
    if !Fenced(run, token, now) then (run, false)
    else if run.plan.Some? then (run, run.plan == Some(plan))
    else (run.(plan := Some(plan)), true)
  }

  function Finish(run: Run, token: Token, status: RunStatus, now: Time): (Run, bool) {
    if !Fenced(run, token, now) then (run, false) else (Ended(run, status), true)
  }

  /** `_create_due_runs` looking at an existing run. */
  predicate Delivers(run: Run, redelivery: nat, now: Time) {
    || (run.status.QUEUED? && (run.dispatched.None? || run.dispatched.value <= now - redelivery))
    || Expired(run, now)
  }

  function Deliver(run: Run, redelivery: nat, now: Time): Run {
    if !Delivers(run, redelivery, now) then run
    else if run.status.RUNNING? then Run(QUEUED, None, None, run.plan, Some(now))
    else run.(dispatched := Some(now))
  }

  function MarkDispatched(run: Run, at: Time): Run {
    if run.status.Active() then run.(dispatched := Some(at)) else run
  }

  /** `cancel_run` and the archiving of a workspace touch queued runs only. */
  function Cancel(run: Run): Run {
    if run.status.QUEUED? then run.(status := CANCELED) else run
  }

  datatype Op =
    | DoClaim(token: Token, ttl: nat, around: Surroundings)
    | DoRenew(token: Token, ttl: nat)
    | DoPersist(token: Token, plan: Plan)
    | DoMutate(token: Token)
    | DoFinish(token: Token, status: RunStatus)
    | DoDeliver
    | DoMark(at: Time)
    | DoCancel

  /** A transaction and the time at which it is committed. */
  datatype Step = Step(op: Op, now: Time)

  function Apply(run: Run, step: Step, redelivery: nat): Run {
    match step.op
    case DoClaim(token, ttl, around) => Claim(run, token, ttl, around, step.now).0
    case DoRenew(token, ttl) => Renew(run, token, ttl, step.now)
    case DoPersist(token, plan) => PersistPlan(run, token, plan, step.now).0
    case DoMutate(_) => run
    case DoFinish(token, status) => Finish(run, token, status, step.now).0
    case DoDeliver => Deliver(run, redelivery, step.now)
    case DoMark(at) => MarkDispatched(run, at)
    case DoCancel => Cancel(run)
  }

  function After(run: Run, steps: seq<Step>, redelivery: nat): Run {
    if steps == [] then run
    else Apply(After(run, steps[..|steps| - 1], redelivery), steps[|steps| - 1], redelivery)
  }

  /** Workers finish runs with an end status only. */
  predicate Proper(step: Step) {
    step.op.DoFinish? ==> !step.op.status.Active()
  }

  ghost predicate InTime(steps: seq<Step>, from: Time) {
    && (forall i :: 0 <= i < |steps| ==> from <= steps[i].now && Proper(steps[i]))
    && forall i, j :: 0 <= i < j < |steps| ==> steps[i].now <= steps[j].now
  }

  predicate Coherent(run: Run) {
    && (run.status.RUNNING? <==> run.owner.Some?)
    && (run.status.RUNNING? <==> run.expires.Some?)
  }

  // What every step keeps.

  lemma StepIsCoherent(run: Run, step: Step, redelivery: nat)
    requires Coherent(run) && Proper(step)
    ensures Coherent(Apply(run, step, redelivery))
  {
  }

  /** An ended run stays as it is. */
  lemma EndIsFinal(run: Run, step: Step, redelivery: nat)
    requires !run.status.Active()
    ensures Apply(run, step, redelivery) == run
  {
  }

  lemma PlanStays(run: Run, step: Step, redelivery: nat)
    requires run.plan.Some?
    ensures Apply(run, step, redelivery).plan == run.plan
  {
  }

  /** Two tokens never pass the fence at the same time. */
  lemma OneOwner(run: Run, a: Token, b: Token, now: Time)
    requires Fenced(run, a, now) && Fenced(run, b, now)
    ensures a == b
  {
  }

  /** A token that is fenced out stays out unless it is claimed with anew. */
  lemma FencedOutStep(run: Run, step: Step, redelivery: nat, token: Token, since: Time, later: Time)
    requires Proper(step) && !Fenced(run, token, since) && since <= step.now <= later
    requires !(step.op.DoClaim? && step.op.token == token)
    ensures !Fenced(Apply(run, step, redelivery), token, later)
  {
  }

  // Whole runs.

  lemma {:induction false} AlwaysCoherent(run: Run, steps: seq<Step>, redelivery: nat, from: Time)
    requires Coherent(run) && InTime(steps, from)
    ensures Coherent(After(run, steps, redelivery))
  {
    if steps != [] {
      var n := |steps| - 1;
      AlwaysCoherent(run, steps[..n], redelivery, from);
      StepIsCoherent(After(run, steps[..n], redelivery), steps[n], redelivery);
    }
  }

  lemma {:induction false} EndsForGood(run: Run, steps: seq<Step>, redelivery: nat)
    requires !run.status.Active()
    ensures After(run, steps, redelivery) == run
  {
    if steps != [] {
      EndsForGood(run, steps[..|steps| - 1], redelivery);
    }
  }

  /** Ended, a run never changes; planned, it keeps its plan. */
  lemma {:induction false} PlansForGood(run: Run, steps: seq<Step>, redelivery: nat)
    requires run.plan.Some?
    ensures After(run, steps, redelivery).plan == run.plan
  {
    if steps != [] {
      PlansForGood(run, steps[..|steps| - 1], redelivery);
      PlanStays(After(run, steps[..|steps| - 1], redelivery), steps[|steps| - 1], redelivery);
    }
  }

  predicate Claims(step: Step, token: Token) { step.op.DoClaim? && step.op.token == token }

  /** A token that has once failed the fence never passes it again: every execution
      claims with a token of its own, and no later claim brings the token back. */
  lemma {:induction false} NeverPassesAgain(run: Run, steps: seq<Step>, redelivery: nat, token: Token, since: Time, later: Time)
    requires InTime(steps, since) && !Fenced(run, token, since)
    requires since <= later && forall i :: 0 <= i < |steps| ==> steps[i].now <= later
    requires forall i :: 0 <= i < |steps| ==> !Claims(steps[i], token)
    ensures !Fenced(After(run, steps, redelivery), token, later)
  {
    if steps != [] {
      var n := |steps| - 1;
      NeverPassesAgain(run, steps[..n], redelivery, token, since, steps[n].now);
      FencedOutStep(After(run, steps[..n], redelivery), steps[n], redelivery, token, steps[n].now, later);
    }
  }

  /** The token on whose behalf a step changes worker-owned state. */
  function Actor(step: Step): Option<Token> {
    match step.op
    case DoPersist(token, _) => Some(token)
    case DoMutate(token) => Some(token)
    case DoFinish(token, _) => Some(token)
    case DoRenew(token, _) => Some(token)
    case _ => None
  }

  ghost predicate Passes(run: Run, steps: seq<Step>, redelivery: nat, i: nat, token: Token)
    requires i < |steps|
  {
    Actor(steps[i]) == Some(token) && Fenced(After(run, steps[..i], redelivery), token, steps[i].now)
  }

  lemma {:induction false} AfterSplit(run: Run, a: seq<Step>, b: seq<Step>, redelivery: nat)
    ensures After(run, a + b, redelivery) == After(After(run, a, redelivery), b, redelivery)
  {
    if b == [] {
      assert a + b == a;
    } else {
      assert (a + b)[..|a| + |b| - 1] == a + b[..|b| - 1];
      AfterSplit(run, a, b[..|b| - 1], redelivery);
    }
  }

  lemma SliceInTime(steps: seq<Step>, from: Time, j: nat, k: nat)
    requires InTime(steps, from) && j < k <= |steps|
    ensures InTime(steps[j..k], steps[j].now)
  {
    var rest := steps[j..k];
    forall m | 0 <= m < |rest| ensures steps[j].now <= rest[m].now && Proper(rest[m]) {
      assert rest[m] == steps[j + m];
    }
    forall m, n | 0 <= m < n < |rest| ensures rest[m].now <= rest[n].now {
      assert rest[m] == steps[j + m] && rest[n] == steps[j + n];
    }
  }

  /** Fenced mutations form one block per owner: between two mutations of one owner no
      other owner passes the fence, as long as its token is not claimed again. */
  lemma MutationsFormBlocks(run: Run, steps: seq<Step>, redelivery: nat, from: Time, i: nat, j: nat, k: nat, a: Token, b: Token)
    requires InTime(steps, from) && i < j < k < |steps|
    requires Passes(run, steps, redelivery, i, a) && Passes(run, steps, redelivery, j, b)
    requires Passes(run, steps, redelivery, k, a)
    requires forall m :: i <= m < |steps| ==> !Claims(steps[m], a)
    ensures a == b
  {
    if a != b {
      var middle := After(run, steps[..j], redelivery);
      assert !Fenced(middle, a, steps[j].now);
      var rest := steps[j..k];
      assert steps[..k] == steps[..j] + rest;
      AfterSplit(run, steps[..j], rest, redelivery);
      SliceInTime(steps, from, j, k);
      forall m | 0 <= m < |rest| ensures !Claims(rest[m], a) && rest[m].now <= steps[k].now {
        assert rest[m] == steps[j + m];
      }
      NeverPassesAgain(middle, rest, redelivery, a, steps[j].now, steps[k].now);
    }
  }

  // Redelivery.

  /** An acknowledgement never carries a time before the attempt it acknowledges. */
  predicate Acknowledges(run: Run, step: Step) {
    step.op.DoMark? && run.dispatched.Some? ==> step.op.at >= run.dispatched.value
  }

  ghost predicate AllAcknowledge(run: Run, steps: seq<Step>, redelivery: nat) {
    forall i :: 0 <= i < |steps| ==> Acknowledges(After(run, steps[..i], redelivery), steps[i])
  }

  lemma EarlierAcknowledge(run: Run, steps: seq<Step>, redelivery: nat, n: nat)
    requires n <= |steps| && AllAcknowledge(run, steps, redelivery)
    ensures AllAcknowledge(run, steps[..n], redelivery)
  {
    hide Acknowledges, After;
    forall i | 0 <= i < n ensures Acknowledges(After(run, steps[..n][..i], redelivery), steps[..n][i]) {
      assert steps[..n][..i] == steps[..i];
    }
  }

  lemma MarkerStep(run: Run, step: Step, redelivery: nat, marker: Time)
    requires run.dispatched.Some? && marker <= run.dispatched.value && marker <= step.now && Acknowledges(run, step)
    ensures Apply(run, step, redelivery).dispatched.Some?
    ensures marker <= Apply(run, step, redelivery).dispatched.value
  {
  }

  lemma {:induction false} MarkerStays(run: Run, steps: seq<Step>, redelivery: nat, from: Time)
    requires run.dispatched.Some? && run.dispatched.value <= from
    requires InTime(steps, from) && AllAcknowledge(run, steps, redelivery)
    ensures After(run, steps, redelivery).dispatched.Some?
    ensures After(run, steps, redelivery).dispatched.value >= run.dispatched.value
  {
    hide Acknowledges, Apply;
    if steps != [] {
      var n := |steps| - 1;
      EarlierAcknowledge(run, steps, redelivery, n);
      MarkerStays(run, steps[..n], redelivery, from);
      assert Acknowledges(After(run, steps[..n], redelivery), steps[n]);
      MarkerStep(After(run, steps[..n], redelivery), steps[n], redelivery, run.dispatched.value);
    }
  }

  /** Two deliveries of a run are at least the redelivery interval apart, unless the
      second one takes it back from an execution whose lease has expired. */
  lemma DeliveriesAreSpaced(run: Run, steps: seq<Step>, redelivery: nat, first: Time, second: Time)
    requires Delivers(run, redelivery, first)
    requires InTime(steps, first) && (forall i :: 0 <= i < |steps| ==> steps[i].now <= second)
    requires AllAcknowledge(Deliver(run, redelivery, first), steps, redelivery)
    requires Delivers(After(Deliver(run, redelivery, first), steps, redelivery), redelivery, second)
    ensures || Expired(After(Deliver(run, redelivery, first), steps, redelivery), second)
            || second - first >= redelivery
  {
    MarkerStays(Deliver(run, redelivery, first), steps, redelivery, first);
  }

  /** The condition is exact: an acknowledgement that arrives late, with a time before
      the current attempt, lets the run be delivered too early. */
  lemma LateAcknowledgementBreaksSpacing(run: Run, redelivery: nat, at: Time)
    requires run.status.QUEUED? && run.dispatched.Some?
    ensures (forall t: Time :: t >= run.dispatched.value && Delivers(MarkDispatched(run, at), redelivery, t) ==>
               t - run.dispatched.value >= redelivery)
            <==> at >= run.dispatched.value || redelivery == 0
  {
    var d := run.dispatched.value;
    if at < d && redelivery > 0 {
      var t := if at + redelivery > d then at + redelivery else d;
      assert Delivers(MarkDispatched(run, at), redelivery, t);
    }
  }

  // The row itself, changed in place.

  class SyncRun {
    var status: RunStatus
    var owner: Option<Token>
    var expires: Option<Time>
    var plan: Option<Plan>
    var dispatched: Option<Time>

    ghost function Value(): Run
      reads this
    {
      Run(status, owner, expires, plan, dispatched)
    }

    ghost predicate Valid()
      reads this
    {
      Coherent(Value())
    }

    /** Created by `start_run` or the scheduler, with its first dispatch attempt. */
    constructor (now: Time)
      ensures Valid() && Value() == Run(QUEUED, None, None, None, Some(now))
    {
      status, owner, expires, plan, dispatched := QUEUED, None, None, None, Some(now);
    }

    method EndAs(end: RunStatus)
      modifies this
      ensures Value() == Ended(old(Value()), end)
    {
      status, owner, expires := end, None, None;
    }

    method Take(token: Token, ttl: nat, around: Surroundings, now: Time) returns (granted: bool)
      requires Valid()
      modifies this
      ensures Valid() && (Value(), granted) == Claim(old(Value()), token, ttl, around, now)
      ensures granted <==>
                && (old(status).QUEUED? || (old(status).RUNNING? && old(expires).value < now))
                && (around.Usable? || (around.RevisionChanged? && old(plan).Some?))
      ensures old(status).RUNNING? && old(expires).value >= now && !around.Archived? ==> Value() == old(Value())
      ensures granted ==> Value() == Run(RUNNING, Some(token), Some(now + ttl), old(plan), old(dispatched))
    {
      granted := false;
      if around.Archived? {
        if status.QUEUED? || status.RUNNING? {
          EndAs(CANCELED);
        }
        return;
      }
      if !(status.QUEUED? || (status.RUNNING? && expires.Some? && expires.value < now)) {
        return;
      }
      status, owner, expires := RUNNING, Some(token), Some(now + ttl);
      if around.ProfileGone? {
        EndAs(FAILED);
      } else if around.RevisionChanged? && plan.None? {
        EndAs(SKIPPED);
      } else if around.InvalidProfile? {
        EndAs(FAILED);
      } else {
        granted := true;
      }
    }

    method CheckFence(token: Token, now: Time) returns (ok: bool)
      ensures ok <==> Fenced(Value(), token, now)
    {
      ok := status.RUNNING? && owner == Some(token) && expires.Some? && expires.value > now;
    }

    method RenewLease(token: Token, ttl: nat, now: Time) returns (renewed: bool)
      requires Valid()
      modifies this`expires
      ensures Valid() && Value() == Renew(old(Value()), token, ttl, now)
      ensures renewed <==> old(status).RUNNING? && old(owner) == Some(token) && old(expires).value > now
      ensures expires == if renewed then Some(now + ttl) else old(expires)
    {
      renewed := CheckFence(token, now);
      if renewed {
        expires := Some(now + ttl);
      }
    }

    method StorePlan(token: Token, document: Plan, now: Time) returns (accepted: bool)
      requires Valid()
      modifies this`plan
      ensures Valid() && (Value(), accepted) == PersistPlan(old(Value()), token, document, now)
      ensures accepted <==>
                && old(status).RUNNING? && old(owner) == Some(token) && old(expires).value > now
                && (old(plan).None? || old(plan) == Some(document))
      ensures plan == if accepted then Some(document) else old(plan)
    {
      accepted := CheckFence(token, now);
      if accepted {
        if plan.Some? {
          accepted := plan.value == document;
        } else {
          plan := Some(document);
        }
      }
    }

    method Complete(token: Token, end: RunStatus, now: Time) returns (accepted: bool)
      requires Valid() && !end.Active()
      modifies this
      ensures Valid() && (Value(), accepted) == Finish(old(Value()), token, end, now)
      ensures accepted <==> old(status).RUNNING? && old(owner) == Some(token) && old(expires).value > now
      ensures Value() == if accepted then Run(end, None, None, old(plan), old(dispatched)) else old(Value())
    {
      accepted := CheckFence(token, now);
      if accepted {
        EndAs(end);
      }
    }

    method TakeBack(redelivery: nat, now: Time) returns (delivered: bool)
      requires Valid()
      modifies this
      ensures Valid() && Value() == Deliver(old(Value()), redelivery, now)
      ensures delivered <==>
                || (old(status).QUEUED? && (old(dispatched).Some? ==> now - old(dispatched).value >= redelivery))
                || (old(status).RUNNING? && old(expires).value < now)
      ensures Value() == if delivered then Run(QUEUED, None, None, old(plan), Some(now)) else old(Value())
    {
      delivered := (status.QUEUED? && (dispatched.None? || dispatched.value <= now - redelivery))
                   || (status.RUNNING? && expires.Some? && expires.value < now);
      if delivered {
        if status.RUNNING? {
          status, owner, expires := QUEUED, None, None;
        }
        dispatched := Some(now);
      }
    }
  }
}
