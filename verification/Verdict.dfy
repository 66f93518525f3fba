/** The verdict on a run (engine.py, the event loop of _apply_plan and
    _dry_run_status). */
module Verdict {
  datatype PlanStatus = Ready | Ambiguous | Failed | Skipped

  datatype RunStatus = SUCCEEDED | PARTIAL | FAILED | CANCELED | SKIPPED

  /** What happens when a READY event's turn comes; other events ignore it. */
  datatype Fate = Succeeds | Fails | IsLocked | CanceledBefore | CanceledAfter(success: bool)

  datatype EventRun = EventRun(status: PlanStatus, fate: Fate)
  {
    predicate Cancels() { status.Ready? && (fate.CanceledBefore? || fate.CanceledAfter?) }
    predicate Done() { status.Ready? && fate.Succeeds? }
    predicate Problem() { status.Ambiguous? || status.Failed? }
  }

  ghost predicate Some(events: seq<EventRun>, p: EventRun -> bool) {
    exists i :: 0 <= i < |events| && p(events[i])
  }

  ghost predicate All(events: seq<EventRun>, p: EventRun -> bool) {
    forall i :: 0 <= i < |events| ==> p(events[i])
  }

  /** What a verdict claims about the events, told without counters. */
  ghost predicate Justified(events: seq<EventRun>, prepared: nat, verdict: RunStatus) {
    match verdict
    case CANCELED => Some(events, (e: EventRun) => e.Cancels())
    case SUCCEEDED =>
      Some(events, (e: EventRun) => e.status.Ready?) && All(events, (e: EventRun) => e.Done() || e.status.Skipped?)
    case SKIPPED => All(events, (e: EventRun) => e.status.Skipped?)
    case PARTIAL =>
      && Some(events, (e: EventRun) => e.status.Ready?) && Some(events, (e: EventRun) => !e.Done() && !e.status.Skipped?)
      && (Some(events, (e: EventRun) => e.Done()) || prepared > 0)
    case FAILED =>
      && Some(events, (e: EventRun) => !e.Done() && !e.status.Skipped?) && All(events, (e: EventRun) => !e.Done())
      && (Some(events, (e: EventRun) => e.status.Ready?) ==> prepared == 0)
  }

  /** The event loop.  `prepared` counts the verified preparation actions. */
  method ApplyEvents(events: seq<EventRun>, prepared: nat) returns (verdict: RunStatus)
    ensures Justified(events, prepared, verdict)
    ensures verdict.CANCELED? <==> Some(events, (e: EventRun) => e.Cancels())
  {
    var successes, failures, ready := 0, 0, 0;
    var k := 0;
    while k < |events|
      invariant 0 <= k <= |events|
      invariant forall i :: 0 <= i < k ==> !events[i].Cancels()
      invariant ready > 0 <==> exists i :: 0 <= i < k && events[i].status.Ready?
      invariant successes > 0 <==> exists i :: 0 <= i < k && events[i].Done()
      invariant failures > 0 <==> exists i :: 0 <= i < k && !events[i].Done() && !events[i].status.Skipped?
      invariant failures == 0 ==> successes == ready
      invariant successes <= ready
    {
      if events[k].status.Skipped? {
      } else if !events[k].status.Ready? {
        failures := failures + 1;
      } else {
        ready := ready + 1;
        match events[k].fate {
          case CanceledBefore => return CANCELED;
          case CanceledAfter(_) => return CANCELED;
          case IsLocked => failures := failures + 1;
          case Succeeds => successes := successes + 1;
          case Fails => failures := failures + 1;
        }
      }
      k := k + 1;
    }
    if ready == 0 {
      verdict := if failures > 0 then FAILED else SKIPPED;
    } else if failures == 0 && successes == ready {
      verdict := SUCCEEDED;
    } else if successes > 0 || prepared > 0 {
      verdict := PARTIAL;
    } else {
      verdict := FAILED;
    }
  }

  function Count(events: seq<EventRun>, p: EventRun -> bool): nat {
    if events == [] then 0 else (if p(events[0]) then 1 else 0) + Count(events[1..], p)
  }

  /** `_dry_run_status`. */
  function DryRunStatus(events: seq<EventRun>): RunStatus {
    var ready := Count(events, (e: EventRun) => e.status.Ready?);
    var problems := Count(events, (e: EventRun) => e.Problem());
    if ready > 0 && problems > 0 then PARTIAL
    else if ready > 0 then SUCCEEDED
    else if problems > 0 then FAILED
    else SKIPPED
  }

  lemma {:induction false} CountSome(events: seq<EventRun>, p: EventRun -> bool)
    ensures Count(events, p) > 0 <==> Some(events, p)
  {
    if events != [] {
      CountSome(events[1..], p);
      if Some(events[1..], p) {
        var i :| 0 <= i < |events[1..]| && p(events[1..][i]);
        assert p(events[i + 1]);
      }
      if Some(events, p) && !p(events[0]) {
        var i :| 0 <= i < |events| && p(events[i]);
        assert p(events[1..][i - 1]);
      }
    }
  }

  /** At most one verdict is justified for an uncanceled run. */
  lemma VerdictIsUnique(events: seq<EventRun>, prepared: nat, a: RunStatus, b: RunStatus)
    requires Justified(events, prepared, a) && Justified(events, prepared, b)
    requires !a.CANCELED? && !b.CANCELED?
    ensures a == b
  {
    if Some(events, (e: EventRun) => e.status.Ready?) {
      var i :| 0 <= i < |events| && events[i].status.Ready?;
    }
  }

  /** The dry run foretells the verdict: where every READY event succeeds, the run ends
      exactly as its dry run said. */
  lemma DryRunForetells(events: seq<EventRun>, prepared: nat, verdict: RunStatus)
    requires All(events, (e: EventRun) => e.status.Ready? ==> e.Done())
    requires Justified(events, prepared, verdict)
    ensures verdict == DryRunStatus(events)
  {
    CountSome(events, (e: EventRun) => e.status.Ready?);
    CountSome(events, (e: EventRun) => e.Problem());
    assert forall i :: 0 <= i < |events| && events[i].status.Ready? ==> events[i].Done();
    assert forall i :: 0 <= i < |events| ==>
      (events[i].Problem() <==> !events[i].Done() && !events[i].status.Skipped?);
  }
}
