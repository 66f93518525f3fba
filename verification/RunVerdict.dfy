/** The verdict on a fresh run, over the executions of its events: what module Verdict
    takes as the fate of an event is here the end of that event's own run. */
module RunVerdict {
  import opened Executor
  import ExecutorExact
  import ExecutorShape
  import ExecutorWrites
  import Verdict

  /** What happens at a READY event's turn: its lease is taken, the run is canceled, or
      it is executed, by one worker that takes these steps. */
  datatype Turn = LeaseTaken | CanceledBefore | Executed(steps: seq<Input>, canceledAfter: bool)

  datatype Played = Played(status: Verdict.PlanStatus, event: Event, turn: Turn)
  {
    /** A READY event is executed to its end, without interruption. */
    ghost predicate Complete() {
      status.Ready? && turn.Executed? ==>
        && event.Valid() && ExecutorShape.Uninterrupted(turn.steps)
        && Outcome().worker.Some? && Outcome().worker.value.phase.Finished?
    }

    /** The world its execution leaves; the run is fresh. */
    ghost function Outcome(): World
      requires turn.Executed? && event.Valid()
    {
      Run(event, [Begin] + turn.steps)
    }

    ghost predicate Succeeds()
      requires turn.Executed? && event.Valid()
    {
      Outcome().worker.Some? && Outcome().worker.value.phase == Finished(true)
    }

    /** The flag that the event loop sees. */
    ghost function Fate(): Verdict.Fate {
      match turn
      case LeaseTaken => Verdict.IsLocked
      case CanceledBefore => Verdict.CanceledBefore
      case Executed(_, canceledAfter) =>
        if !event.Valid() then Verdict.Fails
        else if canceledAfter then Verdict.CanceledAfter(Succeeds())
        else if Succeeds() then Verdict.Succeeds
        else Verdict.Fails
    }
  }

  ghost function Fates(played: seq<Played>): (r: seq<Verdict.EventRun>)
    ensures |r| == |played|
    ensures forall i :: 0 <= i < |played| ==> r[i] == Verdict.EventRun(played[i].status, played[i].Fate())
  {
    seq(|played|, i requires 0 <= i < |played| => Verdict.EventRun(played[i].status, played[i].Fate()))
  }

  ghost predicate AllComplete(played: seq<Played>) {
    forall i :: 0 <= i < |played| ==> played[i].Complete()
  }

  /** The event was executed, uncanceled, and every row of it is VERIFIED. */
  ghost predicate Verified(p: Played) {
    p.turn.Executed? && !p.turn.canceledAfter && p.event.Valid() && ExecutorExact.AllVerified(p.event, p.Outcome())
  }

  lemma SuccessIsVerified(p: Played)
    requires p.Complete() && p.status.Ready? && p.Fate() == Verdict.Succeeds
    ensures Verified(p)
  {
    ExecutorShape.FreshRowsAreStairs(p.event, p.turn.steps);
    ExecutorWrites.RunSane(p.event, [Begin] + p.turn.steps);
  }

  /** A fresh run ends as SUCCEEDED only if it has a READY event, every READY event was
      executed with every row VERIFIED, and no event was AMBIGUOUS or FAILED. */
  lemma SucceededMeansVerified(played: seq<Played>, prepared: nat)
    requires AllComplete(played) && Verdict.Justified(Fates(played), prepared, Verdict.SUCCEEDED)
    ensures exists i :: 0 <= i < |played| && played[i].status.Ready?
    ensures forall i :: 0 <= i < |played| && played[i].status.Ready? ==> Verified(played[i])
    ensures forall i :: 0 <= i < |played| ==> !played[i].status.Ambiguous? && !played[i].status.Failed?
  {
    var fates := Fates(played);
    var r :| 0 <= r < |fates| && fates[r].status.Ready?;
    assert played[r].status.Ready?;
    forall i | 0 <= i < |played|
      ensures played[i].status.Ready? ==> Verified(played[i])
      ensures !played[i].status.Ambiguous? && !played[i].status.Failed?
    {
      assert fates[i].Done() || fates[i].status.Skipped?;
      if played[i].status.Ready? {
        SuccessIsVerified(played[i]);
      }
    }
  }

  /** The event loop over the executions: the method of module Verdict, given the ends of
      the events' own runs. */
  method RunEvents(fates: seq<Verdict.EventRun>, prepared: nat, ghost played: seq<Played>) returns (verdict: Verdict.RunStatus)
    requires AllComplete(played) && fates == Fates(played)
    ensures Verdict.Justified(fates, prepared, verdict)
    ensures verdict.SUCCEEDED? ==> forall i :: 0 <= i < |played| && played[i].status.Ready? ==> Verified(played[i])
  {
    verdict := Verdict.ApplyEvents(fates, prepared);
    if verdict.SUCCEEDED? {
      SucceededMeansVerified(played, prepared);
    }
  }
}
