/** The ownership rows of an event (engine.py, _update_ownership).  They are written
    after the action row, so a worker can die between the two; the next worker writes
    them again, because it verifies every action anew. */
module ExecutorBindings {
  import opened Prelude
  import opened Executor

  /** The step that ends an action: it writes the ownership row of the action. */
  function Binds(e: Event, w: World, input: Input): Option<nat> {
    if w.worker.Some? && w.worker.value.phase.Closing? && w.worker.value.phase.k < |e.actions|
       && input.Advance? && input.trouble.Fine?
       && |w.worker.value.prior| == |w.rows| == |w.calls| == |e.actions|
    then Some(w.worker.value.phase.k) else None
  }

  /** The actions whose ownership rows were written in a run, in order. */
  function Bound(e: Event, inputs: seq<Input>): seq<nat>
    requires e.Valid()
  {
    if inputs == [] then []
    else
      var earlier, last := inputs[..|inputs| - 1], inputs[|inputs| - 1];
      var k := Binds(e, Run(e, earlier), last);
      Bound(e, earlier) + (if k.Some? then [k.value] else [])
  }

  function Upto(k: nat): (r: seq<nat>)
    ensures |r| == k && forall i :: 0 <= i < k ==> r[i] == i
  {
    seq(k, i requires 0 <= i < k => i)
  }

  predicate EndsWith(bound: seq<nat>, k: nat) {
    k <= |bound| && bound[|bound| - k..] == Upto(k)
  }

  /** The live worker has written the rows of all actions before the one it is at. */
  predicate CaughtUp(e: Event, w: World, bound: seq<nat>) {
    w.worker.Some? ==>
      match w.worker.value.phase
      case Turn(k) => k <= |e.actions| && EndsWith(bound, k)
      case Calling(k) => k < |e.actions| && EndsWith(bound, k)
      case Called(k, _) => k < |e.actions| && EndsWith(bound, k)
      case Verifying(k, _) => k < |e.actions| && EndsWith(bound, k)
      case Closing(k, _) => k < |e.actions| && EndsWith(bound, k)
      case Finished(success) => success ==> EndsWith(bound, |e.actions|)
      case _ => true
  }

  lemma OneMore(bound: seq<nat>, k: nat)
    requires EndsWith(bound, k)
    ensures EndsWith(bound + [k], k + 1)
  {
    assert (bound + [k])[|bound| - k..] == bound[|bound| - k..] + [k];
    assert Upto(k + 1) == Upto(k) + [k];
  }

  lemma StepKeepsCaughtUp(e: Event, w: World, input: Input, bound: seq<nat>)
    requires e.Valid() && CaughtUp(e, w, bound)
    ensures var k := Binds(e, w, input);
            CaughtUp(e, Step(e, w, input), bound + (if k.Some? then [k.value] else []))
  {
    hide Verify, EndsWith, Missing, Restore;
    var k := Binds(e, w, input);
    if k.Some? {
      OneMore(bound, k.value);
    } else {
      assert bound + [] == bound;
    }
    if input.Begin? && w.worker.None? {
      NothingYet(bound);
    }
  }

  lemma NothingYet(bound: seq<nat>)
    ensures EndsWith(bound, 0)
  {
  }

  lemma {:induction false} RunKeepsCaughtUp(e: Event, inputs: seq<Input>)
    requires e.Valid()
    ensures CaughtUp(e, Run(e, inputs), Bound(e, inputs))
  {
    if inputs != [] {
      RunKeepsCaughtUp(e, inputs[..|inputs| - 1]);
      StepKeepsCaughtUp(e, Run(e, inputs[..|inputs| - 1]), inputs[|inputs| - 1], Bound(e, inputs[..|inputs| - 1]));
    }
  }

  /** An event that succeeds, in whatever run and after whatever deaths, has had the
      ownership rows of all its actions written, last of all and in plan order: a row
      that a dying worker left unwritten is made up for. */
  lemma SuccessBindsAll(e: Event, inputs: seq<Input>)
    requires e.Valid() && Run(e, inputs).worker.Some? && Run(e, inputs).worker.value.phase == Finished(true)
    ensures EndsWith(Bound(e, inputs), |e.actions|)
  {
    RunKeepsCaughtUp(e, inputs);
  }
}
