/** How often the provider is called: for any interleaving of steps, deaths, restarts
    and foreign edits, an action is called at most once more than workers died in its
    window, and never again once its row has left PLANNED. */
module ExecutorWrites {
  import opened Prelude
  import opened Executor

  ghost predicate Shaped(e: Event, w: World) {
    var n := |e.actions|;
    && |w.rows| == n && |w.calls| == n && |w.deaths| == n
    && (w.worker.Some? ==> |w.worker.value.prior| == n)
  }

  /** A worker about to call, or having called, stands at a PLANNED row. */
  ghost predicate CallerIsEntitled(e: Event, w: World) {
    w.worker.Some? ==>
      match w.worker.value.phase
      case Calling(k) => k < |w.rows| && w.rows[k].status.PLANNED?
      case Called(k, _) => k < |w.rows| && w.rows[k].status.PLANNED?
      case Raised(k, called) => k < |w.rows| && (called ==> w.rows[k].status.PLANNED?)
      case _ => true
  }

  /** The calls for action k that some row or some death accounts for. */
  ghost predicate Accounted(e: Event, w: World, k: nat)
    requires Shaped(e, w) && k < |e.actions|
  {
    w.calls[k] <= w.deaths[k] + (if !w.rows[k].status.PLANNED? || Unrecorded(e, w) == Some(k) then 1 else 0)
  }

  ghost predicate Sane(e: Event, w: World) {
    Shaped(e, w) && CallerIsEntitled(e, w) && forall k :: 0 <= k < |e.actions| ==> Accounted(e, w, k)
  }

  lemma StepShaped(e: Event, w: World, input: Input)
    requires e.Valid() && Shaped(e, w) && CallerIsEntitled(e, w)
    ensures Shaped(e, Step(e, w, input)) && CallerIsEntitled(e, Step(e, w, input))
  {
  }

  /** Only a PLANNED row is ever called for, by a worker that is in its call. */
  lemma CallsNeedPlanned(e: Event, w: World, input: Input, k: nat)
    requires e.Valid() && Shaped(e, w) && CallerIsEntitled(e, w) && k < |e.actions|
    ensures Shaped(e, Step(e, w, input))
    ensures Step(e, w, input).calls[k] != w.calls[k] ==>
              && w.rows[k].status.PLANNED? && w.worker.Some? && w.worker.value.phase == Calling(k)
              && Step(e, w, input).calls[k] == w.calls[k] + 1
  {
    StepShaped(e, w, input);
  }

  lemma StepAccounted(e: Event, w: World, input: Input, k: nat)
    requires e.Valid() && Sane(e, w) && k < |e.actions|
    ensures Shaped(e, Step(e, w, input)) && Accounted(e, Step(e, w, input), k)
  {
    StepShaped(e, w, input);
    assert Accounted(e, w, k);
  }

  lemma {:induction false} RunSane(e: Event, inputs: seq<Input>)
    requires e.Valid()
    ensures Sane(e, Run(e, inputs))
  {
    if inputs != [] {
      var n := |inputs| - 1;
      RunSane(e, inputs[..n]);
      StepShaped(e, Run(e, inputs[..n]), inputs[n]);
      forall k | 0 <= k < |e.actions| ensures Accounted(e, Run(e, inputs), k) {
        StepAccounted(e, Run(e, inputs[..n]), inputs[n], k);
      }
    }
  }

  /** The write bound, for every run. */
  lemma WritesAreBounded(e: Event, inputs: seq<Input>, k: nat)
    requires e.Valid() && k < |e.actions|
    ensures Shaped(e, Run(e, inputs))
    ensures Run(e, inputs).calls[k] <= 1 + Run(e, inputs).deaths[k]
  {
    RunSane(e, inputs);
    assert Accounted(e, Run(e, inputs), k);
  }

  /** A row that has left PLANNED never returns to it. */
  lemma LeavesPlannedForGood(e: Event, w: World, input: Input, k: nat)
    requires e.Valid() && Shaped(e, w) && CallerIsEntitled(e, w) && k < |e.actions|
    ensures Shaped(e, Step(e, w, input))
    ensures !w.rows[k].status.PLANNED? ==> !Step(e, w, input).rows[k].status.PLANNED?
    ensures w.rows[k].status.Final() ==> Step(e, w, input).rows[k] == w.rows[k]
  {
    StepShaped(e, w, input);
  }

  /** From the moment a row has left PLANNED, its action is not called again. */
  lemma {:induction false} NoCallAfterPlanned(e: Event, earlier: seq<Input>, later: seq<Input>, k: nat)
    requires e.Valid() && k < |e.actions|
    requires Shaped(e, Run(e, earlier)) && !Run(e, earlier).rows[k].status.PLANNED?
    ensures Shaped(e, Run(e, earlier + later)) && !Run(e, earlier + later).rows[k].status.PLANNED?
    ensures Run(e, earlier + later).calls[k] == Run(e, earlier).calls[k]
  {
    hide Step, Accounted;
    if later == [] {
      assert earlier + later == earlier;
    } else {
      var n := |later| - 1;
      assert (earlier + later)[..|earlier| + n] == earlier + later[..n];
      NoCallAfterPlanned(e, earlier, later[..n], k);
      RunSane(e, earlier + later[..n]);
      CallsNeedPlanned(e, Run(e, earlier + later[..n]), later[n], k);
      LeavesPlannedForGood(e, Run(e, earlier + later[..n]), later[n], k);
    }
  }
}
