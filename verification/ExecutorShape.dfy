/** The rows an uninterrupted worker leaves behind. */
module ExecutorShape {
  import opened Prelude
  import opened Agendas
  import opened Executor

  /** VERIFIED up to j; then, up to k, SKIPPED rows, the first of them FAILED if
      `failed`; then PLANNED rows.  Nothing after the first row that is not VERIFIED
      has been called. */
  ghost predicate Stairs(w: World, j: nat, failed: bool, k: nat) {
    && j <= k <= |w.rows| == |w.calls| && (failed ==> j < k)
    && (forall i :: 0 <= i < j ==> w.rows[i].status.VERIFIED?)
    && (failed ==> w.rows[j].status.FAILED?)
    && (forall i :: (if failed then j + 1 else j) <= i < k ==> w.rows[i].status.SKIPPED?)
    && (forall i :: k <= i < |w.rows| ==> w.rows[i].status.PLANNED?)
    && (forall i :: (if failed then j + 1 else j) <= i < |w.calls| ==> w.calls[i] == 0)
  }

  ghost predicate Stopped(w: World, k: nat) {
    exists j: nat, failed: bool :: Stairs(w, j, failed, k)
  }

  /** Up to k verified, from k on untouched, except perhaps the row and call of k itself. */
  ghost predicate Busy(w: World, k: nat) {
    && k < |w.rows| == |w.calls|
    && (forall i :: 0 <= i < k ==> w.rows[i].status.VERIFIED?)
    && (forall i :: k < i < |w.rows| ==> w.rows[i].status.PLANNED?)
    && (forall i :: k < i < |w.calls| ==> w.calls[i] == 0)
  }

  ghost predicate AllPlanned(rows: seq<Row>) {
    forall i :: 0 <= i < |rows| ==> rows[i].status.PLANNED?
  }

  /** What an uninterrupted worker keeps, phase by phase; `calm` while not canceled. */
  ghost predicate OnTheWay(e: Event, w: World, calm: bool) {
    && |w.rows| == |w.calls| == |e.actions|
    && w.worker.Some? && |w.worker.value.prior| == |e.actions| && AllPlanned(w.worker.value.prior)
    && match w.worker.value.phase
       case Turn(k) => k <= |w.rows| && Stairs(w, k, false, k)
       case Calling(k) => k < |w.rows| && Stairs(w, k, false, k)
       case Called(k, _) => Busy(w, k) && w.rows[k].status.PLANNED?
       case Raised(k, _) =>
         && Busy(w, k) && !w.rows[k].status.FAILED? && !w.rows[k].status.SKIPPED?
       case Verifying(k, _) => Busy(w, k) && w.rows[k].status.APPLIED?
       case Closing(k, _) => Busy(w, k) && w.rows[k].status.VERIFIED?
       case Skipping(k) => k <= |w.rows| && Stopped(w, k)
       case Finished(true) => Stairs(w, |w.rows|, false, |w.rows|)
       case Finished(false) => if calm then Stopped(w, |w.rows|) else exists k: nat :: k <= |w.rows| && Stopped(w, k)
  }

  lemma Stop(w: World, w': World, j: nat, failed: bool, k: nat)
    requires Stairs(w, j, failed, k) && w'.rows == w.rows && w'.calls == w.calls
    ensures Stopped(w', k)
  {
    assert Stairs(w', j, failed, k);
  }

  /** Failing or skipping the row a worker is busy with. */
  lemma BusyStops(w: World, w': World, k: nat, status: Status)
    requires Busy(w, k) && !w.rows[k].status.FAILED? && !w.rows[k].status.SKIPPED?
    requires status.FAILED? || (status.SKIPPED? && w.rows[k].status.PLANNED? && w.calls[k] == 0)
    requires w'.rows == w.rows[k := Finish(w.rows[k], status, None)] && w'.calls == w.calls
    ensures Stopped(w', k + 1)
  {
    if w.rows[k].status.VERIFIED? {
      assert Stairs(w', k + 1, false, k + 1);
    } else if status.FAILED? {
      assert Stairs(w', k, true, k + 1);
    } else {
      assert Stairs(w', k, false, k + 1);
    }
  }

  lemma SkipOneMore(w: World, w': World, k: nat)
    requires Stopped(w, k) && k < |w.rows|
    requires w'.rows == w.rows[k := Finish(w.rows[k], SKIPPED, None)] && w'.calls == w.calls
    ensures Stopped(w', k + 1)
  {
    var j: nat, failed: bool :| Stairs(w, j, failed, k);
    assert Stairs(w', j, failed, k + 1);
  }

  predicate StillCalm(calm: bool, trouble: Trouble) { calm && !trouble.Canceled? }

  lemma TurnOnTheWay(e: Event, w: World, trouble: Trouble, k: nat, calm: bool)
    requires e.Valid() && OnTheWay(e, w, calm) && w.worker.value.phase == Turn(k) && k < |e.actions|
    ensures OnTheWay(e, TakeUp(e, w, w.worker.value, k, trouble), StillCalm(calm, trouble))
  {
    var v, w' := w.worker.value, TakeUp(e, w, w.worker.value, k, trouble);
    assert Busy(w, k) && v.prior[k].status.PLANNED?;
    match w'.worker.value.phase {
      case Skipping(_) => BusyStops(w, w', k, if w'.rows[k].status.FAILED? then FAILED else SKIPPED);
      case Finished(_) => Stop(w, w', k, false, k);
      case _ =>
    }
  }

  lemma TurnEnds(e: Event, w: World, calm: bool)
    requires OnTheWay(e, w, calm) && w.worker.value.phase.Turn? && w.worker.value.phase.k >= |e.actions|
    ensures OnTheWay(e, To(w, w.worker.value, Finished(true)), calm)
  {
  }

  lemma CallingOnTheWay(e: Event, w: World, answer: Answer, newId: Id, k: nat, calm: bool)
    requires OnTheWay(e, w, calm) && w.worker.value.phase == Calling(k)
    ensures OnTheWay(e, Call(e, w, w.worker.value, k, answer, newId), calm)
  {
  }

  lemma RowOnTheWay(e: Event, w: World, trouble: Trouble, answer: Answer, newId: Id, calm: bool)
    requires e.Valid() && OnTheWay(e, w, calm) && (w.worker.value.phase.Called? || w.worker.value.phase.Verifying?)
    ensures OnTheWay(e, Work(e, w, w.worker.value, trouble, answer, newId), StillCalm(calm, trouble))
  {
  }

  lemma ClosingOnTheWay(e: Event, w: World, trouble: Trouble, answer: Answer, newId: Id, calm: bool)
    requires e.Valid() && OnTheWay(e, w, calm) && w.worker.value.phase.Closing?
    ensures OnTheWay(e, Work(e, w, w.worker.value, trouble, answer, newId), StillCalm(calm, trouble))
  {
    assert Busy(Work(e, w, w.worker.value, trouble, answer, newId), w.worker.value.phase.k);
  }

  lemma FinishedOnTheWay(e: Event, w: World, trouble: Trouble, calm: bool)
    requires OnTheWay(e, w, calm) && w.worker.value.phase.Finished?
    ensures OnTheWay(e, w, StillCalm(calm, trouble))
  {
  }

  lemma RaisedOnTheWay(e: Event, w: World, trouble: Trouble, answer: Answer, newId: Id, calm: bool)
    requires e.Valid() && OnTheWay(e, w, calm) && w.worker.value.phase.Raised?
    ensures OnTheWay(e, Work(e, w, w.worker.value, trouble, answer, newId), StillCalm(calm, trouble))
  {
    BusyStops(w, Work(e, w, w.worker.value, trouble, answer, newId), w.worker.value.phase.k, FAILED);
  }

  lemma SkippingOnTheWay(e: Event, w: World, trouble: Trouble, answer: Answer, newId: Id, calm: bool)
    requires e.Valid() && OnTheWay(e, w, calm) && w.worker.value.phase.Skipping?
    ensures OnTheWay(e, Work(e, w, w.worker.value, trouble, answer, newId), StillCalm(calm, trouble))
  {
    var k, w' := w.worker.value.phase.k, Work(e, w, w.worker.value, trouble, answer, newId);
    if k < |e.actions| {
      SkipOneMore(w, w', k);
    } else {
      var j: nat, failed: bool :| Stairs(w, j, failed, k);
      Stop(w, w', j, failed, k);
    }
  }

  lemma AdvanceOnTheWay(e: Event, w: World, trouble: Trouble, answer: Answer, newId: Id, calm: bool)
    requires e.Valid() && OnTheWay(e, w, calm)
    ensures OnTheWay(e, Step(e, w, Advance(trouble, answer, newId)), StillCalm(calm, trouble))
  {
    hide Stairs, Stopped, Busy, TakeUp, Call;
    match w.worker.value.phase {
      case Turn(k) =>
        if k < |e.actions| {
          TurnOnTheWay(e, w, trouble, k, calm);
        } else {
          TurnEnds(e, w, calm);
        }
      case Calling(k) => CallingOnTheWay(e, w, answer, newId, k, calm);
      case Closing(_, _) => ClosingOnTheWay(e, w, trouble, answer, newId, calm);
      case Finished(_) => FinishedOnTheWay(e, w, trouble, calm);
      case Raised(_, _) => RaisedOnTheWay(e, w, trouble, answer, newId, calm);
      case Skipping(_) => SkippingOnTheWay(e, w, trouble, answer, newId, calm);
      case _ => RowOnTheWay(e, w, trouble, answer, newId, calm);
    }
  }

  /** Only the worker acts, though others may edit the agenda meanwhile. */
  ghost predicate Uninterrupted(inputs: seq<Input>) {
    forall n :: 0 <= n < |inputs| ==> inputs[n].Advance? || inputs[n].Edit?
  }

  /** The run was not canceled while this worker looked. */
  ghost predicate Calm(inputs: seq<Input>) {
    forall n :: 0 <= n < |inputs| && inputs[n].Advance? ==> !inputs[n].trouble.Canceled?
  }

  lemma CalmNext(inputs: seq<Input>)
    requires inputs != []
    ensures var n := |inputs| - 1;
            Calm(inputs) <==> Calm(inputs[..n]) && (inputs[n].Advance? ==> !inputs[n].trouble.Canceled?)
  {
  }

  lemma {:induction false} FreshOnTheWay(e: Event, inputs: seq<Input>)
    requires e.Valid() && Uninterrupted(inputs)
    ensures OnTheWay(e, Run(e, [Begin] + inputs), Calm(inputs))
  {
    var all := [Begin] + inputs;
    var n := |inputs|;
    if n == 0 {
      FreshBegins(e, all);
    } else {
      assert all[..n] == [Begin] + inputs[..n - 1];
      FreshOnTheWay(e, inputs[..n - 1]);
      CalmNext(inputs);
      var w := Run(e, all[..n]);
      match all[n] {
        case Advance(trouble, answer, newId) => AdvanceOnTheWay(e, w, trouble, answer, newId, Calm(inputs[..n - 1]));
        case Edit(_) => EditOnTheWay(e, w, Step(e, w, all[n]), Calm(inputs[..n - 1]));
        case _ =>
      }
    }
  }

  lemma FreshBegins(e: Event, all: seq<Input>)
    requires e.Valid() && all == [Begin]
    ensures OnTheWay(e, Run(e, all), true)
  {
    assert all[..0] == [];
    assert Stairs(Run(e, all), 0, false, 0);
  }

  lemma EditOnTheWay(e: Event, w: World, w': World, calm: bool)
    requires OnTheWay(e, w, calm) && w' == w.(agenda := w'.agenda)
    ensures OnTheWay(e, w', calm)
  {
    match w.worker.value.phase {
      case Skipping(k) =>
        var j: nat, failed: bool :| Stairs(w, j, failed, k);
        Stop(w, w', j, failed, k);
      case Finished(b) =>
        if !b {
          var k: nat :| k <= |w.rows| && Stopped(w, k) && (calm ==> k == |w.rows|);
          var j: nat, failed: bool :| Stairs(w, j, failed, k);
          Stop(w, w', j, failed, k);
        }
      case _ =>
    }
  }

  /** A worker that takes up a fresh event and finishes it leaves VERIFIED^n if it
      reports success; else, unless it was canceled, VERIFIED^j FAILED SKIPPED* or
      VERIFIED^j SKIPPED*; canceled, such a prefix before PLANNED rows.  Nothing after
      the first row that is not VERIFIED was ever called. */
  lemma FreshRowsAreStairs(e: Event, inputs: seq<Input>)
    requires e.Valid() && Uninterrupted(inputs)
    ensures Run(e, [Begin] + inputs).worker.Some?
    ensures var w, n := Run(e, [Begin] + inputs), |e.actions|;
            && (w.worker.value.phase == Finished(true) ==> Stairs(w, n, false, n))
            && (w.worker.value.phase == Finished(false) && Calm(inputs) ==> Stopped(w, n))
            && (w.worker.value.phase == Finished(false) ==> exists k: nat :: k <= n && Stopped(w, k))
  {
    FreshOnTheWay(e, inputs);
  }
}
