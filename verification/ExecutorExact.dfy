/** What is carried out when workers die and nobody else edits the agenda: always a
    prefix of the plan, each action once -- as long as no worker died between a write
    and its row for an action that has an earlier one in the event besides cleanup
    NOOPs.  There the rule is sharp: see module ExecutorOrphan. */
module ExecutorExact {
  import opened Prelude
  import opened Agendas
  import opened Actions
  import opened LayoutProofs
  import opened Order
  import opened Reconcile
  import opened Executor
  import opened ExecutorWrites

  predicate AllCleanup(actions: seq<Body>) {
    forall j :: 0 <= j < |actions| ==> actions[j].CleanupNoop?
  }

  /** What planning guarantees about the first write of an event. */
  ghost predicate WellStarted(e: Event) {
    && e.Valid()
    && forall k :: 0 <= k < |e.actions| && e.actions[k].MutatesAgenda() && AllCleanup(e.actions[..k]) ==>
         FirstWriteShows(e, e.actions[k])
  }

  /** A write that can be recognized, and that changes the agenda. */
  ghost predicate FirstWriteShows(e: Event, body: Body) {
    && Recognizable(body, e.agenda)
    && (body.InsertItem? || body.ReplaceItem? ==> Resolvable(body.song, e.resources, e.catalogue))
    && forall newId: Id ::
         var done := Perform(body, Effect(e.agenda, e.resources), e.catalogue, newId);
         done.Some? ==> done.value.items != e.agenda
  }

  /** No foreign edits, and the provider's ids are new to the agenda and the plan. */
  ghost predicate Peaceful(e: Event, w: World, input: Input) {
    && !input.Edit?
    && (input.Advance? ==>
          Absent(w.agenda, input.newId) && Absent(e.agenda, input.newId)
          && forall k :: 0 <= k < |e.actions| && e.actions[k].InsertItem? ==> input.newId !in e.actions[k].initialIds)
  }

  /** The provider never gives an id twice. */
  ghost predicate NeverTwice(inputs: seq<Input>) {
    forall m, n :: 0 <= m < n < |inputs| && inputs[m].Advance? && inputs[n].Advance? ==> inputs[m].newId != inputs[n].newId
  }

  ghost predicate PeacefulRun(e: Event, inputs: seq<Input>)
    requires e.Valid()
  {
    NeverTwice(inputs) && forall n :: 0 <= n < |inputs| ==> Peaceful(e, Run(e, inputs[..n]), inputs[n])
  }

  /** `ids` are distinct ids that the provider gave during the run. */
  ghost predicate Given(e: Event, inputs: seq<Input>, ids: seq<Id>) {
    && Fresh(ids, e.agenda)
    && forall j :: 0 <= j < |ids| ==> Gives(inputs, ids[j])
  }

  ghost predicate Gives(inputs: seq<Input>, id: Id) {
    exists n :: 0 <= n < |inputs| && inputs[n].Advance? && inputs[n].newId == id
  }

  lemma GivenStays(e: Event, inputs: seq<Input>, input: Input, ids: seq<Id>)
    requires Given(e, inputs, ids)
    ensures Given(e, inputs + [input], ids)
  {
    forall j | 0 <= j < |ids| ensures Gives(inputs + [input], ids[j]) {
      assert Gives(inputs, ids[j]);
      var n :| 0 <= n < |inputs| && inputs[n].Advance? && inputs[n].newId == ids[j];
      assert (inputs + [input])[n] == inputs[n];
    }
  }

  lemma GivenGrows(e: Event, inputs: seq<Input>, input: Input, ids: seq<Id>)
    requires Given(e, inputs, ids) && input.Advance? && Absent(e.agenda, input.newId) && NeverTwice(inputs + [input])
    ensures Given(e, inputs + [input], ids + [input.newId])
  {
    var all, longer := inputs + [input], ids + [input.newId];
    assert all[|inputs|] == input;
    GivenStays(e, inputs, input, ids);
    forall j | 0 <= j < |ids| ensures ids[j] != input.newId {
      assert Gives(inputs, ids[j]);
      var n :| 0 <= n < |inputs| && inputs[n].Advance? && inputs[n].newId == ids[j];
      assert all[n] == inputs[n];
    }
    assert Gives(all, input.newId);
  }

  // The shape of reachable worlds: `b` actions have been carried out, with new ids `ids`.

  ghost predicate Clean(w: World) {
    forall k :: 0 <= k < |w.rows| ==> !w.rows[k].status.FAILED? && !w.rows[k].status.SKIPPED?
  }

  ghost function ResourcesAt(e: Event, ids: seq<Id>, k: nat): Resources
    requires k <= |ids| <= |e.actions|
  {
    ResourcesAfter(e.actions[..k], ids[..k], e.resources)
  }

  /** One commit per write, in the order of the plan. */
  ghost function InOrder(actions: seq<Body>, ids: seq<Id>): seq<Commit>
    requires |ids| == |actions|
  {
    var n := |actions|;
    if n == 0 then []
    else
      InOrder(actions[..n - 1], ids[..n - 1])
      + (if actions[n - 1].MutatesAgenda() then [Commit(n - 1, ids[n - 1])] else [])
  }

  ghost predicate Progress(e: Event, agenda: Agenda, ids: seq<Id>) {
    && |ids| <= |e.actions|
    && PerformAll(e.actions[..|ids|], Effect(e.agenda, e.resources), e.catalogue, ids)
       == Some(Effect(agenda, ResourcesAt(e, ids, |ids|)))
  }

  ghost predicate OutcomeFits(body: Body, newId: Id, outcome: Outcome) {
    outcome.itemId == ItemOf(body, newId) && (body.CleanupNoop? ==> outcome.seen == None)
  }

  ghost predicate RowFits(e: Event, w: World, ids: seq<Id>, j: nat)
    requires j < |w.rows| == |e.actions|
  {
    && (j >= |ids| ==> w.rows[j].status.PLANNED?)
    && (j + 1 < |ids| ==> w.rows[j].status.VERIFIED?)
    && (j < |ids| && !w.rows[j].status.PLANNED? ==>
          w.rows[j].outcome.Some? && OutcomeFits(e.actions[j], ids[j], w.rows[j].outcome.value))
    && (j < |ids| && w.rows[j].status.PLANNED? && e.actions[j].MutatesAgenda() ==>
          Unrecorded(e, w) == Some(j) || AllCleanup(e.actions[..j]))
  }

  /** The fingerprint the worker expects when it takes up action k. */
  ghost predicate ExpectedFits(e: Event, w: World, v: Worker, k: nat)
    requires k <= |e.actions|
  {
    v.expected == if AllCleanup(e.actions[..k]) then e.agenda else w.agenda
  }

  ghost predicate PassedFits(e: Event, w: World, v: Worker, ids: seq<Id>, k: nat, from: nat) {
    && k <= |ids| <= |e.actions| == |w.rows| == |v.prior|
    && (forall j :: 0 <= j < k ==> w.rows[j].status.VERIFIED?)
    && (forall j :: from <= j < |v.prior| ==> v.prior[j] == w.rows[j])
    && v.resources == ResourcesAt(e, ids, k)
  }

  ghost predicate WorkerFits(e: Event, w: World, v: Worker, ids: seq<Id>) {
    match v.phase
    case Turn(k) => PassedFits(e, w, v, ids, k, k) && ExpectedFits(e, w, v, k)
    case Calling(k) =>
      && k < |e.actions| && PassedFits(e, w, v, ids, k, k + 1) && w.rows[k].status.PLANNED?
      && (e.actions[k].MutatesAgenda() ==> k == |ids|)
      && (e.actions[k].CleanupNoop? ==> ExpectedFits(e, w, v, k))
    case Called(k, outcome) =>
      && PassedFits(e, w, v, ids, k, k + 1) && k + 1 == |ids| && OutcomeFits(e.actions[k], ids[k], outcome)
      && (e.actions[k].CleanupNoop? ==> ExpectedFits(e, w, v, k))
    case Raised(k, _) => true
    case Verifying(k, outcome) =>
      && k < |ids| && PassedFits(e, w, v, ids, k, k + 1) && !w.rows[k].status.PLANNED?
      && OutcomeFits(e.actions[k], ids[k], outcome)
      && (e.actions[k].CleanupNoop? ==> ExpectedFits(e, w, v, k))
    case Closing(k, outcome) =>
      && k < |ids| && PassedFits(e, w, v, ids, k, k + 1) && w.rows[k].status.VERIFIED?
      && outcome.itemId == ItemOf(e.actions[k], ids[k])
      && (e.actions[k].CleanupNoop? ==> outcome.seen == None && ExpectedFits(e, w, v, k))
      && (!e.actions[k].CleanupNoop? ==> outcome.seen == Some(w.agenda))
    case Skipping(_) => true
    case Finished(_) => true
  }

  ghost predicate Exact(e: Event, w: World, ids: seq<Id>) {
    && Sane(e, w) && Progress(e, w.agenda, ids) && w.commits == InOrder(e.actions[..|ids|], ids)
    && (forall j :: 0 <= j < |e.actions| ==> RowFits(e, w, ids, j))
    && (w.worker.Some? ==> WorkerFits(e, w, w.worker.value, ids))
  }

  // One step.

  lemma StepSane(e: Event, w: World, input: Input)
    requires e.Valid() && Sane(e, w)
    ensures Sane(e, Step(e, w, input))
  {
    StepShaped(e, w, input);
    forall k | 0 <= k < |e.actions| ensures Accounted(e, Step(e, w, input), k) {
      StepAccounted(e, w, input, k);
    }
  }

  /** Each new id was new to the plan and to the agenda it was inserted into. */
  ghost predicate NewTo(e: Event, ids: seq<Id>) {
    && |ids| <= |e.actions|
    && forall j :: 0 <= j < |ids| && e.actions[j].InsertItem? ==> NewAt(e, ids, j)
  }

  ghost predicate NewAt(e: Event, ids: seq<Id>, j: nat)
    requires j < |ids| <= |e.actions|
  {
    var before := PerformAll(e.actions[..j], Effect(e.agenda, e.resources), e.catalogue, ids[..j]);
    && (e.actions[j].InsertItem? ==> ids[j] !in e.actions[j].initialIds)
    && (before.Some? ==> Absent(before.value.items, ids[j]))
  }

  lemma {:induction false} CleanupChangesNothing(e: Event, ids: seq<Id>, k: nat)
    requires k <= |ids| <= |e.actions| && AllCleanup(e.actions[..k])
    ensures PerformAll(e.actions[..k], Effect(e.agenda, e.resources), e.catalogue, ids[..k])
            == Some(Effect(e.agenda, e.resources))
    ensures ResourcesAt(e, ids, k) == e.resources
  {
    if k > 0 {
      assert e.actions[..k][..k - 1] == e.actions[..k - 1] && ids[..k][..k - 1] == ids[..k - 1];
      CleanupChangesNothing(e, ids, k - 1);
      assert e.actions[..k][k - 1].CleanupNoop?;
    }
  }

  /** The first write of an event is performed on the agenda it was planned on. */
  lemma FirstWriteIs(e: Event, ids: seq<Id>, k: nat)
    requires |ids| == k + 1 <= |e.actions| && AllCleanup(e.actions[..k])
    ensures PerformAll(e.actions[..k + 1], Effect(e.agenda, e.resources), e.catalogue, ids)
            == Perform(e.actions[k], Effect(e.agenda, e.resources), e.catalogue, ids[k])
  {
    CleanupChangesNothing(e, ids, k);
    assert e.actions[..k + 1][..k] == e.actions[..k];
  }

  /** The fingerprint differs only where the event's first write was committed by a
      worker that died: then it is recognized, with the id it got. */
  lemma MismatchIsOwnWrite(e: Event, w: World, ids: seq<Id>, k: nat)
    requires WellStarted(e) && Exact(e, w, ids) && NewTo(e, ids)
    requires w.worker.Some? && w.worker.value.phase == Turn(k) && k < |e.actions|
    requires e.actions[k].MutatesAgenda() && w.rows[k].status.PLANNED? && w.agenda != w.worker.value.expected
    requires !Missing(e.dependencies[k], w.worker.value.resources)
    ensures AllCleanup(e.actions[..k]) && |ids| == k + 1
    ensures Recognize(e.actions[k], w.agenda, w.worker.value.resources)
            == Some(Outcome(ItemOf(e.actions[k], ids[k]), Some(w.agenda)))
  {
    var body, v := e.actions[k], w.worker.value;
    assert AllCleanup(e.actions[..k]);
    CleanupChangesNothing(e, ids, k);
    assert ids[..|ids|] == ids;
    assert RowFits(e, w, ids, k);
    FirstWriteIs(e, ids, k);
    assert NewAt(e, ids, k) || !body.InsertItem?;
    WriteIsRecognized(body, Effect(e.agenda, e.resources), e.catalogue, ids[k]);
  }

  /** Where the fingerprint matches and the row is PLANNED, the write has not been made. */
  lemma MatchMeansUnwritten(e: Event, w: World, ids: seq<Id>, k: nat)
    requires WellStarted(e) && Exact(e, w, ids)
    requires w.worker.Some? && w.worker.value.phase == Turn(k) && k < |e.actions|
    requires e.actions[k].MutatesAgenda() && w.rows[k].status.PLANNED? && w.agenda == w.worker.value.expected
    ensures |ids| == k
  {
    assert RowFits(e, w, ids, k);
    if |ids| == k + 1 {
      assert AllCleanup(e.actions[..k]);
      FirstWriteIs(e, ids, k);
      CleanupChangesNothing(e, ids, k);
    }
  }

  /** What every step keeps while no action has failed. */
  ghost predicate Kept(e: Event, w: World, ids: seq<Id>) {
    Clean(w) ==> Exact(e, w, ids) && NewTo(e, ids)
  }

  /** Rows that only moved on, at most one of them, still fit. */
  lemma RowsStillFit(e: Event, w: World, w': World, ids: seq<Id>, k: nat)
    requires Shaped(e, w) && Shaped(e, w') && k < |e.actions| && |ids| <= |e.actions|
    requires forall j :: 0 <= j < |e.actions| ==> RowFits(e, w, ids, j)
    requires forall j :: 0 <= j < |e.actions| && j != k ==> w'.rows[j] == w.rows[j]
    requires RowFits(e, w', ids, k)
    requires forall j :: 0 <= j < |e.actions| && j != k ==> Unrecorded(e, w) != Some(j)
    ensures forall j :: 0 <= j < |e.actions| ==> RowFits(e, w', ids, j)
  {
    forall j | 0 <= j < |e.actions| ensures RowFits(e, w', ids, j) {
      assert RowFits(e, w, ids, j);
    }
  }

  lemma StopKeeps(e: Event, w: World, v: Worker, ids: seq<Id>, phase: Phase)
    requires e.Valid() && Exact(e, w, ids) && NewTo(e, ids) && w.worker == Some(v) && Unrecorded(e, w) == None
    requires phase.Finished? || phase.Skipping? || (phase.Raised? && !phase.called)
    requires Sane(e, To(w, v, phase))
    ensures Kept(e, To(w, v, phase), ids)
  {
    var w' := To(w, v, phase);
    forall j | 0 <= j < |e.actions| ensures RowFits(e, w', ids, j) {
      assert RowFits(e, w, ids, j);
    }
  }

  lemma FailKeeps(e: Event, w: World, v: Worker, ids: seq<Id>, k: nat, status: Status)
    requires e.Valid() && Exact(e, w, ids) && NewTo(e, ids) && w.worker == Some(v) && k < |e.actions|
    requires status.FAILED? || status.SKIPPED?
    requires v.phase.Turn? || v.phase.Raised? || v.phase.Skipping?
    requires v.phase.Raised? ==> v.phase.k == k
    requires Sane(e, To(SetRow(w, k, status, None), v, Skipping(k + 1)))
    ensures Kept(e, To(SetRow(w, k, status, None), v, Skipping(k + 1)), ids)
  {
    var w' := To(SetRow(w, k, status, None), v, Skipping(k + 1));
    if Clean(w') {
      assert !w'.rows[k].status.FAILED? && !w'.rows[k].status.SKIPPED?;
      assert w'.rows[k] == w.rows[k];
      forall j | 0 <= j < |e.actions| ensures RowFits(e, w', ids, j) {
        assert RowFits(e, w, ids, j);
      }
    }
  }

  /** A worker takes up action k. */
  lemma TurnKeeps(e: Event, w: World, v: Worker, ids: seq<Id>, k: nat, trouble: Trouble)
    requires WellStarted(e) && Exact(e, w, ids) && NewTo(e, ids) && Clean(w)
    requires w.worker == Some(v) && v.phase == Turn(k) && k < |e.actions|
    requires Sane(e, TakeUp(e, w, v, k, trouble))
    ensures Kept(e, TakeUp(e, w, v, k, trouble), ids)
  {
    var body, row := e.actions[k], v.prior[k];
    var w' := TakeUp(e, w, v, k, trouble);
    assert row == w.rows[k];
    assert RowFits(e, w, ids, k);
    if trouble.Canceled? {
      StopKeeps(e, w, v, ids, Finished(false));
    } else if trouble.LeaseLost? {
      FailKeeps(e, w, v, ids, k, FAILED);
    } else if Missing(e.dependencies[k], v.resources) {
      FailKeeps(e, w, v, ids, k, SKIPPED);
    } else if row.status.PLANNED? {
      PlannedTurnKeeps(e, w, v, ids, k);
    } else {
      assert w' == To(w, v, Verifying(k, row.outcome.value));
      forall j | 0 <= j < |e.actions| ensures RowFits(e, w', ids, j) {
        assert RowFits(e, w, ids, j);
      }
    }
  }

  lemma PlannedTurnKeeps(e: Event, w: World, v: Worker, ids: seq<Id>, k: nat)
    requires WellStarted(e) && Exact(e, w, ids) && NewTo(e, ids) && Clean(w)
    requires w.worker == Some(v) && v.phase == Turn(k) && k < |e.actions| && w.rows[k].status.PLANNED?
    requires !Missing(e.dependencies[k], v.resources)
    requires Sane(e, TakeUp(e, w, v, k, Fine))
    ensures Kept(e, TakeUp(e, w, v, k, Fine), ids)
  {
    var body := e.actions[k];
    var w' := TakeUp(e, w, v, k, Fine);
    assert v.prior[k] == w.rows[k];
    assert RowFits(e, w, ids, k);
    if body.MutatesAgenda() && w.agenda != v.expected {
      MismatchIsOwnWrite(e, w, ids, k);
      assert RowFits(e, w', ids, k);
      RowsStillFit(e, w, w', ids, k);
    } else {
      if body.MutatesAgenda() {
        MatchMeansUnwritten(e, w, ids, k);
      }
      forall j | 0 <= j < |e.actions| ensures RowFits(e, w', ids, j) {
        assert RowFits(e, w, ids, j);
      }
    }
  }

  /** One more action carried out. */
  lemma ProgressGrows(e: Event, agenda: Agenda, ids: seq<Id>, newId: Id)
    requires Progress(e, agenda, ids) && NewTo(e, ids) && |ids| < |e.actions|
    requires Absent(agenda, newId)
    requires e.actions[|ids|].InsertItem? ==> newId !in e.actions[|ids|].initialIds
    requires Perform(e.actions[|ids|], Effect(agenda, ResourcesAt(e, ids, |ids|)), e.catalogue, newId).Some?
    ensures var done := Perform(e.actions[|ids|], Effect(agenda, ResourcesAt(e, ids, |ids|)), e.catalogue, newId).value;
            Progress(e, done.items, ids + [newId])
    ensures NewTo(e, ids + [newId])
  {
    var k, longer := |ids|, ids + [newId];
    assert e.actions[..k + 1][..k] == e.actions[..k] && longer[..k] == ids && ids[..k] == ids && longer[..k + 1] == longer;
    forall j | 0 <= j < |longer| && e.actions[j].InsertItem? ensures NewAt(e, longer, j) {
      assert longer[..j] == ids[..j];
      if j < k {
        assert NewAt(e, ids, j);
      }
    }
  }

  lemma InOrderGrows(e: Event, ids: seq<Id>, newId: Id)
    requires |ids| < |e.actions|
    ensures InOrder(e.actions[..|ids| + 1], ids + [newId])
            == InOrder(e.actions[..|ids|], ids)
               + (if e.actions[|ids|].MutatesAgenda() then [Commit(|ids|, newId)] else [])
  {
    assert e.actions[..|ids| + 1][..|ids|] == e.actions[..|ids|] && (ids + [newId])[..|ids|] == ids;
  }

  lemma ResourcesStay(e: Event, ids: seq<Id>, newId: Id, k: nat)
    requires k <= |ids| < |e.actions|
    ensures ResourcesAt(e, ids + [newId], k) == ResourcesAt(e, ids, k)
  {
    assert (ids + [newId])[..k] == ids[..k];
  }

  lemma RowsFitLonger(e: Event, w: World, w': World, ids: seq<Id>, newId: Id)
    requires Shaped(e, w) && Shaped(e, w') && |ids| < |e.actions|
    requires w'.rows == w.rows && w.rows[|ids|].status.PLANNED?
    requires forall j :: 0 <= j < |e.actions| ==> RowFits(e, w, ids, j)
    requires forall j :: 0 <= j < |ids| ==> w.rows[j].status.VERIFIED?
    requires e.actions[|ids|].MutatesAgenda() ==> Unrecorded(e, w') == Some(|ids|)
    ensures forall j :: 0 <= j < |e.actions| ==> RowFits(e, w', ids + [newId], j)
  {
    var longer := ids + [newId];
    forall j | 0 <= j < |e.actions| ensures RowFits(e, w', longer, j) {
      assert RowFits(e, w, ids, j);
      assert j < |ids| ==> longer[j] == ids[j];
    }
  }

  /** The provider call (or none, for a NOOP). */
  lemma CallKeeps(e: Event, w: World, v: Worker, ids: seq<Id>, k: nat, answer: Answer, newId: Id)
    returns (longer: seq<Id>)
    requires e.Valid() && Exact(e, w, ids) && NewTo(e, ids) && Clean(w)
    requires w.worker == Some(v) && v.phase == Calling(k) && k < |e.actions|
    requires Peaceful(e, w, Advance(Fine, answer, newId))
    requires Sane(e, Call(e, w, v, k, answer, newId))
    ensures Kept(e, Call(e, w, v, k, answer, newId), longer) && (longer == ids || longer == ids + [newId])
  {
    var body := e.actions[k];
    var w' := Call(e, w, v, k, answer, newId);
    assert RowFits(e, w, ids, k);
    if |ids| > k {
      longer := ids;
      forall j | 0 <= j < |e.actions| ensures RowFits(e, w', ids, j) {
        assert RowFits(e, w, ids, j);
      }
    } else {
      CallGrows(e, w, v, ids, k, answer, newId);
      longer := if w'.worker.value.phase.Called? || w'.commits != w.commits then ids + [newId] else ids;
    }
  }

  lemma CallGrows(e: Event, w: World, v: Worker, ids: seq<Id>, k: nat, answer: Answer, newId: Id)
    requires e.Valid() && Exact(e, w, ids) && NewTo(e, ids) && Clean(w)
    requires w.worker == Some(v) && v.phase == Calling(k) && k == |ids| < |e.actions|
    requires Peaceful(e, w, Advance(Fine, answer, newId))
    requires Sane(e, Call(e, w, v, k, answer, newId))
    ensures var w' := Call(e, w, v, k, answer, newId);
            Kept(e, w', if w'.worker.value.phase.Called? || w'.commits != w.commits then ids + [newId] else ids)
  {
    var body := e.actions[k];
    var w' := Call(e, w, v, k, answer, newId);
    var on := Effect(w.agenda, v.resources);
    var done := Perform(body, on, e.catalogue, newId);
    assert ids[..|ids|] == ids;
    if w'.worker.value.phase.Called? || w'.commits != w.commits {
      assert done.Some?;
      ProgressGrows(e, w.agenda, ids, newId);
      InOrderGrows(e, ids, newId);
      ResourcesStay(e, ids, newId, k);
      RowsFitLonger(e, w, w', ids, newId);
    } else {
      forall j | 0 <= j < |e.actions| ensures RowFits(e, w', ids, j) {
        assert RowFits(e, w, ids, j);
      }
    }
  }

  /** Recording the provider's answer. */
  lemma RecordKeeps(e: Event, w: World, v: Worker, ids: seq<Id>, k: nat, outcome: Outcome)
    requires e.Valid() && Exact(e, w, ids) && NewTo(e, ids)
    requires w.worker == Some(v) && v.phase == Called(k, outcome) && k < |e.actions|
    requires Sane(e, To(SetRow(w, k, APPLIED, Some(outcome)), v, Verifying(k, outcome)))
    ensures Kept(e, To(SetRow(w, k, APPLIED, Some(outcome)), v, Verifying(k, outcome)), ids)
  {
    var w' := To(SetRow(w, k, APPLIED, Some(outcome)), v, Verifying(k, outcome));
    assert RowFits(e, w, ids, k);
    assert RowFits(e, w', ids, k);
    RowsStillFit(e, w, w', ids, k);
  }

  /** A lost lease after the call: the answer is not recorded, the row will be FAILED. */
  lemma CallLostKeeps(e: Event, w: World, v: Worker, ids: seq<Id>, k: nat, outcome: Outcome)
    requires e.Valid() && Exact(e, w, ids) && NewTo(e, ids)
    requires w.worker == Some(v) && v.phase == Called(k, outcome) && k < |e.actions|
    requires Sane(e, To(w, v, Raised(k, true)))
    ensures Kept(e, To(w, v, Raised(k, true)), ids)
  {
    var w' := To(w, v, Raised(k, true));
    forall j | 0 <= j < |e.actions| ensures RowFits(e, w', ids, j) {
      assert RowFits(e, w, ids, j);
    }
  }

  lemma VerifyKeeps(e: Event, w: World, v: Worker, ids: seq<Id>, k: nat, outcome: Outcome, verified: Outcome)
    requires e.Valid() && Exact(e, w, ids) && NewTo(e, ids)
    requires w.worker == Some(v) && v.phase == Verifying(k, outcome) && k < |e.actions|
    requires Verify(e.actions[k], w.agenda, v.resources, outcome) == Some(verified)
    requires Sane(e, To(SetRow(w, k, VERIFIED, Some(verified)), v, Closing(k, verified)))
    ensures Kept(e, To(SetRow(w, k, VERIFIED, Some(verified)), v, Closing(k, verified)), ids)
  {
    var w' := To(SetRow(w, k, VERIFIED, Some(verified)), v, Closing(k, verified));
    assert RowFits(e, w, ids, k);
    if Clean(w') {
      assert !w'.rows[k].status.FAILED? && !w'.rows[k].status.SKIPPED?;
      assert RowFits(e, w', ids, k);
      RowsStillFit(e, w, w', ids, k);
    }
  }

  lemma AllCleanupNext(actions: seq<Body>, k: nat)
    requires k < |actions|
    ensures AllCleanup(actions[..k + 1]) <==> AllCleanup(actions[..k]) && actions[k].CleanupNoop?
  {
    assert actions[..k + 1] == actions[..k] + [actions[k]];
  }

  lemma ResourcesNext(e: Event, ids: seq<Id>, k: nat)
    requires k < |ids| <= |e.actions|
    ensures ResourcesAt(e, ids, k + 1)
            == if e.actions[k].InsertItem? then ResourcesAt(e, ids, k)[e.actions[k].resourceKey := ids[k]]
               else ResourcesAt(e, ids, k)
  {
    assert e.actions[..k + 1][..k] == e.actions[..k] && ids[..k + 1][..k] == ids[..k];
  }

  /** On to the next action, with the fingerprint just read. */
  lemma CloseKeeps(e: Event, w: World, v: Worker, ids: seq<Id>, k: nat, outcome: Outcome)
    requires e.Valid() && Exact(e, w, ids) && NewTo(e, ids)
    requires w.worker == Some(v) && v.phase == Closing(k, outcome) && k < |e.actions|
    requires Sane(e, Work(e, w, v, Fine, Commits, ""))
    ensures Kept(e, Work(e, w, v, Fine, Commits, ""), ids)
  {
    var w' := Work(e, w, v, Fine, Commits, "");
    AllCleanupNext(e.actions, k);
    ResourcesNext(e, ids, k);
    forall j | 0 <= j < |e.actions| ensures RowFits(e, w', ids, j) {
      assert RowFits(e, w, ids, j);
    }
  }

  lemma BeginKeeps(e: Event, w: World, ids: seq<Id>)
    requires e.Valid() && Exact(e, w, ids) && NewTo(e, ids) && w.worker.None? && Sane(e, Step(e, w, Begin))
    ensures Kept(e, Step(e, w, Begin), ids)
  {
    var w' := Step(e, w, Begin);
    assert e.actions[..0] == [] && ids[..0] == [];
    forall j | 0 <= j < |e.actions| ensures RowFits(e, w', ids, j) {
      assert RowFits(e, w, ids, j);
    }
  }

  /** Deaths between a write and its row happened only for the event's first write. */
  ghost predicate DeathsAtFirst(e: Event, w: World) {
    forall k :: 0 <= k < |w.deaths| && k < |e.actions| && w.deaths[k] > 0 ==> AllCleanup(e.actions[..k])
  }

  lemma DieKeeps(e: Event, w: World, ids: seq<Id>)
    requires e.Valid() && Exact(e, w, ids) && NewTo(e, ids) && Sane(e, Dead(e, w)) && DeathsAtFirst(e, Dead(e, w))
    ensures Kept(e, Dead(e, w), ids)
  {
    var w' := Dead(e, w);
    forall j | 0 <= j < |e.actions| ensures RowFits(e, w', ids, j) {
      assert RowFits(e, w, ids, j);
      if Unrecorded(e, w) == Some(j) {
        assert w'.deaths[j] > 0;
      }
    }
  }

  lemma SkipKeeps(e: Event, w: World, v: Worker, ids: seq<Id>, k: nat)
    requires e.Valid() && Exact(e, w, ids) && NewTo(e, ids) && w.worker == Some(v) && v.phase == Skipping(k)
    requires Sane(e, Work(e, w, v, Fine, Commits, ""))
    ensures Kept(e, Work(e, w, v, Fine, Commits, ""), ids)
  {
    if k >= |e.actions| {
      StopKeeps(e, w, v, ids, Finished(false));
    } else {
      FailKeeps(e, w, v, ids, k, SKIPPED);
    }
  }

  /** After the call: record the answer, verify it, adopt what was read. */
  lemma AnswerKeeps(e: Event, w: World, v: Worker, ids: seq<Id>, trouble: Trouble, answer: Answer, newId: Id)
    requires WellStarted(e) && Exact(e, w, ids) && NewTo(e, ids) && Clean(w) && w.worker == Some(v)
    requires Peaceful(e, w, Advance(trouble, answer, newId))
    requires Sane(e, Work(e, w, v, trouble, answer, newId))
    requires v.phase.Called? || v.phase.Verifying? || v.phase.Closing?
    ensures Kept(e, Work(e, w, v, trouble, answer, newId), ids)
  {
    var k, outcome := v.phase.k, v.phase.outcome;
    if v.phase.Called? {
      if trouble.Fine? {
        RecordKeeps(e, w, v, ids, k, outcome);
      } else {
        CallLostKeeps(e, w, v, ids, k, outcome);
      }
    } else if v.phase.Verifying? {
      var verified := Verify(e.actions[k], w.agenda, v.resources, outcome);
      if verified.None? || !trouble.Fine? {
        StopKeeps(e, w, v, ids, Raised(k, false));
      } else {
        VerifyKeeps(e, w, v, ids, k, outcome, verified.value);
      }
    } else if trouble.Fine? {
      CloseKeeps(e, w, v, ids, k, outcome);
    } else {
      StopKeeps(e, w, v, ids, Raised(k, false));
    }
  }

  lemma AdvanceKeeps(e: Event, w: World, v: Worker, ids: seq<Id>, trouble: Trouble, answer: Answer, newId: Id)
    returns (longer: seq<Id>)
    requires WellStarted(e) && Exact(e, w, ids) && NewTo(e, ids) && Clean(w) && w.worker == Some(v)
    requires Peaceful(e, w, Advance(trouble, answer, newId))
    requires Sane(e, Work(e, w, v, trouble, answer, newId))
    ensures Kept(e, Work(e, w, v, trouble, answer, newId), longer) && (longer == ids || longer == ids + [newId])
  {
    longer := ids;
    match v.phase {
      case Turn(k) =>
        if k >= |e.actions| {
          StopKeeps(e, w, v, ids, Finished(true));
        } else {
          TurnKeeps(e, w, v, ids, k, trouble);
        }
      case Calling(k) => longer := CallKeeps(e, w, v, ids, k, answer, newId);
      case Raised(k, called) => FailKeeps(e, w, v, ids, k, FAILED);
      case Skipping(k) => SkipKeeps(e, w, v, ids, k);
      case Finished(_) =>
      case _ => AnswerKeeps(e, w, v, ids, trouble, answer, newId);
    }
  }

  lemma StepKeeps(e: Event, w: World, input: Input, ids: seq<Id>) returns (longer: seq<Id>)
    requires WellStarted(e) && Exact(e, w, ids) && NewTo(e, ids) && Clean(w)
    requires Peaceful(e, w, input) && DeathsAtFirst(e, Step(e, w, input))
    ensures Kept(e, Step(e, w, input), longer)
    ensures longer == ids || (input.Advance? && longer == ids + [input.newId])
  {
    StepSane(e, w, input);
    longer := ids;
    match input {
      case Begin =>
        if w.worker.None? {
          BeginKeeps(e, w, ids);
        }
      case Die => DieKeeps(e, w, ids);
      case Edit(_) =>
      case Advance(trouble, answer, newId) =>
        if w.worker.Some? {
          longer := AdvanceKeeps(e, w, w.worker.value, ids, trouble, answer, newId);
        }
    }
  }

  lemma StartKeeps(e: Event)
    requires e.Valid()
    ensures Kept(e, Started(e), [])
  {
    RunSane(e, []);
    assert e.actions[..0] == [];
  }

  /** Rows and deaths only grow, so what holds at the end held before. */
  lemma EarlierToo(e: Event, w: World, input: Input)
    requires e.Valid() && Sane(e, w)
    ensures Clean(Step(e, w, input)) ==> Clean(w)
    ensures DeathsAtFirst(e, Step(e, w, input)) ==> DeathsAtFirst(e, w)
  {
    var w' := Step(e, w, input);
    StepShaped(e, w, input);
    forall k | 0 <= k < |w.rows| ensures w.rows[k].status.Final() ==> w'.rows[k] == w.rows[k] {
      LeavesPlannedForGood(e, w, input, k);
    }
    if Clean(w') {
      forall k | 0 <= k < |w.rows| ensures !w.rows[k].status.FAILED? && !w.rows[k].status.SKIPPED? {
        assert !w'.rows[k].status.FAILED? && !w'.rows[k].status.SKIPPED?;
      }
    }
    if DeathsAtFirst(e, w') {
      forall k | 0 <= k < |e.actions| && w.deaths[k] > 0 ensures AllCleanup(e.actions[..k]) {
        assert w'.deaths[k] > 0;
      }
    }
  }

  lemma PeacefulSoFar(e: Event, inputs: seq<Input>)
    requires e.Valid() && PeacefulRun(e, inputs) && inputs != []
    ensures PeacefulRun(e, inputs[..|inputs| - 1])
    ensures Peaceful(e, Run(e, inputs[..|inputs| - 1]), inputs[|inputs| - 1])
  {
    var earlier := inputs[..|inputs| - 1];
    forall m | 0 <= m < |earlier| ensures Peaceful(e, Run(e, earlier[..m]), earlier[m]) {
      assert earlier[..m] == inputs[..m];
    }
  }

  lemma {:induction false} RunKeeps(e: Event, inputs: seq<Input>) returns (ids: seq<Id>)
    requires WellStarted(e) && PeacefulRun(e, inputs) && DeathsAtFirst(e, Run(e, inputs))
    ensures Kept(e, Run(e, inputs), ids) && Given(e, inputs, ids)
  {
    hide Step, Clean, Exact, NewTo, Gives, DeathsAtFirst, NeverTwice, FirstWriteShows;
    if inputs == [] {
      ids := [];
      StartKeeps(e);
    } else {
      var n := |inputs| - 1;
      var earlier, input := inputs[..n], inputs[n];
      var w := Run(e, earlier);
      PeacefulSoFar(e, inputs);
      RunSane(e, earlier);
      EarlierToo(e, w, input);
      var before := RunKeeps(e, earlier);
      ids := before;
      if Clean(w) {
        ids := StepKeeps(e, w, input, before);
      }
      assert inputs == earlier + [input];
      if ids == before {
        GivenStays(e, earlier, input, before);
      } else {
        GivenGrows(e, earlier, input, before);
      }
    }
  }

  lemma RestIsPlanned(e: Event, w: World, ids: seq<Id>)
    requires Exact(e, w, ids)
    ensures |ids| < |e.actions| ==> w.rows[|ids|].status.PLANNED?
  {
    if |ids| < |e.actions| {
      assert RowFits(e, w, ids, |ids|);
    }
  }

  ghost predicate AllVerified(e: Event, w: World)
    requires e.Valid()
  {
    Shaped(e, w) && forall k :: 0 <= k < |e.actions| ==> w.rows[k].status.VERIFIED?
  }

  /** All actions verified means the plan was carried out: through any number of
      deaths and restarts, the agenda is exactly the one that performing every action
      once, in order, leaves. */
  lemma VerifiedMeansCarriedOut(e: Event, inputs: seq<Input>) returns (ids: seq<Id>)
    requires WellStarted(e) && PeacefulRun(e, inputs) && DeathsAtFirst(e, Run(e, inputs))
    requires AllVerified(e, Run(e, inputs))
    ensures |ids| == |e.actions| && Fresh(ids, e.agenda) && Run(e, inputs).commits == InOrder(e.actions, ids)
    ensures PerformAll(e.actions, Effect(e.agenda, e.resources), e.catalogue, ids)
            == Some(Effect(Run(e, inputs).agenda, ResourcesAfter(e.actions, ids, e.resources)))
  {
    var w := Run(e, inputs);
    RunSane(e, inputs);
    ids := RunKeeps(e, inputs);
    RestIsPlanned(e, w, ids);
    assert e.actions[..|ids|] == e.actions && ids[..|ids|] == ids;
  }
}
