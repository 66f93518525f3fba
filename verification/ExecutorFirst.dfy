/** The first write of an event is committed at most once, in every run without foreign
    edits: whatever dies, is lost or is canceled on the way. */
module ExecutorFirst {
  import opened Prelude
  import opened Agendas
  import opened Actions
  import opened Reconcile
  import opened Executor
  import opened ExecutorWrites
  import opened ExecutorExact

  predicate NoEdits(inputs: seq<Input>) {
    forall n :: 0 <= n < |inputs| ==> !inputs[n].Edit?
  }

  /** No two commits are for action k. */
  predicate Once(commits: seq<Commit>, k: nat) {
    forall i, j :: 0 <= i < j < |commits| ==> !(commits[i].k == k && commits[j].k == k)
  }

  /** Action k is the first of its event that writes. */
  ghost predicate FirstToWrite(e: Event, k: nat) {
    k < |e.actions| && e.actions[k].MutatesAgenda() && AllCleanup(e.actions[..k])
  }

  // A cleanup NOOP never reads the agenda, so it never learns a fingerprint.

  predicate Quiet(row: Row) { row.outcome.Some? ==> row.outcome.value.seen.None? }

  ghost predicate QuietUpTo(rows: seq<Row>, k: nat) {
    k <= |rows| && forall j :: 0 <= j < k ==> Quiet(rows[j])
  }

  /** A worker that has not got past action k. */
  ghost predicate Fits(e: Event, w: World, v: Worker, k: nat)
    requires k < |w.rows|
  {
    && |v.prior| == |w.rows| && QuietUpTo(v.prior, k) && v.prior[k].status.PLANNED?
    && match v.phase
       case Turn(j) => j <= k && Unmoved(e, v)
       case Calling(j) => j <= k && Unmoved(e, v) && (j == k ==> w.agenda == e.agenda)
       case Called(j, outcome) => j <= k && Unmoved(e, v) && outcome.seen.None?
       case Raised(j, _) => j <= k
       case Verifying(j, outcome) => j < k && Unmoved(e, v) && outcome.seen.None?
       case Closing(j, outcome) => j < k && Unmoved(e, v) && outcome.seen.None?
       case Skipping(j) => j <= k
       case Finished(_) => true
  }

  /** Its memory is still what it started with. */
  ghost predicate Unmoved(e: Event, v: Worker) {
    v.expected == e.agenda && v.resources == e.resources
  }

  /** The agenda is the one that action k makes of the planned one. */
  ghost predicate Written(e: Event, w: World, k: nat, commit: Commit)
    requires k < |e.actions|
  {
    var done := Perform(e.actions[k], Effect(e.agenda, e.resources), e.catalogue, commit.newId);
    commit.k == k && done.Some? && w.agenda == done.value.items
  }

  /** As long as row k is PLANNED: nothing has been committed and the agenda is the
      planned one, or only action k has been and the agenda is another. */
  ghost predicate Pending(e: Event, w: World, k: nat) {
    && Shaped(e, w) && k < |e.actions| && w.rows[k].status.PLANNED? && QuietUpTo(w.rows, k)
    && (w.commits == [] ==> w.agenda == e.agenda)
    && (w.commits != [] ==> |w.commits| == 1 && Written(e, w, k, w.commits[0]) && w.agenda != e.agenda)
    && (w.worker.Some? ==> Fits(e, w, w.worker.value, k))
  }

  ghost predicate Held(e: Event, w: World, k: nat) {
    && Shaped(e, w) && k < |e.actions| && Once(w.commits, k)
    && (w.rows[k].status.PLANNED? ==> Pending(e, w, k))
  }

  // One step.

  /** The cleanup actions before the first write. */
  lemma CleanupTurn(e: Event, w: World, v: Worker, k: nat, trouble: Trouble, answer: Answer, newId: Id)
    requires e.Valid() && FirstToWrite(e, k) && Pending(e, w, k) && w.worker == Some(v)
    requires v.phase.Turn? || v.phase.Calling? || v.phase.Called? || v.phase.Verifying? || v.phase.Closing?
    requires v.phase.k < k
    ensures Pending(e, Work(e, w, v, trouble, answer, newId), k)
  {
    hide Perform, Recognize, Missing;
    assert e.actions[..k][v.phase.k].CleanupNoop?;
  }

  lemma OtherTurn(e: Event, w: World, v: Worker, k: nat, trouble: Trouble, answer: Answer, newId: Id)
    requires e.Valid() && FirstToWrite(e, k) && Pending(e, w, k) && w.worker == Some(v)
    requires v.phase.Raised? || v.phase.Skipping? || v.phase.Finished?
    ensures Held(e, Work(e, w, v, trouble, answer, newId), k)
  {
    hide Perform, Recognize, Missing;
  }

  /** The first write itself. */
  lemma WriteTurn(e: Event, w: World, v: Worker, k: nat, trouble: Trouble, answer: Answer, newId: Id)
    requires WellStarted(e) && FirstToWrite(e, k) && Pending(e, w, k) && w.worker == Some(v)
    requires v.phase == Turn(k) || (v.phase.Called? && v.phase.k == k)
    ensures Held(e, Work(e, w, v, trouble, answer, newId), k)
  {
    hide Perform, Missing;
  }

  lemma WriteCall(e: Event, w: World, v: Worker, k: nat, trouble: Trouble, answer: Answer, newId: Id)
    requires WellStarted(e) && FirstToWrite(e, k) && Pending(e, w, k) && w.worker == Some(v)
    requires v.phase == Calling(k) && CallerIsEntitled(e, w)
    ensures Held(e, Work(e, w, v, trouble, answer, newId), k)
  {
    hide Perform;
    assert FirstWriteShows(e, e.actions[k]);
  }

  /** Once row k has left PLANNED nobody calls for action k. */
  lemma NothingMore(e: Event, w: World, input: Input, k: nat)
    requires e.Valid() && Sane(e, w) && Held(e, w, k) && !w.rows[k].status.PLANNED? && !input.Edit?
    ensures Shaped(e, Step(e, w, input)) && !Step(e, w, input).rows[k].status.PLANNED?
    ensures Once(Step(e, w, input).commits, k)
  {
    hide Perform, Recognize, Missing, Verify, Restore;
    LeavesPlannedForGood(e, w, input, k);
  }

  lemma StepHolds(e: Event, w: World, input: Input, k: nat)
    requires WellStarted(e) && FirstToWrite(e, k) && Sane(e, w) && Held(e, w, k) && !input.Edit?
    ensures Held(e, Step(e, w, input), k)
  {
    hide Work, Dead, Once, FirstWriteShows, Accounted, Perform;
    if !w.rows[k].status.PLANNED? {
      NothingMore(e, w, input, k);
    } else if input.Advance? && w.worker.Some? {
      AdvanceHolds(e, w, w.worker.value, input.trouble, input.answer, input.newId, k);
    } else {
      RestHolds(e, w, input, k);
    }
  }

  lemma RestHolds(e: Event, w: World, input: Input, k: nat)
    requires e.Valid() && Pending(e, w, k) && Once(w.commits, k)
    requires !input.Edit? && (input.Advance? ==> w.worker.None?)
    ensures Held(e, Step(e, w, input), k)
  {
    hide Work;
  }

  lemma AdvanceHolds(e: Event, w: World, v: Worker, trouble: Trouble, answer: Answer, newId: Id, k: nat)
    requires WellStarted(e) && FirstToWrite(e, k) && Sane(e, w) && Held(e, w, k)
    requires w.worker == Some(v) && w.rows[k].status.PLANNED?
    ensures Held(e, Step(e, w, Advance(trouble, answer, newId)), k)
  {
    hide Work, FirstWriteShows, AllCleanup, Once, Accounted;
    if v.phase.Raised? || v.phase.Skipping? || v.phase.Finished? {
      OtherTurn(e, w, v, k, trouble, answer, newId);
    } else if v.phase.k < k {
      CleanupTurn(e, w, v, k, trouble, answer, newId);
      SameCommits(e, w, v, k, trouble, answer, newId);
    } else if v.phase.Calling? {
      WriteCall(e, w, v, k, trouble, answer, newId);
    } else {
      WriteTurn(e, w, v, k, trouble, answer, newId);
    }
  }

  lemma SameCommits(e: Event, w: World, v: Worker, k: nat, trouble: Trouble, answer: Answer, newId: Id)
    requires e.Valid() && FirstToWrite(e, k) && Pending(e, w, k) && w.worker == Some(v) && Once(w.commits, k)
    requires v.phase.Turn? || v.phase.Calling? || v.phase.Called? || v.phase.Verifying? || v.phase.Closing?
    requires v.phase.k < k
    ensures Once(Work(e, w, v, trouble, answer, newId).commits, k)
  {
    assert e.actions[..k][v.phase.k].CleanupNoop?;
  }

  /** In every run without foreign edits -- with any deaths, restarts, lost leases,
      failures and cancellations -- the first write of an event is committed at most
      once. */
  lemma {:induction false} FirstWriteOnce(e: Event, inputs: seq<Input>, k: nat)
    requires WellStarted(e) && FirstToWrite(e, k) && NoEdits(inputs)
    ensures Once(Run(e, inputs).commits, k)
    ensures Held(e, Run(e, inputs), k)
  {
    hide Step, FirstWriteShows, AllCleanup;
    if inputs == [] {
      StartHolds(e, k);
    } else {
      var n := |inputs| - 1;
      FirstWriteOnce(e, inputs[..n], k);
      RunSane(e, inputs[..n]);
      StepHolds(e, Run(e, inputs[..n]), inputs[n], k);
    }
  }

  lemma StartHolds(e: Event, k: nat)
    requires e.Valid() && k < |e.actions|
    ensures Held(e, Started(e), k)
  {
  }
}
