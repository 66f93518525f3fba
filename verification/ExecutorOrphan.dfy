/** What becomes of a write that was committed by a worker that died before recording
    it.  The next worker re-verifies the earlier rows, adopts the agenda it reads there
    as the expected one, and writes a second time -- exactly if the event has an
    earlier action besides cleanup NOOPs. */
module ExecutorOrphan {
  import opened Prelude
  import opened Agendas
  import opened Actions
  import opened Order
  import opened Reconcile
  import opened Executor
  import opened ExecutorWrites
  import opened ExecutorExact
  import opened ExecutorFirst

  // Cleanup NOOPs never learn a fingerprint, in any run.

  ghost predicate QuietRows(e: Event, rows: seq<Row>) {
    |rows| == |e.actions| && forall j :: 0 <= j < |rows| && e.actions[j].CleanupNoop? ==> Quiet(rows[j])
  }

  ghost predicate QuietWorker(e: Event, v: Worker) {
    && QuietRows(e, v.prior)
    && match v.phase
       case Called(j, outcome) => outcome.seen.None?
       case Verifying(j, outcome) => j < |e.actions| && e.actions[j].CleanupNoop? ==> outcome.seen.None?
       case Closing(j, outcome) => j < |e.actions| && e.actions[j].CleanupNoop? ==> outcome.seen.None?
       case _ => true
  }

  ghost predicate AllQuiet(e: Event, w: World) {
    QuietRows(e, w.rows) && (w.worker.Some? ==> QuietWorker(e, w.worker.value))
  }

  lemma StepQuiet(e: Event, w: World, input: Input)
    requires e.Valid() && AllQuiet(e, w)
    ensures AllQuiet(e, Step(e, w, input))
  {
    hide Work, QuietRows;
    if input.Advance? && w.worker.Some? && |w.calls| == |e.actions| {
      WorkQuiet(e, w, w.worker.value, input.trouble, input.answer, input.newId);
    }
  }

  lemma WorkQuiet(e: Event, w: World, v: Worker, trouble: Trouble, answer: Answer, newId: Id)
    requires e.Valid() && AllQuiet(e, w) && w.worker == Some(v) && |w.calls| == |e.actions|
    ensures AllQuiet(e, Work(e, w, v, trouble, answer, newId))
  {
    hide Perform, Recognize, Missing, Restore, QuietRows, Finish, ItemOf;
    forall k: nat, status: Status, outcome: Option<Outcome> | k < |w.rows| && QuietOutcome(e, k, outcome)
      ensures QuietRows(e, w.rows[k := Finish(w.rows[k], status, outcome)])
    {
      SetQuiet(e, w.rows, k, status, outcome);
    }
    SizesAgree(e, w, v);
    if v.phase.Turn? && v.phase.k < |e.actions| && e.actions[v.phase.k].CleanupNoop? {
      RecordedQuiet(e, v.prior, v.phase.k);
    }
  }

  ghost predicate QuietOutcome(e: Event, k: nat, outcome: Option<Outcome>) {
    outcome.Some? && k < |e.actions| && e.actions[k].CleanupNoop? ==> outcome.value.seen.None?
  }

  lemma SetQuiet(e: Event, rows: seq<Row>, k: nat, status: Status, outcome: Option<Outcome>)
    requires QuietRows(e, rows) && k < |rows| && QuietOutcome(e, k, outcome)
    ensures QuietRows(e, rows[k := Finish(rows[k], status, outcome)])
  {
  }

  lemma RecordedQuiet(e: Event, rows: seq<Row>, k: nat)
    requires QuietRows(e, rows) && k < |rows| && e.actions[k].CleanupNoop?
    ensures Recorded(e.actions[k], rows[k]).seen.None?
  {
  }

  lemma SizesAgree(e: Event, w: World, v: Worker)
    requires AllQuiet(e, w) && w.worker == Some(v)
    ensures |v.prior| == |w.rows| == |e.actions|
  {
  }

  lemma {:induction false} RunQuiet(e: Event, inputs: seq<Input>)
    requires e.Valid()
    ensures AllQuiet(e, Run(e, inputs))
  {
    if inputs != [] {
      RunQuiet(e, inputs[..|inputs| - 1]);
      StepQuiet(e, Run(e, inputs[..|inputs| - 1]), inputs[|inputs| - 1]);
    }
  }

  // A worker that starts over on verified rows.

  /** The resources that the first j rows give back. */
  function Restored(e: Event, rows: seq<Row>, j: nat): Resources
    requires j <= |rows| == |e.actions|
  {
    if j == 0 then e.resources
    else Restore(e.actions[j - 1], Recorded(e.actions[j - 1], rows[j - 1]), Restored(e, rows, j - 1))
  }

  /** Row j is VERIFIED, and its effect still shows in the agenda. */
  ghost predicate StillShows(e: Event, w: World, j: nat)
    requires |w.rows| == |e.actions| == |e.dependencies|
  {
    && j < |w.rows| && w.rows[j].status.VERIFIED?
    && !Missing(e.dependencies[j], Restored(e, w.rows, j))
    && Verify(e.actions[j], w.agenda, Restored(e, w.rows, j), Recorded(e.actions[j], w.rows[j])).Some?
  }

  function Untroubled(newId: Id): Input { Advance(Fine, Commits, newId) }

  function Steps(n: nat, newId: Id): (inputs: seq<Input>)
    ensures |inputs| == n && forall i :: 0 <= i < n ==> inputs[i] == Untroubled(newId)
  {
    seq(n, i => Untroubled(newId))
  }

  /** A new worker at action j, with what re-verifying the earlier actions left in its
      memory: the agenda read last, unless all it passed were cleanup NOOPs. */
  function Arrived(e: Event, w: World, j: nat): World
    requires j <= |w.rows| == |e.actions|
  {
    w.(worker := Some(Worker(Turn(j), w.rows, Restored(e, w.rows, j), if AllCleanup(e.actions[..j]) then e.agenda else w.agenda)))
  }

  function Thrice(e: Event, w: World, newId: Id): World
    requires e.Valid()
  {
    Step(e, Step(e, Step(e, w, Untroubled(newId)), Untroubled(newId)), Untroubled(newId))
  }

  lemma PassVerified(e: Event, w: World, j: nat, newId: Id)
    requires e.Valid() && Shaped(e, w) && QuietRows(e, w.rows) && j < |e.actions| && StillShows(e, w, j)
    ensures Thrice(e, Arrived(e, w, j), newId) == Arrived(e, w, j + 1)
  {
    hide Missing, IndexOf, AllCleanup, Call, Restore, Verify, Recorded, Recognize, QuietRows;
    LongerCleanup(e, j);
    VerifiedSees(e, w, j);
    assert w.rows[j := w.rows[j]] == w.rows;
  }

  /** What re-verifying a row yields: its item, and the agenda unless it is a cleanup NOOP. */
  lemma VerifiedSees(e: Event, w: World, j: nat)
    requires QuietRows(e, w.rows) && j < |e.actions| == |e.dependencies| && StillShows(e, w, j)
    ensures var outcome := Recorded(e.actions[j], w.rows[j]);
            var result := Verify(e.actions[j], w.agenda, Restored(e, w.rows, j), outcome);
            && result.Some? && result.value.seen == (if e.actions[j].CleanupNoop? then None else Some(w.agenda))
            && Restore(e.actions[j], result.value, Restored(e, w.rows, j)) == Restored(e, w.rows, j + 1)
  {
    hide IndexOf, Missing;
  }

  lemma LongerCleanup(e: Event, j: nat)
    requires j < |e.actions|
    ensures AllCleanup(e.actions[..j + 1]) <==> AllCleanup(e.actions[..j]) && e.actions[j].CleanupNoop?
  {
    assert e.actions[..j + 1] == e.actions[..j] + [e.actions[j]];
    if AllCleanup(e.actions[..j + 1]) {
      assert e.actions[..j + 1][j].CleanupNoop?;
      forall i | 0 <= i < j ensures e.actions[..j][i].CleanupNoop? {
        assert e.actions[..j + 1][i].CleanupNoop?;
      }
    }
  }

  lemma RunMore(e: Event, inputs: seq<Input>, n: nat, newId: Id)
    requires e.Valid()
    ensures Run(e, inputs + Steps(n + 1, newId)) == Step(e, Run(e, inputs + Steps(n, newId)), Untroubled(newId))
  {
    hide Step;
    var longer := inputs + Steps(n + 1, newId);
    assert longer[..|longer| - 1] == inputs + Steps(n, newId);
  }

  lemma RunBegin(e: Event, inputs: seq<Input>, newId: Id)
    requires e.Valid()
    ensures Run(e, inputs + [Begin] + Steps(0, newId)) == Step(e, Run(e, inputs), Begin)
  {
    hide Step;
    assert inputs + [Begin] + Steps(0, newId) == inputs + [Begin];
    assert (inputs + [Begin])[..|inputs|] == inputs;
  }

  /** Re-verifying the first j actions takes three steps each. */
  lemma {:induction false} Walk(e: Event, inputs: seq<Input>, j: nat, newId: Id)
    requires e.Valid() && Shaped(e, Run(e, inputs)) && Run(e, inputs).worker.None? && j <= |e.actions|
    requires forall i :: 0 <= i < j ==> StillShows(e, Run(e, inputs), i)
    ensures Run(e, inputs + [Begin] + Steps(3 * j, newId)) == Arrived(e, Run(e, inputs), j)
  {
    hide Step, Run, StillShows, Steps;
    var w, start := Run(e, inputs), inputs + [Begin];
    if j == 0 {
      RunBegin(e, inputs, newId);
      Begins(e, w);
    } else {
      Walk(e, inputs, j - 1, newId);
      RunQuiet(e, inputs);
      RunMore(e, start, 3 * j - 3, newId);
      RunMore(e, start, 3 * j - 2, newId);
      RunMore(e, start, 3 * j - 1, newId);
      PassVerified(e, w, j - 1, newId);
    }
  }

  lemma Begins(e: Event, w: World)
    requires e.Valid() && Shaped(e, w) && w.worker.None?
    ensures Step(e, w, Begin) == Arrived(e, w, 0)
  {
    assert AllCleanup(e.actions[..0]);
  }

  // The orphaned write.

  /** Action k was committed by a worker that died before recording it; the rows before
      it still show in the agenda, and the action could be performed once more. */
  ghost predicate Orphaned(e: Event, w: World, k: nat, newId: Id) {
    && e.Valid() && Shaped(e, w) && w.worker.None? && k < |e.actions| && e.actions[k].MutatesAgenda()
    && (exists i :: 0 <= i < |w.commits| && w.commits[i].k == k) && w.rows[k].status.PLANNED?
    && (forall j :: 0 <= j < k ==> StillShows(e, w, j))
    && !Missing(e.dependencies[k], Restored(e, w.rows, k))
    && Perform(e.actions[k], Effect(w.agenda, Restored(e, w.rows, k)), e.catalogue, newId).Some?
  }

  /** With an earlier action that reads the agenda, the next worker calls and commits. */
  lemma WritesAgain(e: Event, w: World, k: nat, newId: Id)
    requires Orphaned(e, w, k, newId) && !AllCleanup(e.actions[..k])
    ensures var again := Step(e, Step(e, Arrived(e, w, k), Untroubled(newId)), Untroubled(newId));
            again.commits == w.commits + [Commit(k, newId)] && again.calls[k] == w.calls[k] + 1
  {
    hide Perform, Recognize, Missing, Verify;
  }

  /** Otherwise it finds the agenda changed, and recognizes the item by its own id. */
  lemma Recognizes(e: Event, w: World, k: nat, newId: Id)
    requires Orphaned(e, w, k, newId) && AllCleanup(e.actions[..k])
    requires WellStarted(e) && Pending(e, w, k) && NewFor(e, k, w.commits[0].newId)
    ensures var found := Outcome(ItemOf(e.actions[k], w.commits[0].newId), Some(w.agenda));
            var next := Step(e, Arrived(e, w, k), Untroubled(newId));
            && next.worker.Some? && next.worker.value.phase == Verifying(k, found)
            && Step(e, next, Untroubled(newId)).commits == w.commits
  {
    hide Perform, Missing, Recognize, Verify;
    RestoredIsPlain(e, w.rows, k);
    assert FirstWriteShows(e, e.actions[k]) && Written(e, w, k, w.commits[0]);
    WriteIsRecognized(e.actions[k], Effect(e.agenda, e.resources), e.catalogue, w.commits[0].newId);
  }

  lemma {:induction false} RestoredIsPlain(e: Event, rows: seq<Row>, k: nat)
    requires k <= |rows| == |e.actions| && AllCleanup(e.actions[..k])
    ensures Restored(e, rows, k) == e.resources
  {
    if k > 0 {
      LongerCleanup(e, k - 1);
      RestoredIsPlain(e, rows, k - 1);
    }
  }

  /** The id was new to the agenda and to the plan. */
  ghost predicate NewFor(e: Event, k: nat, id: Id)
    requires k < |e.actions|
  {
    Absent(e.agenda, id) && (e.actions[k].InsertItem? ==> id !in e.actions[k].initialIds)
  }

  ghost predicate CommittedTwice(e: Event, inputs: seq<Input>, k: nat)
    requires e.Valid()
  {
    NoEdits(inputs) && !Once(Run(e, inputs).commits, k)
  }

  /** A write is committed at most once, whatever follows, if and only if the event has
      no earlier action besides cleanup NOOPs: in a run that has left it orphaned, some
      continuation without foreign edits commits it again exactly otherwise. */
  lemma OrphanIsRepeated(e: Event, inputs: seq<Input>, k: nat, newId: Id)
    requires WellStarted(e) && NoEdits(inputs) && Orphaned(e, Run(e, inputs), k, newId)
    ensures (exists more :: CommittedTwice(e, inputs + more, k)) <==> !AllCleanup(e.actions[..k])
    ensures !AllCleanup(e.actions[..k]) ==>
              Run(e, inputs + [Begin] + Steps(3 * k + 2, newId)).commits == Run(e, inputs).commits + [Commit(k, newId)]
  {
    hide Step, Run, Pending, Held, Steps, StillShows, FirstWriteShows;
    var w := Run(e, inputs);
    if AllCleanup(e.actions[..k]) {
      forall more ensures !CommittedTwice(e, inputs + more, k) {
        if NoEdits(inputs + more) {
          FirstWriteOnce(e, inputs + more, k);
        }
      }
    } else {
      Walk(e, inputs, k, newId);
      RunMore(e, inputs + [Begin], 3 * k, newId);
      RunMore(e, inputs + [Begin], 3 * k + 1, newId);
      WritesAgain(e, w, k, newId);
      var more := [Begin] + Steps(3 * k + 2, newId);
      assert inputs + more == inputs + [Begin] + Steps(3 * k + 2, newId);
      TwoCommits(w.commits, k, newId);
      StillNoEdits(inputs, more, 3 * k + 2, newId);
      assert CommittedTwice(e, inputs + more, k);
    }
  }

  lemma TwoCommits(commits: seq<Commit>, k: nat, newId: Id)
    requires exists i :: 0 <= i < |commits| && commits[i].k == k
    ensures !Once(commits + [Commit(k, newId)], k)
  {
    var i :| 0 <= i < |commits| && commits[i].k == k;
    var all := commits + [Commit(k, newId)];
    assert all[i].k == k && all[|commits|].k == k;
  }

  lemma StillNoEdits(inputs: seq<Input>, more: seq<Input>, n: nat, newId: Id)
    requires NoEdits(inputs) && more == [Begin] + Steps(n, newId)
    ensures NoEdits(inputs + more)
  {
  }

  /** The first write of an event, orphaned, is recognized with the id it got: the next
      worker verifies it instead of calling. */
  lemma FirstOrphanIsRecognized(e: Event, inputs: seq<Input>, k: nat, newId: Id)
    requires WellStarted(e) && NoEdits(inputs) && Orphaned(e, Run(e, inputs), k, newId) && AllCleanup(e.actions[..k])
    requires NewFor(e, k, Run(e, inputs).commits[0].newId)
    ensures var w, next := Run(e, inputs), Run(e, inputs + [Begin] + Steps(3 * k + 1, newId));
            && next.worker.Some?
            && next.worker.value.phase == Verifying(k, Outcome(ItemOf(e.actions[k], w.commits[0].newId), Some(w.agenda)))
    ensures Run(e, inputs + [Begin] + Steps(3 * k + 2, newId)).commits == Run(e, inputs).commits
  {
    hide Step, Run, Steps, StillShows, FirstWriteShows, Pending;
    FirstWriteOnce(e, inputs, k);
    Walk(e, inputs, k, newId);
    RunMore(e, inputs + [Begin], 3 * k, newId);
    RunMore(e, inputs + [Begin], 3 * k + 1, newId);
    Recognizes(e, Run(e, inputs), k, newId);
  }
}
