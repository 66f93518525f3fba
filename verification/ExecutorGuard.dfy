/** An agenda that somebody else has changed is not written to: for runs with any foreign
    edits, when a worker may call the provider, and what it means that an action has
    been verified. */
module ExecutorGuard {
  import opened Prelude
  import opened Agendas
  import opened Actions
  import opened Reconcile
  import opened Executor
  import opened ExecutorWrites

  // What a worker knows about the agenda.

  /** A step with which a worker reads the agenda back and finds its action verified. */
  predicate ReadsBack(e: Event, w: World, next: World) {
    && w.worker.Some? && next.worker.Some? && w.worker.value.phase.Verifying? && next.worker.value.phase.Closing?
    && w.worker.value.phase.k < |e.actions| && !e.actions[w.worker.value.phase.k].CleanupNoop?
  }

  /** The agenda that the live worker read back last, or else the planned one. */
  function LastRead(e: Event, inputs: seq<Input>): Agenda
    requires e.Valid()
  {
    if inputs == [] then e.agenda
    else
      var earlier, last := inputs[..|inputs| - 1], inputs[|inputs| - 1];
      if last.Begin? && Run(e, earlier).worker.None? then e.agenda
      else if ReadsBack(e, Run(e, earlier), Run(e, inputs)) then Run(e, earlier).agenda
      else LastRead(e, earlier)
  }

  /** It is the planned agenda, or the agenda at a step of the run at which an action was
      read back. */
  lemma {:induction false} LastReadIs(e: Event, inputs: seq<Input>)
    requires e.Valid()
    ensures LastRead(e, inputs) == e.agenda
            || exists n :: 0 <= n < |inputs| && ReadsBack(e, Run(e, inputs[..n]), Run(e, inputs[..n + 1]))
                           && Run(e, inputs[..n]).agenda == LastRead(e, inputs)
  {
    hide Run, ReadsBack;
    if inputs != [] {
      var n := |inputs| - 1;
      var earlier := inputs[..n];
      LastReadIs(e, earlier);
      assert inputs[..n + 1] == inputs;
      if m :| 0 <= m < n && ReadsBack(e, Run(e, earlier[..m]), Run(e, earlier[..m + 1])) && Run(e, earlier[..m]).agenda == LastRead(e, earlier) {
        assert earlier[..m] == inputs[..m] && earlier[..m + 1] == inputs[..m + 1];
      }
    }
  }

  /** The result recorded for an action names the action's own item, and a cleanup NOOP
      never reads an agenda. */
  predicate Names(body: Body, outcome: Outcome) {
    && (!body.InsertItem? ==> outcome.itemId == ItemOf(body, ""))
    && (body.CleanupNoop? ==> outcome.seen.None?)
  }

  ghost predicate AllName(e: Event, rows: seq<Row>) {
    |rows| == |e.actions| && forall k :: 0 <= k < |rows| && rows[k].outcome.Some? ==> Names(e.actions[k], rows[k].outcome.value)
  }

  /** What a live worker knows is what it read last. */
  ghost predicate Informed(e: Event, v: Worker, read: Agenda) {
    && AllName(e, v.prior)
    && match v.phase
       case Turn(k) => v.expected == read
       case Calling(k) => k < |e.actions| && v.expected == read
       case Called(k, outcome) => k < |e.actions| && v.expected == read && Names(e.actions[k], outcome)
       case Verifying(k, outcome) => k < |e.actions| && v.expected == read && Names(e.actions[k], outcome)
       case Closing(k, outcome) => k < |e.actions| && read == if outcome.seen.Some? then outcome.seen.value else v.expected
       case _ => true
  }

  ghost predicate Knows(e: Event, w: World, read: Agenda) {
    && Shaped(e, w) && AllName(e, w.rows)
    && (w.worker.Some? ==> Informed(e, w.worker.value, read))
  }

  lemma RecognizedNames(body: Body, items: Agenda, resources: Resources)
    requires body.InsertItem? ==> NeighbourOf(body.place, resources).Some?
    requires Recognize(body, items, resources).Some? && body.MutatesAgenda()
    ensures Names(body, Recognize(body, items, resources).value)
  {
  }

  lemma TurnKnows(e: Event, w: World, v: Worker, k: nat, trouble: Trouble, read: Agenda)
    requires e.Valid() && Knows(e, w, read) && w.worker == Some(v) && v.phase == Turn(k) && k < |e.actions|
    ensures Knows(e, TakeUp(e, w, v, k, trouble), read)
  {
    hide Recognize;
    if !Missing(e.dependencies[k], v.resources) && e.actions[k].MutatesAgenda() {
      if Recognize(e.actions[k], w.agenda, v.resources).Some? {
        RecognizedNames(e.actions[k], w.agenda, v.resources);
      }
    }
  }

  lemma CallKnows(e: Event, w: World, v: Worker, k: nat, answer: Answer, newId: Id, read: Agenda)
    requires e.Valid() && Knows(e, w, read) && w.worker == Some(v) && v.phase == Calling(k)
    ensures Knows(e, Call(e, w, v, k, answer, newId), read)
  {
    hide Perform;
  }

  lemma ReadKnows(e: Event, w: World, v: Worker, trouble: Trouble, answer: Answer, newId: Id, read: Agenda)
    requires e.Valid() && Knows(e, w, read) && w.worker == Some(v) && v.phase.Verifying?
    ensures var next := Work(e, w, v, trouble, answer, newId);
            Knows(e, next, if ReadsBack(e, w, next) then w.agenda else read)
  {
    hide IndexOf, Find, ShowsWanted;
  }

  lemma RestKnows(e: Event, w: World, v: Worker, trouble: Trouble, answer: Answer, newId: Id, read: Agenda)
    requires e.Valid() && Knows(e, w, read) && w.worker == Some(v)
    requires !v.phase.Turn? && !v.phase.Calling? && !v.phase.Verifying?
    ensures var next := Work(e, w, v, trouble, answer, newId);
            Knows(e, next, read) && !ReadsBack(e, w, next)
  {
  }

  lemma StepKnows(e: Event, w: World, input: Input, read: Agenda)
    requires e.Valid() && Knows(e, w, read)
    ensures var next := Step(e, w, input);
            Knows(e, next, if input.Begin? && w.worker.None? then e.agenda
                           else if ReadsBack(e, w, next) then w.agenda else read)
  {
    hide Recognize, Perform, Verify, Missing, TakeUp, Call;
    if input.Advance? && w.worker.Some? {
      var v := w.worker.value;
      match v.phase {
        case Turn(k) =>
          if k < |e.actions| {
            TurnKnows(e, w, v, k, input.trouble, read);
            TurnNeverCloses(e, w, v, k, input.trouble);
          }
        case Calling(k) =>
          CallKnows(e, w, v, k, input.answer, input.newId, read);
        case Verifying(_, _) => ReadKnows(e, w, v, input.trouble, input.answer, input.newId, read);
        case _ => RestKnows(e, w, v, input.trouble, input.answer, input.newId, read);
      }
    }
  }

  lemma TurnNeverCloses(e: Event, w: World, v: Worker, k: nat, trouble: Trouble)
    requires e.Valid() && k < |e.actions| == |w.rows| == |v.prior| && w.worker == Some(v) && v.phase == Turn(k)
    ensures !ReadsBack(e, w, TakeUp(e, w, v, k, trouble))
  {
  }

  lemma {:induction false} RunKnows(e: Event, inputs: seq<Input>)
    requires e.Valid()
    ensures Knows(e, Run(e, inputs), LastRead(e, inputs))
  {
    hide Step, ReadsBack;
    if inputs != [] {
      var n := |inputs| - 1;
      RunKnows(e, inputs[..n]);
      StepKnows(e, Run(e, inputs[..n]), inputs[n], LastRead(e, inputs[..n]));
    }
  }

  // The guard before a call.

  ghost predicate AtTurn(w: World, k: nat) { w.worker.Some? && w.worker.value.phase == Turn(k) }

  lemma RunNext(e: Event, inputs: seq<Input>, input: Input)
    requires e.Valid()
    ensures Run(e, inputs + [input]) == Step(e, Run(e, inputs), input)
  {
    assert (inputs + [input])[..|inputs|] == inputs;
  }

  /** With any foreign edits: a worker goes on to call the provider for an action that
      writes only if the agenda is the one it read back last, or the planned one -- and
      only for an untouched row, without trouble, with every dependency produced. */
  lemma CallNeedsKnownAgenda(e: Event, inputs: seq<Input>, trouble: Trouble, answer: Answer, newId: Id, k: nat)
    requires e.Valid() && k < |e.actions| && e.actions[k].MutatesAgenda() && AtTurn(Run(e, inputs), k)
    requires var next := Run(e, inputs + [Advance(trouble, answer, newId)]);
             next.worker.Some? && next.worker.value.phase == Calling(k)
    ensures Run(e, inputs).agenda == LastRead(e, inputs)
    ensures Run(e, inputs).rows[k].status.PLANNED? && trouble.Fine?
    ensures forall d :: d in e.dependencies[k] ==> d in Run(e, inputs).worker.value.resources
  {
    hide Recognize;
    RunKnows(e, inputs);
    RunNext(e, inputs, Advance(trouble, answer, newId));
    var w := Run(e, inputs);
    assert Run(e, inputs + [Advance(trouble, answer, newId)]) == TakeUp(e, w, w.worker.value, k, trouble);
  }

  /** An action that a worker has to write, but whose agenda has changed. */
  ghost predicate Overtaken(e: Event, inputs: seq<Input>, k: nat)
    requires e.Valid()
  {
    && k < |e.actions| && e.actions[k].MutatesAgenda() && AtTurn(Run(e, inputs), k)
    && |Run(e, inputs).worker.value.prior| == |e.actions|
    && !Run(e, inputs).worker.value.prior[k].status.VERIFIED? && !Run(e, inputs).worker.value.prior[k].status.APPLIED?
    && Run(e, inputs).agenda != LastRead(e, inputs)
  }

  /** The effect of the action is found in the agenda as it is. */
  ghost predicate IsFound(e: Event, w: World, k: nat)
    requires k < |e.actions| && w.worker.Some?
  {
    && (e.actions[k].InsertItem? ==> NeighbourOf(e.actions[k].place, w.worker.value.resources).Some?)
    && Recognize(e.actions[k], w.agenda, w.worker.value.resources).Some?
  }

  /** What the next step makes of it: nothing is written, and either the effect was found,
      or the worker gives the event up. */
  lemma OvertakenStops(e: Event, inputs: seq<Input>, trouble: Trouble, answer: Answer, newId: Id, k: nat)
    requires e.Valid() && Overtaken(e, inputs, k)
    ensures var w, next := Run(e, inputs), Run(e, inputs + [Advance(trouble, answer, newId)]);
            && Shaped(e, w) && Shaped(e, next)
            && next.calls == w.calls && next.commits == w.commits && next.agenda == w.agenda && next.worker.Some?
            && (next.worker.value.phase.Verifying? ==> IsFound(e, w, k))
            && (!next.worker.value.phase.Verifying? ==> next.worker.value.phase in {Skipping(k + 1), Finished(false)})
            && (trouble.Fine? && !Missing(e.dependencies[k], w.worker.value.resources) && w.rows[k].status.PLANNED? ==>
                  next.rows[k].status == if IsFound(e, w, k) then APPLIED else FAILED)
            && (!trouble.Canceled? ==> !next.rows[k].status.PLANNED?)
  {
    hide Recognize;
    RunKnows(e, inputs);
    RunNext(e, inputs, Advance(trouble, answer, newId));
    var w := Run(e, inputs);
    assert Run(e, inputs + [Advance(trouble, answer, newId)]) == TakeUp(e, w, w.worker.value, k, trouble);
  }

  /** A worker that has failed, given up or finished, or is dead. */
  ghost predicate Stopped(w: World) {
    w.worker.Some? ==> w.worker.value.phase.Raised? || w.worker.value.phase.Skipping? || w.worker.value.phase.Finished?
  }

  lemma StoppedStep(e: Event, w: World, input: Input)
    requires e.Valid() && Shaped(e, w) && Stopped(w) && !input.Begin?
    ensures Stopped(Step(e, w, input)) && Step(e, w, input).calls == w.calls && Step(e, w, input).commits == w.commits
  {
  }

  lemma {:induction false} StoppedWritesNothing(e: Event, inputs: seq<Input>, more: seq<Input>)
    requires e.Valid() && Stopped(Run(e, inputs)) && forall n :: 0 <= n < |more| ==> !more[n].Begin?
    ensures Stopped(Run(e, inputs + more))
    ensures Run(e, inputs + more).calls == Run(e, inputs).calls && Run(e, inputs + more).commits == Run(e, inputs).commits
  {
    hide Step, Stopped;
    if more == [] {
      assert inputs + more == inputs;
    } else {
      var n := |more| - 1;
      assert inputs + more == (inputs + more[..n]) + [more[n]];
      StoppedWritesNothing(e, inputs, more[..n]);
      RunSane(e, inputs + more[..n]);
      RunNext(e, inputs + more[..n], more[n]);
      StoppedStep(e, Run(e, inputs + more[..n]), more[n]);
    }
  }

  /** If the effect is not found, the worker writes nothing any more, for this or any
      other action of the event, however long it lives. */
  lemma OvertakenWorkerWritesNothing(e: Event, inputs: seq<Input>, trouble: Trouble, answer: Answer, newId: Id, k: nat, more: seq<Input>)
    requires e.Valid() && Overtaken(e, inputs, k) && !IsFound(e, Run(e, inputs), k)
    requires forall n :: 0 <= n < |more| ==> !more[n].Begin?
    ensures var w, later := Run(e, inputs), Run(e, inputs + [Advance(trouble, answer, newId)] + more);
            later.calls == w.calls && later.commits == w.commits
  {
    hide Run, Recognize;
    OvertakenStops(e, inputs, trouble, answer, newId, k);
    StoppedWritesNothing(e, inputs + [Advance(trouble, answer, newId)], more);
  }

  // Cancellation and lost leases.

  /** A worker that is told of a cancellation, or of a lost lease, stops at that step
      unless its provider call is already on its way: it changes nothing but rows, and
      no row is APPLIED or VERIFIED on its account. */
  lemma TroubleStops(e: Event, w: World, read: Agenda, trouble: Trouble, answer: Answer, newId: Id)
    requires e.Valid() && Knows(e, w, read) && w.worker.Some? && !w.worker.value.phase.Calling? && !trouble.Fine?
    ensures var next := Step(e, w, Advance(trouble, answer, newId));
            && Stopped(next) && next.calls == w.calls && next.commits == w.commits && next.agenda == w.agenda
            && |next.rows| == |w.rows|
            && forall k :: 0 <= k < |w.rows| && next.rows[k] != w.rows[k] ==> next.rows[k].status in {FAILED, SKIPPED}
  {
    hide Recognize;
  }

  /** And it writes nothing any more for as long as it lives. */
  lemma TroubledWorkerWritesNothing(e: Event, inputs: seq<Input>, trouble: Trouble, answer: Answer, newId: Id, more: seq<Input>)
    requires e.Valid() && Run(e, inputs).worker.Some? && !Run(e, inputs).worker.value.phase.Calling? && !trouble.Fine?
    requires forall n :: 0 <= n < |more| ==> !more[n].Begin?
    ensures var w, later := Run(e, inputs), Run(e, inputs + [Advance(trouble, answer, newId)] + more);
            later.calls == w.calls && later.commits == w.commits
  {
    hide Run, Step, Stopped;
    RunKnows(e, inputs);
    RunNext(e, inputs, Advance(trouble, answer, newId));
    TroubleStops(e, Run(e, inputs), LastRead(e, inputs), trouble, answer, newId);
    StoppedWritesNothing(e, inputs + [Advance(trouble, answer, newId)], more);
  }

  /** How a worker that gives up at an untouched action says so in its row: a lost lease
      and a changed agenda are failures of this action, a missing dependency is one of an
      earlier action, and a cancellation leaves the row as it is. */
  lemma GivingUpIsRecorded(e: Event, w: World, v: Worker, k: nat, trouble: Trouble, answer: Answer, newId: Id)
    requires e.Valid() && Shaped(e, w) && w.worker == Some(v) && v.phase == Turn(k) && k < |e.actions| == |v.prior|
    requires w.rows[k].status.PLANNED? && v.prior[k].status.PLANNED?
    ensures var next := Step(e, w, Advance(trouble, answer, newId));
            && |next.rows| == |w.rows| && (forall j :: 0 <= j < |w.rows| && j != k ==> next.rows[j] == w.rows[j])
            && (trouble.Canceled? ==> next.rows == w.rows)
            && (trouble.LeaseLost? ==> next.rows[k].status.FAILED?)
            && (trouble.Fine? && Missing(e.dependencies[k], v.resources) ==> next.rows[k].status.SKIPPED?)
  {
    hide Recognize;
  }

  /** A call that raised, or a read-back that did not show the effect, is a failure of its
      action; what comes after a failure is skipped. */
  lemma FailureIsRecorded(e: Event, w: World, v: Worker, k: nat, trouble: Trouble, answer: Answer, newId: Id)
    requires e.Valid() && Shaped(e, w) && w.worker == Some(v) && k < |e.actions| && !w.rows[k].status.Final()
    requires v.phase == Skipping(k) || exists called :: v.phase == Raised(k, called)
    ensures var next := Step(e, w, Advance(trouble, answer, newId));
            && next.worker == Some(v.(phase := Skipping(k + 1)))
            && next.rows == w.rows[k := if v.phase.Raised? then Row(FAILED, None)
                                        else if w.rows[k].status.APPLIED? then w.rows[k] else Row(SKIPPED, None)]
  {
  }

  // And never again.

  function CommitsOf(commits: seq<Commit>, k: nat): nat {
    if commits == [] then 0
    else CommitsOf(commits[..|commits| - 1], k) + (if commits[|commits| - 1].k == k then 1 else 0)
  }

  lemma CommitIsCall(e: Event, w: World, input: Input, k: nat)
    requires e.Valid() && Shaped(e, w) && CallerIsEntitled(e, w) && k < |e.actions|
    ensures Shaped(e, Step(e, w, input))
    ensures Step(e, w, input).calls[k] == w.calls[k] ==> CommitsOf(Step(e, w, input).commits, k) == CommitsOf(w.commits, k)
  {
    hide Recognize, Perform, Verify;
    CallsNeedPlanned(e, w, input, k);
    var next := Step(e, w, input);
    if next.commits != w.commits {
      assert next.commits[..|next.commits| - 1] == w.commits;
    }
  }

  lemma {:induction false} NoCommitAfterPlanned(e: Event, earlier: seq<Input>, later: seq<Input>, k: nat)
    requires e.Valid() && k < |e.actions|
    requires Shaped(e, Run(e, earlier)) && !Run(e, earlier).rows[k].status.PLANNED?
    ensures Shaped(e, Run(e, earlier + later)) && Run(e, earlier + later).calls[k] == Run(e, earlier).calls[k]
    ensures CommitsOf(Run(e, earlier + later).commits, k) == CommitsOf(Run(e, earlier).commits, k)
  {
    hide Step, CommitsOf;
    NoCallAfterPlanned(e, earlier, later, k);
    if later == [] {
      assert earlier + later == earlier;
    } else {
      var n := |later| - 1;
      assert earlier + later == (earlier + later[..n]) + [later[n]];
      NoCommitAfterPlanned(e, earlier, later[..n], k);
      RunSane(e, earlier + later[..n]);
      RunNext(e, earlier + later[..n], later[n]);
      CommitIsCall(e, Run(e, earlier + later[..n]), later[n], k);
    }
  }

  /** The overtaken action itself is never called for and never committed again, by no
      worker, whatever follows -- unless the run was canceled at that very step. */
  lemma OvertakenIsNeverWritten(e: Event, inputs: seq<Input>, trouble: Trouble, answer: Answer, newId: Id, k: nat, more: seq<Input>)
    requires e.Valid() && Overtaken(e, inputs, k) && !trouble.Canceled?
    ensures var w, later := Run(e, inputs), Run(e, inputs + [Advance(trouble, answer, newId)] + more);
            && Shaped(e, w) && Shaped(e, later)
            && later.calls[k] == w.calls[k] && CommitsOf(later.commits, k) == CommitsOf(w.commits, k)
  {
    hide Run, Recognize, CommitsOf;
    OvertakenStops(e, inputs, trouble, answer, newId, k);
    NoCommitAfterPlanned(e, inputs + [Advance(trouble, answer, newId)], more, k);
  }

  // What VERIFIED means.

  /** The agenda shows what the action was to bring about. */
  ghost predicate Shown(body: Body, outcome: Outcome, items: Agenda, resources: Resources) {
    match body
    case CleanupNoop(_, _, _) => true
    case DeleteOwnedItem(_, _, itemId) => forall i :: 0 <= i < |items| ==> items[i].id != itemId
    case InsertItem(_, _, song, _, _, _, _) => ItemShows(items, outcome.itemId, song, resources)
    case ReplaceItem(_, _, song, _, itemId, _) => ItemShows(items, itemId, song, resources)
    case Noop(_, _, song, itemId, _) => ItemShows(items, itemId, song, resources)
    case _ => false
  }

  /** The first item with the id shows the song, in the arrangement it resolves to. */
  ghost predicate ItemShows(items: Agenda, id: Id, song: SongRef, resources: Resources) {
    exists i :: 0 <= i < |items| && items[i].id == id && (forall j :: 0 <= j < i ==> items[j].id != id)
                && SongOf(song, resources).Some? && ArrangementOf(song, resources).Some?
                && items[i].kind == SONG && items[i].songId == SongOf(song, resources)
                && items[i].arrangementId == ArrangementOf(song, resources)
  }

  lemma VerifyIsShown(body: Body, items: Agenda, resources: Resources, outcome: Outcome)
    requires Names(body, outcome) && !body.CreateSong? && !body.CreateArrangement?
    ensures Verify(body, items, resources, outcome).Some? <==> Shown(body, outcome, items, resources)
    ensures Verify(body, items, resources, outcome).Some? ==> Verify(body, items, resources, outcome).value.itemId == outcome.itemId
  {
    var id := outcome.itemId;
    var k := IndexOf(items, id);
    if !body.CleanupNoop? && !body.DeleteOwnedItem? {
      if i :| 0 <= i < |items| && items[i].id == id && (forall j :: 0 <= j < i ==> items[j].id != id) {
        assert k == i;
      }
    }
  }

  /** With any foreign edits: an untroubled worker records an action as VERIFIED if and
      only if the agenda, as it is at that moment, shows what the action was to bring
      about; otherwise it fails it. */
  lemma VerifiedIsShown(e: Event, inputs: seq<Input>, answer: Answer, newId: Id, k: nat, outcome: Outcome)
    requires e.Valid() && k < |e.actions| && Run(e, inputs).worker.Some?
    requires Run(e, inputs).worker.value.phase == Verifying(k, outcome)
    ensures var w, next := Run(e, inputs), Run(e, inputs + [Advance(Fine, answer, newId)]);
            && next.worker.Some?
            && (next.worker.value.phase.Closing? <==> Shown(e.actions[k], outcome, w.agenda, w.worker.value.resources))
            && (next.worker.value.phase.Closing? || next.worker.value.phase == Raised(k, false))
            && |w.rows| == |next.rows| == |e.actions|
            && (!w.rows[k].status.Final() ==> (next.rows[k].status.VERIFIED? <==> next.worker.value.phase.Closing?))
  {
    hide Verify, Shown, IndexOf;
    RunKnows(e, inputs);
    var w := Run(e, inputs);
    VerifyIsShown(e.actions[k], w.agenda, w.worker.value.resources, outcome);
    RunNext(e, inputs, Advance(Fine, answer, newId));
  }
}
