/** The loops of engine.py -- _apply_event, _execute_or_resume, _skip_remaining -- with
    rows, agenda and memory changed in place, proved to follow the steps of module
    Executor: whatever they leave is the world of a run. */
module ExecutorLoops {
  import opened Prelude
  import opened Agendas
  import opened Actions
  import opened Reconcile
  import opened Executor

  /** What the world decides at one step. */
  datatype Decision = Decision(trouble: Trouble, answer: Answer, newId: Id)

  function Advances(world: nat -> Decision, n: nat): (inputs: seq<Input>)
    ensures |inputs| == n
  {
    if n == 0 then [] else Advances(world, n - 1) + [Advance(world(n - 1).trouble, world(n - 1).answer, world(n - 1).newId)]
  }

  /** The inputs of an execution that starts after `earlier` and has taken `tick` steps. */
  function Inputs(earlier: seq<Input>, world: nat -> Decision, tick: nat): seq<Input> {
    earlier + [Begin] + Advances(world, tick)
  }

  lemma RunBegins(e: Event, earlier: seq<Input>, world: nat -> Decision)
    requires e.Valid()
    ensures Run(e, Inputs(earlier, world, 0)) == Step(e, Run(e, earlier), Begin)
  {
    assert Inputs(earlier, world, 0) == earlier + [Begin];
    assert (earlier + [Begin])[..|earlier|] == earlier;
  }

  lemma RunAdvances(e: Event, earlier: seq<Input>, world: nat -> Decision, tick: nat)
    requires e.Valid()
    ensures var d := world(tick);
            Run(e, Inputs(earlier, world, tick + 1))
            == Step(e, Run(e, Inputs(earlier, world, tick)), Advance(d.trouble, d.answer, d.newId))
  {
    hide Step;
    var longer := Inputs(earlier, world, tick + 1);
    assert longer[..|longer| - 1] == Inputs(earlier, world, tick);
  }

  /** One step of a live worker, spelled out. */
  lemma StepWorks(e: Event, w: World, v: Worker, d: Decision)
    requires e.Valid() && w.worker == Some(v) && |v.prior| == |w.rows| == |w.calls| == |e.actions|
    ensures Step(e, w, Advance(d.trouble, d.answer, d.newId)) == Work(e, w, v, d.trouble, d.answer, d.newId)
  {
  }

  class Execution {
    const e: Event
    const prior: seq<Row>
    const world: nat -> Decision
    ghost const earlier: seq<Input>
    ghost const deaths: seq<nat>

    var tick: nat
    var rows: seq<Row>
    var agenda: Agenda
    var calls: seq<nat>
    var commits: seq<Commit>
    var resources: Resources
    var expected: Agenda

    ghost function Shape(phase: Phase): World
      reads this
    {
      World(rows, agenda, Some(Worker(phase, prior, resources, expected)), calls, deaths, commits)
    }

    /** The execution stands where the run stands after `tick` steps, in `phase`. */
    ghost predicate At(phase: Phase)
      reads this
    {
      && e.Valid() && |prior| == |rows| == |calls| == |e.actions|
      && Run(e, Inputs(earlier, world, tick)) == Shape(phase)
    }

    /** Up to k the rows have ended; from k on they are as the execution found them. */
    ghost predicate Settled(k: nat)
      reads this
    {
      && k <= |rows| == |prior|
      && (forall j :: 0 <= j < k ==> Ended(rows[j], prior[j]))
      && (forall j :: k <= j < |rows| ==> rows[j] == prior[j])
    }

    /** Rows and memory as a worker finds them; `before` is what has happened so far. */
    constructor (event: Event, decisions: nat -> Decision, ghost before: seq<Input>, w: World)
      requires event.Valid() && w == Run(event, before) && w.worker.None?
      requires |w.rows| == |w.calls| == |event.actions|
      ensures At(Turn(0)) && Settled(0) && e == event && world == decisions && earlier == before && tick == 0
    {
      e, prior, world, earlier, deaths := event, w.rows, decisions, before, w.deaths;
      tick, rows, agenda, calls, commits := 0, w.rows, w.agenda, w.calls, w.commits;
      resources, expected := event.resources, event.agenda;
      new;
      RunBegins(event, before, decisions);
    }

    /** `action_finished`. */
    method Record(k: nat, status: Status, outcome: Option<Outcome>)
      requires k < |rows|
      modifies this`rows
      ensures rows == old(rows)[k := Finish(old(rows)[k], status, outcome)]
    {
      if !(rows[k].status.Final() || (rows[k].status.APPLIED? && (status.PLANNED? || status.SKIPPED?))) {
        rows := rows[k := Row(status, outcome)];
      }
    }

    /** `_skip_remaining`, after which the event has failed. */
    method SkipRemaining(first: nat)
      requires At(Skipping(first)) && first <= |e.actions|
      modifies this`tick, this`rows
      ensures At(Finished(false)) && tick >= old(tick)
    {
      hide Run, Inputs, Advances, Step, TakeUp, Call, Verify, Restore, Perform, Recognize, Event.Valid;
      var k := first;
      while k < |e.actions|
        invariant first <= k <= |e.actions| && At(Skipping(k)) && tick >= old(tick)
      {
        Advanced(Skipping(k));
        Record(k, SKIPPED, None);
        tick := tick + 1;
        k := k + 1;
      }
      Advanced(Skipping(k));
      tick := tick + 1;
    }

    /** The next step of the run, from the state at hand. */
    lemma Advanced(phase: Phase)
      requires At(phase)
      ensures Run(e, Inputs(earlier, world, tick + 1))
              == Work(e, Shape(phase), Worker(phase, prior, resources, expected),
                      world(tick).trouble, world(tick).answer, world(tick).newId)
    {
      RunAdvances(e, earlier, world, tick);
      StepWorks(e, Shape(phase), Worker(phase, prior, resources, expected), world(tick));
    }

    /** The exception handler: the action is recorded as FAILED. */
    method Fail(k: nat, called: bool)
      requires At(Raised(k, called)) && k < |e.actions|
      modifies this`tick, this`rows
      ensures At(Skipping(k + 1)) && tick >= old(tick)
    {
      hide Run, Inputs, Advances, Step, TakeUp, Call, Verify, Restore, Perform, Recognize, Event.Valid;
      Advanced(Raised(k, called));
      Record(k, FAILED, None);
      tick := tick + 1;
    }

    /** Reads the agenda back, records the result and adopts what it learned. */
    method VerifyAndClose(k: nat, outcome: Outcome) returns (verified: bool)
      requires At(Verifying(k, outcome)) && k < |e.actions|
      requires Open(rows[k], prior[k]) && forall j :: 0 <= j < k ==> Ended(rows[j], prior[j])
      requires forall j :: k < j < |rows| ==> rows[j] == prior[j]
      modifies this`tick, this`rows, this`resources, this`expected
      ensures tick >= old(tick)
      ensures if verified then At(Turn(k + 1)) && Settled(k + 1) else At(Skipping(k + 1))
    {
      hide Run, Inputs, Advances, Step, TakeUp, Call, Verify, Restore, Perform, Recognize, Event.Valid;
      Advanced(Verifying(k, outcome));
      var trouble := world(tick).trouble;
      var result := Verify(e.actions[k], agenda, resources, outcome);
      tick := tick + 1;
      if result.None? || !trouble.Fine? {
        Fail(k, false);
        return false;
      }
      Record(k, VERIFIED, result);
      Advanced(Closing(k, result.value));
      trouble := world(tick).trouble;
      tick := tick + 1;
      if !trouble.Fine? {
        Fail(k, false);
        return false;
      }
      resources := Restore(e.actions[k], result.value, resources);
      expected := if result.value.seen.Some? then result.value.seen.value else expected;
      verified := true;
    }

    /** The provider call and the record of its answer. */
    method CallProvider(k: nat) returns (outcome: Option<Outcome>)
      requires At(Calling(k)) && k < |e.actions|
      modifies this`tick, this`rows, this`agenda, this`calls, this`commits
      ensures tick >= old(tick)
      ensures outcome.Some? ==>
                At(Verifying(k, outcome.value)) && rows == old(rows)[k := Finish(old(rows)[k], APPLIED, outcome)]
      ensures outcome.None? ==> At(Skipping(k + 1))
    {
      hide Run, Inputs, Advances, Step, TakeUp, Verify, Restore, Perform, Recognize, Event.Valid, Finish;
      Advanced(Calling(k));
      var d, body := world(tick), e.actions[k];
      tick := tick + 1;
      var answer := Outcome(ItemOf(body, d.newId), None);
      if body.MutatesAgenda() {
        calls := calls[k := calls[k] + 1];
        var done := Perform(body, Effect(agenda, resources), e.catalogue, d.newId);
        if done.None? || d.answer.Raises? {
          Fail(k, true);
          return None;
        }
        agenda, commits := done.value.items, commits + [Commit(k, d.newId)];
        if !d.answer.Commits? {
          Fail(k, true);
          return None;
        }
      }
      Advanced(Called(k, answer));
      var trouble := world(tick).trouble;
      tick := tick + 1;
      if !trouble.Fine? {
        Fail(k, true);
        return None;
      }
      Record(k, APPLIED, Some(answer));
      outcome := Some(answer);
    }

    /** One turn of the event loop: an action is verified, or the event has failed. */
    method TakeTurn(k: nat) returns (proceed: bool)
      requires At(Turn(k)) && Settled(k) && k < |e.actions|
      modifies this`tick, this`rows, this`agenda, this`calls, this`commits, this`resources, this`expected
      ensures tick >= old(tick)
      ensures if proceed then At(Turn(k + 1)) && Settled(k + 1) else At(Finished(false))
    {
      hide Run, Inputs, Advances, Step, Call, Verify, Restore, Perform, Recognize, Recorded;
      Advanced(Turn(k));
      var trouble, body, row := world(tick).trouble, e.actions[k], prior[k];
      tick := tick + 1;
      proceed := false;
      if trouble.Canceled? {
        return;
      }
      if trouble.LeaseLost? {
        Record(k, FAILED, None);
        SkipRemaining(k + 1);
        return;
      }
      if Missing(e.dependencies[k], resources) {
        Record(k, SKIPPED, None);
        SkipRemaining(k + 1);
        return;
      }
      if row.status.VERIFIED? {
        proceed := VerifyAndClose(k, Recorded(body, row));
      } else if body.MutatesAgenda() && !row.status.APPLIED? && agenda != expected {
        var recognized := Recognize(body, agenda, resources);
        if recognized.None? {
          Record(k, FAILED, None);
          SkipRemaining(k + 1);
          return;
        }
        Record(k, APPLIED, recognized);
        proceed := VerifyAndClose(k, recognized.value);
      } else if row.status.APPLIED? {
        proceed := VerifyAndClose(k, Recorded(body, row));
      } else if row.status.PLANNED? {
        var outcome := CallProvider(k);
        if outcome.Some? {
          proceed := VerifyAndClose(k, outcome.value);
        }
      }
      if !proceed {
        SkipRemaining(k + 1);
      }
    }

    /** `_apply_event`.  It ends where the run of the step machine ends.  On success a
        row is VERIFIED if and only if no earlier worker had given it up; one that was
        given up, and found carried out all the same, is as it was. */
    method ApplyEvent() returns (success: bool)
      requires At(Turn(0)) && Settled(0)
      modifies this`tick, this`rows, this`agenda, this`calls, this`commits, this`resources, this`expected
      ensures At(Finished(success))
      ensures |rows| == |prior|
      ensures success ==> forall j :: 0 <= j < |rows| ==> Ended(rows[j], prior[j])
    {
      hide Run, Inputs, Advances, Step, TakeUp, Call, Verify, Restore, Perform, Recognize, Event.Valid;
      var k := 0;
      while k < |e.actions|
        invariant 0 <= k <= |e.actions| && At(Turn(k)) && Settled(k)
      {
        var proceed := TakeTurn(k);
        if !proceed {
          return false;
        }
        k := k + 1;
      }
      Advanced(Turn(k));
      tick := tick + 1;
      success := true;
    }
  }

  predicate GivenUp(row: Row) { row.status.FAILED? || row.status.SKIPPED? }

  /** The row is VERIFIED, or an earlier worker had given it up: then it is as it was. */
  predicate Ended(row: Row, was: Row) {
    && (row.status.VERIFIED? <==> !GivenUp(was))
    && (GivenUp(was) ==> row == was)
  }

  /** The row is given up if and only if an earlier worker did so. */
  predicate Open(row: Row, was: Row) {
    && (GivenUp(row) <==> GivenUp(was))
    && (GivenUp(was) ==> row == was)
  }

  /** Such actions exist: where the effect of a given-up write is found in the agenda,
      three untroubled steps carry the event past it, and its row stays as it was. */
  lemma GivenUpIsPassed(e: Event, w: World, v: Worker, k: nat, answer: Answer, newId: Id)
    requires e.Valid() && w.worker == Some(v) && |v.prior| == |w.rows| == |w.calls| == |e.actions|
    requires k < |e.actions| && v.phase == Turn(k) && v.prior[k] == w.rows[k] && GivenUp(w.rows[k])
    requires e.actions[k].MutatesAgenda() && w.agenda != v.expected && DistinctIds(w.agenda)
    requires !Missing(e.dependencies[k], v.resources)
    requires e.actions[k].InsertItem? ==> NeighbourOf(e.actions[k].place, v.resources).Some?
    requires Recognize(e.actions[k], w.agenda, v.resources).Some?
    ensures var go := Advance(Fine, answer, newId);
            var after := Step(e, Step(e, Step(e, w, go), go), go);
            after.worker.Some? && after.worker.value.phase == Turn(k + 1) && after.rows == w.rows && after.agenda == w.agenda
  {
    hide Verify, Recognize, Perform, Missing, Call, Candidate, DistinctIds;
    FoundIsVerified(e.actions[k], w.agenda, v.resources);
  }

  /** What is recognized in an agenda is verified in it. */
  lemma FoundIsVerified(body: Body, items: Agenda, resources: Resources)
    requires body.MutatesAgenda() && DistinctIds(items)
    requires body.InsertItem? ==> NeighbourOf(body.place, resources).Some?
    requires Recognize(body, items, resources).Some?
    ensures Verify(body, items, resources, Recognize(body, items, resources).value).Some?
  {
    if !body.DeleteOwnedItem? {
      var candidate := Candidate(body, items, resources).value;
      var i :| 0 <= i < |items| && items[i] == candidate;
      assert IndexOf(items, candidate.id) == i;
    }
  }
}
