/** Carrying out the plan of one event (engine.py, _apply_event and
    _execute_or_resume) as atomic steps over durable action rows and the remote
    agenda.  A worker may die between any two steps; the next one starts over with
    the rows as its only memory.  Each step is given what the world decides: whether
    a lease is lost or the run canceled, what the provider answers, and which id it
    gives to a new item. */
module Executor {
  import opened Prelude
  import opened Agendas
  import opened Actions
  import opened Reconcile

  datatype Status = PLANNED | APPLIED | VERIFIED | FAILED | SKIPPED
  {
    predicate Final() { VERIFIED? || FAILED? || SKIPPED? }
  }

  /** The durable row of an action. */
  datatype Row = Row(status: Status, outcome: Option<Outcome>)

  /** One READY event of a plan: its actions with their dependencies, the agenda it
      was planned on, and the resources its preparation produced. */
  datatype Event = Event(
    actions: seq<Body>, dependencies: seq<seq<Key>>, agenda: Agenda, resources: Resources, catalogue: Catalogue)
  {
    predicate Valid() {
      && |dependencies| == |actions|
      && (forall k :: 0 <= k < |actions| ==> !actions[k].CreateSong? && !actions[k].CreateArrangement?)
      && forall k :: 0 <= k < |actions| && actions[k].InsertItem? && actions[k].place.AfterKey? ==>
           actions[k].place.key in dependencies[k]
    }
  }

  /** Where a live worker is, inside action `k`. */
  datatype Phase =
    | Turn(k: nat)
    | Calling(k: nat)
    | Called(k: nat, outcome: Outcome)
    | Raised(k: nat, called: bool)
    | Verifying(k: nat, outcome: Outcome)
    | Closing(k: nat, outcome: Outcome)
    | Skipping(k: nat)
    | Finished(success: bool)

  /** A worker's own memory; it is gone when the worker dies. */
  datatype Worker = Worker(phase: Phase, prior: seq<Row>, resources: Resources, expected: Agenda)

  /** A write the provider committed: for which action, and the id of a new item. */
  datatype Commit = Commit(k: nat, newId: Id)

  /** `calls[k]` counts the provider calls made for action k, `deaths[k]` the workers
      that died between such a call and the row that records it. */
  datatype World = World(
    rows: seq<Row>, agenda: Agenda, worker: Option<Worker>,
    calls: seq<nat>, deaths: seq<nat>, commits: seq<Commit>)

  datatype Trouble = Fine | Canceled | LeaseLost
  datatype Answer = Commits | CommitsThenRaises | Raises
  datatype Input =
    | Begin
    | Die
    | Edit(agenda: Agenda)
    | Advance(trouble: Trouble, answer: Answer, newId: Id)

  /** `_action_finished`: outcomes that are final stay, and an applied action is
      never skipped. */
  function Finish(row: Row, status: Status, outcome: Option<Outcome>): Row {
    if row.status.Final() || (row.status.APPLIED? && (status.PLANNED? || status.SKIPPED?)) then row
    else Row(status, outcome)
  }

  function Started(e: Event): World {
    var n := |e.actions|;
    World(seq(n, i => Row(PLANNED, None)), e.agenda, None, seq(n, i => 0), seq(n, i => 0), [])
  }

  // The pieces of a step.

  predicate Missing(dependencies: seq<Key>, resources: Resources) {
    exists i :: 0 <= i < |dependencies| && dependencies[i] !in resources
  }

  /** `_verify_action`: reads the agenda back. */
  function Verify(body: Body, items: Agenda, resources: Resources, outcome: Outcome): Option<Outcome> {
    if body.CleanupNoop? then Some(outcome)
    else if body.DeleteOwnedItem? then
      if IndexOf(items, outcome.itemId) == |items| then Some(outcome.(seen := Some(items))) else None
    else if body.CreateSong? || body.CreateArrangement? then None
    else
      var item := Find(items, outcome.itemId);
      if item.Some? && ShowsWanted(item.value, body.song, resources) then Some(outcome.(seen := Some(items))) else None
  }

  /** `_restore_resources`, for the actions of an event. */
  function Restore(body: Body, outcome: Outcome, resources: Resources): Resources {
    if body.InsertItem? then resources[body.resourceKey := outcome.itemId] else resources
  }

  function ItemOf(body: Body, newId: Id): Id {
    match body
    case InsertItem(_, _, _, _, _, _, _) => newId
    case ReplaceItem(_, _, _, _, itemId, _) => itemId
    case Noop(_, _, _, itemId, _) => itemId
    case CleanupNoop(_, _, itemId) => itemId
    case DeleteOwnedItem(_, _, itemId) => itemId
    case CreateSong(_, _, _, _, _, _, _, _) => newId
    case CreateArrangement(_, _, _, _) => newId
  }

  function SetRow(w: World, k: nat, status: Status, outcome: Option<Outcome>): World
    requires k < |w.rows|
  {
    w.(rows := w.rows[k := Finish(w.rows[k], status, outcome)])
  }

  function To(w: World, worker: Worker, phase: Phase): World {
    w.(worker := Some(worker.(phase := phase)))
  }

  // One step of a live worker.

  /** Taking up action k: lease and cancellation, dependencies, the row of an earlier
      worker, the agenda fingerprint, and `action_started`. */
  function TakeUp(e: Event, w: World, v: Worker, k: nat, trouble: Trouble): World
    requires e.Valid() && k < |e.actions| == |w.rows| == |v.prior|
  {
    var body, row := e.actions[k], v.prior[k];
    if trouble.Canceled? then To(w, v, Finished(false))
    else if trouble.LeaseLost? then To(SetRow(w, k, FAILED, None), v, Skipping(k + 1))
    else if Missing(e.dependencies[k], v.resources) then To(SetRow(w, k, SKIPPED, None), v, Skipping(k + 1))
    else if row.status.VERIFIED? then To(w, v, Verifying(k, Recorded(body, row)))
    else if body.MutatesAgenda() && !row.status.APPLIED? && w.agenda != v.expected then
      var recognized := Recognize(body, w.agenda, v.resources);
      if recognized.Some? then To(SetRow(w, k, APPLIED, recognized), v, Verifying(k, recognized.value))
      else To(SetRow(w, k, FAILED, None), v, Skipping(k + 1))
    else if row.status.FAILED? || row.status.SKIPPED? then To(w, v, Skipping(k + 1))
    else if row.status.APPLIED? then To(w, v, Verifying(k, Recorded(body, row)))
    else if w.rows[k].status.PLANNED? then To(w, v, Calling(k))
    else To(w, v, Raised(k, false))
  }

  /** The outcome in a row, or the item of the payload where the row has none. */
  function Recorded(body: Body, row: Row): Outcome {
    if row.outcome.Some? then row.outcome.value else Outcome(ItemOf(body, ""), None)
  }

  /** The provider call.  A NOOP calls nobody. */
  function Call(e: Event, w: World, v: Worker, k: nat, answer: Answer, newId: Id): World
    requires k < |e.actions| == |w.calls|
  {
    var body := e.actions[k];
    var outcome := Outcome(ItemOf(body, newId), None);
    if !body.MutatesAgenda() then To(w, v, Called(k, outcome))
    else
      var called := w.(calls := w.calls[k := w.calls[k] + 1]);
      var done := Perform(body, Effect(w.agenda, v.resources), e.catalogue, newId);
      if done.None? || answer.Raises? then To(called, v, Raised(k, true))
      else
        var committed := called.(agenda := done.value.items, commits := w.commits + [Commit(k, newId)]);
        To(committed, v, if answer.Commits? then Called(k, outcome) else Raised(k, true))
  }

  function Work(e: Event, w: World, v: Worker, trouble: Trouble, answer: Answer, newId: Id): World
    requires e.Valid() && |e.actions| == |w.rows| == |v.prior| == |w.calls|
  {
    match v.phase
    case Turn(k) => if k >= |e.actions| then To(w, v, Finished(true)) else TakeUp(e, w, v, k, trouble)
    case Calling(k) => if k >= |e.actions| then w else Call(e, w, v, k, answer, newId)
    case Called(k, outcome) =>
      if k >= |e.actions| then w
      else if !trouble.Fine? then To(w, v, Raised(k, true))
      else To(SetRow(w, k, APPLIED, Some(outcome)), v, Verifying(k, outcome))
    case Raised(k, _) =>
      if k >= |e.actions| then w else To(SetRow(w, k, FAILED, None), v, Skipping(k + 1))
    case Verifying(k, outcome) =>
      if k >= |e.actions| then w
      else
        var verified := Verify(e.actions[k], w.agenda, v.resources, outcome);
        if verified.None? || !trouble.Fine? then To(w, v, Raised(k, false))
        else To(SetRow(w, k, VERIFIED, verified), v, Closing(k, verified.value))
    case Closing(k, outcome) =>
      if k >= |e.actions| then w
      else if !trouble.Fine? then To(w, v, Raised(k, false))
      else
        var restored := v.(resources := Restore(e.actions[k], outcome, v.resources),
                           expected := if outcome.seen.Some? then outcome.seen.value else v.expected);
        To(w, restored, Turn(k + 1))
    case Skipping(k) =>
      if k >= |e.actions| then To(w, v, Finished(false))
      else To(SetRow(w, k, SKIPPED, None), v, Skipping(k + 1))
    case Finished(_) => w
  }

  /** The action of a provider call that the worker has made but not yet recorded. */
  function Unrecorded(e: Event, w: World): Option<nat> {
    match w.worker
    case None => None
    case Some(v) =>
      match v.phase
      case Called(k, _) => if k < |e.actions| && e.actions[k].MutatesAgenda() then Some(k) else None
      case Raised(k, called) => if called && k < |e.actions| && e.actions[k].MutatesAgenda() then Some(k) else None
      case _ => None
  }

  function Dead(e: Event, w: World): World {
    var k := Unrecorded(e, w);
    if k.Some? && k.value < |w.deaths|
    then w.(worker := None, deaths := w.deaths[k.value := w.deaths[k.value] + 1])
    else w.(worker := None)
  }

  function Step(e: Event, w: World, input: Input): World
    requires e.Valid()
  {
    match input
    case Begin =>
      if w.worker.Some? then w
      else w.(worker := Some(Worker(Turn(0), w.rows, e.resources, e.agenda)))
    case Die => Dead(e, w)
    case Edit(agenda) => w.(agenda := agenda)
    case Advance(trouble, answer, newId) =>
      if w.worker.None? || |w.worker.value.prior| != |e.actions| || |w.rows| != |e.actions| || |w.calls| != |e.actions| then w
      else Work(e, w, w.worker.value, trouble, answer, newId)
  }

  function Run(e: Event, inputs: seq<Input>): World
    requires e.Valid()
  {
    if inputs == [] then Started(e)
    else Step(e, Run(e, inputs[..|inputs| - 1]), inputs[|inputs| - 1])
  }
}
