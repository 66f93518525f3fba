/** A concrete run in which a write is made twice: a slot already shows the first
    song, the second song is inserted, the worker dies before it can record that, and
    the next worker re-verifies the slot, takes the agenda as it finds it for the
    expected one, and inserts again. */
module ExecutorExample {
  import opened Prelude
  import opened Agendas
  import opened Actions
  import opened Reconcile
  import opened Executor

  function Slot(): AgendaItem { AgendaItem("1", SONG, Some("A"), Some("s"), Some("a")) }
  function Header(): AgendaItem { AgendaItem("2", "header", Some("Talk"), None, None) }
  function Inserted(id: Id): AgendaItem { AgendaItem(id, SONG, Some("Song"), Some("s"), Some("a")) }
  function Song(): SongRef { SongRef(Some("s"), None, Some("a"), None) }

  function Keep(): Body { Noop("p:0:w", "p", Song(), "1", false) }
  function Add(): Body {
    InsertItem("p:1:w", "p", Song(), "Song", "agenda:e:p:1:w", ["1", "2"], Before("2"))
  }

  function Two(): Event {
    Event([Keep(), Add()], [[], []], [Slot(), Header()], map[], map["a" := "s"])
  }

  function Go(newId: Id): Input { Advance(Fine, Commits, newId) }

  /** A worker about to take up the slot, which still stands first. */
  predicate AtSlot(w: World) {
    && |w.rows| == |w.calls| == |w.deaths| == 2
    && w.agenda != [] && w.agenda[0] == Slot()
    && w.worker == Some(Worker(Turn(0), w.rows, map[], [Slot(), Header()]))
  }

  /** The slot is dealt with, and the agenda read on the way is the expected one. */
  predicate Settled(w: World, after: World) {
    && after.agenda == w.agenda && after.calls == w.calls && after.deaths == w.deaths && after.commits == w.commits
    && |after.rows| == |w.rows| == 2 && after.rows[1] == w.rows[1]
    && after.rows[0].status.VERIFIED? && after.rows[0].outcome.Some? && after.rows[0].outcome.value.itemId == "1"
    && after.worker == Some(Worker(Turn(1), w.rows, map[], w.agenda))
  }

  function Twice(w: World): World { Step(Two(), Step(Two(), w, Go("x")), Go("x")) }

  /** The steps with which a first worker deals with the slot. */
  lemma SlotFirst(w: World)
    requires AtSlot(w) && w.rows[0] == Row(PLANNED, None)
    ensures Settled(w, Twice(Twice(Step(Two(), w, Go("x")))))
  {
    assert IndexOf(w.agenda, "1") == 0;
  }

  /** The steps with which a later worker re-verifies it. */
  lemma SlotAgain(w: World)
    requires AtSlot(w)
    requires w.rows[0].status.VERIFIED? && w.rows[0].outcome.Some? && w.rows[0].outcome.value.itemId == "1"
    ensures Settled(w, Twice(Step(Two(), w, Go("x"))))
  {
    assert IndexOf(w.agenda, "1") == 0;
  }

  lemma Unroll(e: Event, inputs: seq<Input>, n: nat)
    requires e.Valid() && n < |inputs|
    ensures Run(e, inputs[..n + 1]) == Step(e, Run(e, inputs[..n]), inputs[n])
  {
    assert inputs[..n + 1][..n] == inputs[..n];
  }

  /** The second action, in a world where the agenda is as expected. */
  lemma AddSteps(w: World, agenda: Agenda, newId: Id)
    requires |w.rows| == |w.calls| == |w.deaths| == 2 && w.rows[1] == Row(PLANNED, None)
    requires w.agenda == agenda + [Header()] && forall i :: 0 <= i < |agenda| ==> agenda[i].id != "2"
    requires w.worker.Some? && w.worker.value.phase == Turn(1) && |w.worker.value.prior| == 2
    requires w.worker.value.prior[1] == Row(PLANNED, None)
    requires w.worker.value.resources == map[] && w.worker.value.expected == w.agenda
    ensures var w2 := Step(Two(), Step(Two(), w, Go("x")), Go(newId));
            && w2.agenda == agenda + [Inserted(newId)] + [Header()]
            && w2.calls == w.calls[1 := w.calls[1] + 1] && w2.commits == w.commits + [Commit(1, newId)]
            && w2.rows == w.rows && w2.deaths == w.deaths
            && w2.worker.Some? && w2.worker.value.phase == Called(1, Outcome(newId, None))
  {
    InsertBeforeAt(agenda, Header(), [], Inserted(newId));
    assert agenda + [Header()] + [] == agenda + [Header()];
    assert agenda + [Inserted(newId)] + [Header()] + [] == agenda + [Inserted(newId)] + [Header()];
    assert w.worker.value.expected == w.agenda;
    assert Step(Two(), w, Go("x")).worker.value.phase == Calling(1);
  }

  /** One worker life: take the event up, keep the slot, insert the song, die. */
  function FirstLife(): seq<Input> {
    [Begin, Go("x"), Go("x"), Go("x"), Go("x"), Go("x"), Go("x"), Go("8"), Die]
  }

  function BothLives(): seq<Input> {
    FirstLife() + [Begin, Go("x"), Go("x"), Go("x"), Go("x"), Go("9")]
  }

  lemma FirstLifeWrites()
    ensures Two().Valid()
    ensures var w := Run(Two(), FirstLife());
            && |w.rows| == |w.calls| == |w.deaths| == 2 && w.calls[1] == 1 && w.deaths[1] == 1
            && w.commits == [Commit(1, "8")] && w.worker == None
            && w.agenda == [Slot(), Inserted("8"), Header()] && w.rows[1] == Row(PLANNED, None)
            && w.rows[0].status.VERIFIED? && w.rows[0].outcome.Some? && w.rows[0].outcome.value.itemId == "1"
  {
    hide Step;
    var e, inputs := Two(), FirstLife();
    FirstBegin();
    Unroll(e, inputs, 0); Unroll(e, inputs, 1); Unroll(e, inputs, 2); Unroll(e, inputs, 3); Unroll(e, inputs, 4);
    Unroll(e, inputs, 5); Unroll(e, inputs, 6); Unroll(e, inputs, 7); Unroll(e, inputs, 8);
    assert inputs[..0] == [] && inputs[..9] == inputs;
    var w1 := Run(e, inputs[..1]);
    SlotFirst(w1);
    var w6 := Run(e, inputs[..6]);
    assert [Slot()] + [Header()] == w6.agenda;
    AddSteps(w6, [Slot()], "8");
    DieInWindow(Run(e, inputs[..8]));
    assert [Slot()] + [Inserted("8")] + [Header()] == [Slot(), Inserted("8"), Header()];
  }

  lemma FirstBegin()
    ensures Two().Valid()
    ensures Run(Two(), []) == World([Row(PLANNED, None), Row(PLANNED, None)], [Slot(), Header()], None, [0, 0], [0, 0], [])
    ensures Step(Two(), Run(Two(), []), Begin)
            == Run(Two(), []).(worker := Some(Worker(Turn(0), [Row(PLANNED, None), Row(PLANNED, None)], map[],
                                                     [Slot(), Header()])))
  {
  }

  lemma DieInWindow(w: World)
    requires |w.deaths| == 2 && w.worker.Some? && w.worker.value.phase.Called? && w.worker.value.phase.k == 1
    ensures Step(Two(), w, Die) == w.(worker := None, deaths := w.deaths[1 := w.deaths[1] + 1])
  {
  }

  lemma SecondBegin(w: World)
    requires w.worker == None
    ensures Step(Two(), w, Begin) == w.(worker := Some(Worker(Turn(0), w.rows, map[], [Slot(), Header()])))
  {
  }

  /** Nobody but the workers touched the agenda, every id is new, and yet the second
      song stands twice: its insert was committed twice. */
  lemma WrittenTwice()
    ensures Two().Valid()
    ensures var w := Run(Two(), BothLives());
            && |w.calls| == 2 && w.calls[1] == 2
            && w.commits == [Commit(1, "8"), Commit(1, "9")]
            && w.agenda == [Slot(), Inserted("8"), Inserted("9"), Header()]
  {
    hide Step;
    var e, inputs := Two(), BothLives();
    FirstLifeWrites();
    assert inputs[..9] == FirstLife() && inputs[..15] == inputs;
    Unroll(e, inputs, 9); Unroll(e, inputs, 10); Unroll(e, inputs, 11); Unroll(e, inputs, 12); Unroll(e, inputs, 13);
    Unroll(e, inputs, 14);
    SecondBegin(Run(e, inputs[..9]));
    var w10 := Run(e, inputs[..10]);
    SlotAgain(w10);
    var w13 := Run(e, inputs[..13]);
    assert [Slot(), Inserted("8")] + [Header()] == w13.agenda;
    AddSteps(w13, [Slot(), Inserted("8")], "9");
    assert [Slot(), Inserted("8")] + [Inserted("9")] + [Header()] == [Slot(), Inserted("8"), Inserted("9"), Header()];
  }

  // A run in which an event succeeds with a row that stays FAILED.

  function OnlyAdd(): Body {
    InsertItem("p:0:w", "p", Song(), "Song", "agenda:e:p:0:w", ["2"], Before("2"))
  }

  function One(): Event {
    Event([OnlyAdd()], [[]], [Header()], map[], map["a" := "s"])
  }

  /** The insert is committed but its answer is lost: the row is FAILED.  The worker
      dies before the run is finished; the next one finds the item and goes on. */
  function LostAnswer(): seq<Input> {
    [Begin, Go("x"), Advance(Fine, CommitsThenRaises, "8"), Go("x"), Die, Begin, Go("x"), Go("x"), Go("x"), Go("x")]
  }

  lemma AnswerIsLost()
    ensures One().Valid()
    ensures var w := Run(One(), LostAnswer()[..5]);
            w == World([Row(FAILED, None)], [Inserted("8"), Header()], None, [1], [0], [Commit(0, "8")])
  {
    hide Step;
    var e, inputs := One(), LostAnswer();
    assert inputs[..0] == [];
    Unroll(e, inputs, 0); Unroll(e, inputs, 1); Unroll(e, inputs, 2); Unroll(e, inputs, 3); Unroll(e, inputs, 4);
    FailingSteps();
  }

  function AnswerLost(): World {
    World([Row(PLANNED, None)], [Inserted("8"), Header()],
          Some(Worker(Raised(0, true), [Row(PLANNED, None)], map[], [Header()])), [1], [0], [Commit(0, "8")])
  }

  lemma FailingSteps()
    ensures One().Valid()
    ensures Step(One(), Step(One(), Step(One(), Run(One(), []), Begin), Go("x")), Advance(Fine, CommitsThenRaises, "8")) == AnswerLost()
    ensures Step(One(), Step(One(), AnswerLost(), Go("x")), Die)
            == World([Row(FAILED, None)], [Inserted("8"), Header()], None, [1], [0], [Commit(0, "8")])
  {
    CallingSteps();
    InsertBeforeAt([], Header(), [], Inserted("8"));
    assert [] + [Header()] + [] == [Header()];
    assert [] + [Inserted("8")] + [Header()] + [] == [Inserted("8"), Header()];
  }

  lemma CallingSteps()
    ensures One().Valid()
    ensures Step(One(), Step(One(), Run(One(), []), Begin), Go("x"))
            == World([Row(PLANNED, None)], [Header()], Some(Worker(Calling(0), [Row(PLANNED, None)], map[], [Header()])), [0], [0], [])
  {
    assert Started(One()) == World([Row(PLANNED, None)], [Header()], None, [0], [0], []);
  }

  /** The event succeeds, and its only row is FAILED. */
  lemma SucceedsWithFailedRow()
    ensures One().Valid()
    ensures var w := Run(One(), LostAnswer());
            && w.worker.Some? && w.worker.value.phase == Finished(true)
            && w.rows == [Row(FAILED, None)] && w.agenda == [Inserted("8"), Header()] && w.commits == [Commit(0, "8")]
  {
    hide Step;
    var e, inputs := One(), LostAnswer();
    AnswerIsLost();
    assert inputs[..10] == inputs;
    Unroll(e, inputs, 5); Unroll(e, inputs, 6); Unroll(e, inputs, 7); Unroll(e, inputs, 8); Unroll(e, inputs, 9);
    FindingSteps(Run(e, inputs[..5]));
  }

  lemma FindingSteps(w: World)
    requires w == World([Row(FAILED, None)], [Inserted("8"), Header()], None, [1], [0], [Commit(0, "8")])
    ensures var after := Step(One(), Step(One(), Step(One(), Step(One(), Step(One(), w, Begin), Go("x")), Go("x")), Go("x")), Go("x"));
            && after.worker.Some? && after.worker.value.phase == Finished(true)
            && after.rows == w.rows && after.agenda == w.agenda && after.commits == w.commits
  {
    assert IndexOf(w.agenda, "2") == 1 && IndexOf(w.agenda, "8") == 0;
  }
}
