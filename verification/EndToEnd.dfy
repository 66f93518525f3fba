/** From planning to the agenda: the event that the planner makes is one that can be
    carried out safely, and once it has been, the agenda is the one that the theorems
    about plans describe. */
module EndToEnd {
  import opened Agendas
  import opened Actions
  import opened Layout
  import opened Order
  import opened Sorting
  import opened Placements
  import opened PlanTheorems
  import opened Setlist
  import Reconcile
  import Executor
  import ExecutorExact
  import ExecutorFirst

  function DependenciesOf(drafts: seq<Draft>): (r: seq<seq<Key>>)
    ensures |r| == |drafts|
    ensures forall i :: 0 <= i < |drafts| ==> r[i] == drafts[i].dependencies
  {
    seq(|drafts|, i requires 0 <= i < |drafts| => drafts[i].dependencies)
  }

  /** The READY event that planning a job makes; its songs have been prepared. */
  ghost function EventOf(job: Job, rules: seq<PlacementRule>, s: Setting): Executor.Event
    requires job.Valid()
  {
    Executor.Event(Bodies(Drafted(job, rules).drafts), DependenciesOf(Drafted(job, rules).drafts), job.items, s.resources,
                   s.catalogue)
  }

  // Shape.

  /** Chained inserts wait for what they are chained to, and know the agenda. */
  ghost predicate Chained(job: Job, draft: Draft) {
    && !draft.body.CreateSong? && !draft.body.CreateArrangement?
    && (draft.body.InsertItem? ==>
          && draft.body.initialIds == Ids(job.items)
          && (draft.body.place.AfterKey? ==> draft.body.place.key in draft.dependencies))
    && (draft.body.ReplaceItem? ==> Differs(job, draft.body))
  }

  /** The item to be replaced does not show the song yet. */
  ghost predicate Differs(job: Job, body: Body)
    requires body.ReplaceItem?
  {
    exists q :: 0 <= q < |job.items| && job.items[q].id == body.itemId && !SlotShows(body.song, job.items[q])
  }

  ghost predicate AllChained(job: Job, drafts: seq<Draft>) {
    forall i :: 0 <= i < |drafts| ==> Chained(job, drafts[i])
  }

  lemma SongChained(job: Job, rule: PlacementRule, i: nat, p: Planning, c: Cursor)
    requires job.Valid() && i < |job.songIds| && AllChained(job, p.drafts)
    ensures AllChained(job, PlaceSong(job, rule, i, p, c).0.drafts)
  {
  }

  lemma {:induction false} SongsChained(job: Job, rule: PlacementRule, lo: nat, k: nat, p: Planning, c: Cursor)
    requires job.Valid() && lo <= k <= |job.songIds| && AllChained(job, p.drafts)
    ensures AllChained(job, PlaceSongs(job, rule, lo, k, p, c).0.drafts)
  {
    hide AllChained, PlaceSong;
    if k > lo {
      var (p1, c1) := PlaceSongs(job, rule, lo, k - 1, p, c);
      SongsChained(job, rule, lo, k - 1, p, c);
      SongChained(job, rule, k - 1, p1, c1);
    }
  }

  lemma RuleChained(job: Job, rule: PlacementRule, p: Planning)
    requires job.Valid() && AllChained(job, p.drafts)
    ensures AllChained(job, PlaceRule(job, rule, p).drafts)
  {
    if Admitted(job, rule, p) {
      SongsChained(job, rule, SliceStart(rule, |job.songIds|), SliceEnd(rule, |job.songIds|), StartOf(job, rule, p),
                   RuleStart(job, rule));
    }
  }

  lemma {:induction false} RulesChained(job: Job, rules: seq<PlacementRule>)
    requires job.Valid()
    ensures AllChained(job, PlaceRules(job, rules).drafts)
  {
    if rules != [] {
      RulesChained(job, rules[..|rules| - 1]);
      RuleChained(job, rules[|rules| - 1], PlaceRules(job, rules[..|rules| - 1]));
    }
  }

  lemma {:induction false} CleanUpChained(job: Job, rows: seq<Ownership>, p: Planning)
    requires AllChained(job, p.drafts)
    ensures AllChained(job, CleanUpAll(job, rows, p).drafts)
  {
    if rows != [] {
      CleanUpChained(job, rows[..|rows| - 1], p);
    }
  }

  lemma EventIsValid(job: Job, rules: seq<PlacementRule>, s: Setting)
    requires job.Valid()
    ensures EventOf(job, rules, s).Valid()
    ensures forall k :: 0 <= k < |EventOf(job, rules, s).actions| && EventOf(job, rules, s).actions[k].InsertItem? ==>
              EventOf(job, rules, s).actions[k].initialIds == Ids(job.items)
  {
    RulesChained(job, rules);
    CleanUpChained(job, Sort(job.ownerships, OwnershipLeq), PlaceRules(job, rules));
    var drafts := Drafted(job, rules).drafts;
    assert forall k :: 0 <= k < |drafts| ==> Chained(job, drafts[k]);
  }

  // The first write.

  /** The first draft of all, where it inserts, names a neighbour or has none to name. */
  ghost predicate Placed1(job: Job, p: Planning) {
    p.drafts != [] && p.drafts[0].body.InsertItem? ==> Reconcile.Recognizable(p.drafts[0].body, job.items)
  }

  /** A cursor that can only stand at the very end of an agenda behind something. */
  ghost predicate Grounded(job: Job, p: Planning, c: Cursor) {
    && c.at <= |job.items|
    && (p.drafts == [] ==> p.reserved == {} && (c.at == |job.items| ==> job.items == [] || c.lastId.Some?))
  }

  lemma FirstSong(job: Job, rule: PlacementRule, i: nat, p: Planning, c: Cursor)
    requires job.Valid() && i < |job.songIds| && Placed1(job, p) && Grounded(job, p, c) && !c.blocked
    ensures var (p', c') := PlaceSong(job, rule, i, p, c);
            Placed1(job, p') && (p'.drafts == [] ==> p'.reserved == {}) && (!c'.blocked ==> Grounded(job, p', c'))
  {
  }

  lemma {:induction false} FirstSongs(job: Job, rule: PlacementRule, lo: nat, k: nat, p: Planning, c: Cursor)
    requires job.Valid() && lo <= k <= |job.songIds| && Placed1(job, p) && Grounded(job, p, c) && !c.blocked
    ensures var (p', c') := PlaceSongs(job, rule, lo, k, p, c);
            Placed1(job, p') && (p'.drafts == [] ==> p'.reserved == {}) && (!c'.blocked ==> Grounded(job, p', c'))
  {
    if k > lo {
      var (p1, c1) := PlaceSongs(job, rule, lo, k - 1, p, c);
      FirstSongs(job, rule, lo, k - 1, p, c);
      if !c1.blocked {
        FirstSong(job, rule, k - 1, p1, c1);
      }
    }
  }

  lemma FirstRule(job: Job, rule: PlacementRule, p: Planning)
    requires job.Valid() && Placed1(job, p) && (p.drafts == [] ==> p.reserved == {})
    ensures var p' := PlaceRule(job, rule, p);
            Placed1(job, p') && (p'.drafts == [] ==> p'.reserved == {})
  {
    if Admitted(job, rule, p) {
      AnchorFound(rule.anchor, job.items, job.normalize);
      FirstSongs(job, rule, SliceStart(rule, |job.songIds|), SliceEnd(rule, |job.songIds|), StartOf(job, rule, p),
                 RuleStart(job, rule));
    }
  }

  lemma {:induction false} FirstRules(job: Job, rules: seq<PlacementRule>)
    requires job.Valid()
    ensures var p := PlaceRules(job, rules);
            Placed1(job, p) && (p.drafts == [] ==> p.reserved == {})
  {
    if rules != [] {
      FirstRules(job, rules[..|rules| - 1]);
      FirstRule(job, rules[|rules| - 1], PlaceRules(job, rules[..|rules| - 1]));
    }
  }

  /** Songs and arrangements that were created for this run stand in no agenda yet. */
  ghost predicate Novel(job: Job, s: Setting) {
    forall song, q :: song in job.resources.Values && 0 <= q < |job.items|
                      && (song.songId.None? || song.arrangementId.None?) ==>
      !(job.items[q].songId == SongOf(song, s.resources) && job.items[q].arrangementId == ArrangementOf(song, s.resources))
  }

  lemma ReplaceChanges(job: Job, body: Body, s: Setting, newId: Id)
    requires job.Valid() && Novel(job, s) && body.ReplaceItem? && Differs(job, body) && body.song in job.resources.Values
    requires Resolvable(body.song, s.resources, s.catalogue)
    requires Perform(body, Effect(job.items, s.resources), s.catalogue, newId).Some?
    ensures Perform(body, Effect(job.items, s.resources), s.catalogue, newId).value.items != job.items
  {
    var q :| 0 <= q < |job.items| && job.items[q].id == body.itemId && !SlotShows(body.song, job.items[q]);
    assert IndexOf(job.items, body.itemId) == q by {
      IndexIs(job.items, body.itemId, q);
    }
    var after := Perform(body, Effect(job.items, s.resources), s.catalogue, newId).value.items;
    assert after[q].songId == SongOf(body.song, s.resources) && after[q].arrangementId == ArrangementOf(body.song, s.resources);
    assert after[q] != job.items[q];
  }

  lemma DeleteChanges(items: Agenda, id: Id)
    requires !Absent(items, id)
    ensures DeleteItem(items, id) != items
  {
    DeletedIsGone(items, id, id);
  }

  lemma InsertChanges(items: Agenda, place: Neighbour, item: AgendaItem)
    requires InsertSong(items, place, item).Some?
    ensures InsertSong(items, place, item).value != items
  {
    InsertIsAt(items, place, item);
  }

  lemma WriteChanges(job: Job, draft: Draft, s: Setting, newId: Id)
    requires Sound(job) && Available(job, s) && Novel(job, s) && Chained(job, draft)
    requires draft.body.InsertItem? || draft.body.ReplaceItem? ==> draft.body.song in job.resources.Values
    requires draft.body.DeleteOwnedItem? ==> !Absent(job.items, draft.body.itemId)
    requires draft.body.MutatesAgenda() && Perform(draft.body, Effect(job.items, s.resources), s.catalogue, newId).Some?
    ensures Perform(draft.body, Effect(job.items, s.resources), s.catalogue, newId).value.items != job.items
  {
    var body := draft.body;
    if body.InsertItem? {
      InsertChanges(job.items, NeighbourOf(body.place, s.resources).value,
                    SongItem(newId, body.title, ArrangementOf(body.song, s.resources).value, s.catalogue));
    } else if body.ReplaceItem? {
      ReplaceChanges(job, body, s, newId);
    } else {
      DeleteChanges(job.items, body.itemId);
    }
  }

  lemma CleanupLeads(bodies: seq<Body>, k: nat)
    requires k <= |bodies| && ExecutorExact.AllCleanup(bodies[..k])
    ensures k == 0 || bodies[0].CleanupNoop?
  {
    assert k > 0 ==> bodies[..k][0] == bodies[0];
  }

  /** What is known of the draft that can be an event's first write. */
  lemma FirstWrite(job: Job, rules: seq<PlacementRule>, k: nat)
    requires Sound(job) && k < |Drafted(job, rules).drafts|
    requires ExecutorExact.AllCleanup(Bodies(Drafted(job, rules).drafts)[..k])
    ensures var draft := Drafted(job, rules).drafts[k];
            && Chained(job, draft) && Reconcile.Recognizable(draft.body, job.items)
            && (draft.body.InsertItem? || draft.body.ReplaceItem? ==> draft.body.song in job.resources.Values)
            && (draft.body.DeleteOwnedItem? ==> !Absent(job.items, draft.body.itemId))
  {
    var p0, p := PlaceRules(job, rules), Drafted(job, rules);
    DraftedIsCleaned(job, rules);
    RulesChained(job, rules);
    CleanUpChained(job, Sort(job.ownerships, OwnershipLeq), p0);
    assert Chained(job, p.drafts[k]);
    FirstRules(job, rules);
    if k < |p0.drafts| {
      assert p.drafts[k] == p0.drafts[k] && Bodies(p0.drafts)[k] == p0.drafts[k].body;
      CleanupLeads(Bodies(p.drafts), k);
      assert Bodies(p.drafts)[0] == Bodies(p0.drafts)[0];
    } else {
      var o := CleanupOwner(job, job.ownerships, p0, p, k);
    }
  }

  /** A planned event starts with a write that can be recognized after a crash. */
  lemma PlannedIsWellStarted(job: Job, rules: seq<PlacementRule>, s: Setting)
    requires Sound(job) && Available(job, s) && Novel(job, s)
    ensures ExecutorExact.WellStarted(EventOf(job, rules, s))
  {
    var e := EventOf(job, rules, s);
    EventIsValid(job, rules, s);
    forall k | 0 <= k < |e.actions| && e.actions[k].MutatesAgenda() && ExecutorExact.AllCleanup(e.actions[..k])
      ensures ExecutorExact.FirstWriteShows(e, e.actions[k])
    {
      var draft := Drafted(job, rules).drafts[k];
      FirstWrite(job, rules, k);
      forall newId: Id | Perform(draft.body, Effect(job.items, s.resources), s.catalogue, newId).Some?
        ensures Perform(draft.body, Effect(job.items, s.resources), s.catalogue, newId).value.items != job.items
      {
        WriteChanges(job, draft, s, newId);
      }
    }
  }

  /** Through any number of deaths and restarts: once every row of the planned event is
      VERIFIED, the agenda is the one the plan promises, for the ids the provider gave
      -- unless somebody else edited it, or a worker died between a later write of the
      event and its row (module ExecutorExact says what happens then). */
  lemma CarriedOutIsPromised(job: Job, rules: seq<PlacementRule>, s: Setting, inputs: seq<Executor.Input>)
    returns (newIds: seq<Id>)
    requires Sound(job) && Available(job, s) && Novel(job, s) && !HasErrors(Drafted(job, rules).issues)
    requires EventOf(job, rules, s).Valid() && ExecutorExact.PeacefulRun(EventOf(job, rules, s), inputs)
    requires ExecutorExact.DeathsAtFirst(EventOf(job, rules, s), Executor.Run(EventOf(job, rules, s), inputs))
    requires ExecutorExact.AllVerified(EventOf(job, rules, s), Executor.Run(EventOf(job, rules, s), inputs))
    ensures Executable(job, rules, newIds, s)
    ensures Executor.Run(EventOf(job, rules, s), inputs).agenda == Final(job, rules, newIds, s)
  {
    var e := EventOf(job, rules, s);
    PlannedIsWellStarted(job, rules, s);
    newIds := ExecutorExact.VerifiedMeansCarriedOut(e, inputs);
    assert Planned(job, rules) == e.actions;
  }

  /** The first write of a planned event is committed at most once, in every run without
      foreign edits: whoever dies where, whatever is lost, canceled or refused. */
  lemma PlannedFirstWriteIsOnce(job: Job, rules: seq<PlacementRule>, s: Setting, inputs: seq<Executor.Input>, k: nat)
    requires Sound(job) && Available(job, s) && Novel(job, s) && ExecutorFirst.NoEdits(inputs)
    requires ExecutorFirst.FirstToWrite(EventOf(job, rules, s), k)
    ensures EventOf(job, rules, s).Valid()
    ensures ExecutorFirst.Once(Executor.Run(EventOf(job, rules, s), inputs).commits, k)
  {
    PlannedIsWellStarted(job, rules, s);
    ExecutorFirst.FirstWriteOnce(EventOf(job, rules, s), inputs, k);
  }
}
