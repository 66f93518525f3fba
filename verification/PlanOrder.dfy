/** The plan means the setlist: in the agenda that performing a plan leaves, the
    songs of every placement stand in setlist order, each showing the wanted song,
    and every other item keeps its place. */
module PlanOrder {
  import opened Prelude
  import opened Agendas
  import opened Actions
  import opened Layout
  import opened LayoutProofs
  import opened Order
  import opened Placements
  import opened PlanShape
  import opened PlanTheorems

  /** A sound job whose songs are available, and new ids for its inserts. */
  ghost predicate Setup(job: Job, newIds: seq<Id>, s: Setting) {
    Sound(job) && Available(job, s) && Fresh(newIds, job.items)
  }

  ghost predicate Runs(job: Job, drafts: seq<Draft>, newIds: seq<Id>, s: Setting) {
    && Setup(job, newIds, s) && |drafts| <= |newIds|
    && WellPlanned(Bodies(drafts), job.items) && Placeable(Bodies(drafts), s)
  }

  /** The agenda and the resources once `drafts` have been performed. */
  ghost function After(job: Job, drafts: seq<Draft>, newIds: seq<Id>, s: Setting): Effect
    requires Runs(job, drafts, newIds, s)
  {
    Effect(Laid(Bodies(drafts), newIds[..|drafts|], job.items, s),
           ResourcesAfter(Bodies(drafts), newIds[..|drafts|], s.resources))
  }

  /** The agenda item that draft `j` is about. */
  ghost function Target(drafts: seq<Draft>, newIds: seq<Id>, j: nat): Id
    requires j < |drafts| <= |newIds|
    requires drafts[j].body.PlacesSong()
  {
    if drafts[j].body.InsertItem? then newIds[j] else drafts[j].body.itemId
  }

  lemma PlacedRuns(job: Job, p: Planning, newIds: seq<Id>, s: Setting)
    requires Setup(job, newIds, s) && Placed(job, p) && |p.drafts| <= |newIds|
    ensures Runs(job, p.drafts, newIds, s)
  {
    var bodies := Bodies(p.drafts);
    forall i | 0 <= i < |bodies| && bodies[i].InsertItem? ensures IsAgendaKey(bodies[i].resourceKey) {
      AgendaKeyShape(job.eventId, bodies[i].sourceKey);
    }
  }

  /** Performing one more draft leads from one After to the next. */
  lemma AfterStep(job: Job, drafts: seq<Draft>, draft: Draft, newIds: seq<Id>, s: Setting)
    requires Runs(job, drafts + [draft], newIds, s)
    ensures Runs(job, drafts, newIds, s)
    ensures var on := After(job, drafts, newIds, s);
            && Absent(on.items, newIds[|drafts|])
            && Perform(draft.body, on, s.catalogue, newIds[|drafts|])
               == Some(After(job, drafts + [draft], newIds, s))
  {
    var k := |drafts|;
    var all := Bodies(drafts + [draft]);
    assert all[..k] == Bodies(drafts);
    WellPlannedPrefix(all, job.items, k);
    FreshPrefix(newIds, job.items, k);
    FreshPrefix(newIds, job.items, k + 1);
    PerformAllIsLaid(Bodies(drafts), newIds[..k], job.items, s);
    PerformAllIsLaid(all, newIds[..k + 1], job.items, s);
    assert newIds[..k + 1][..k] == newIds[..k];
    NewIdAbsent(job, drafts, newIds, s);
  }

  lemma NewIdAbsent(job: Job, drafts: seq<Draft>, newIds: seq<Id>, s: Setting)
    requires Runs(job, drafts, newIds, s) && |drafts| < |newIds|
    ensures Absent(After(job, drafts, newIds, s).items, newIds[|drafts|])
  {
    var ids, id := newIds[..|drafts|], newIds[|drafts|];
    assert id !in AsSet(ids) && id !in IdSet(job.items);
    CellsLack(Bodies(drafts), ids, job.items, id, s);
    TailLacks(Bodies(drafts), ids, id, s);
    LacksAll(CellsOf(Bodies(drafts), ids, job.items, s), TailOf(Bodies(drafts), ids, s), [], id);
  }

  lemma NothingAfter(job: Job, newIds: seq<Id>, s: Setting)
    requires Setup(job, newIds, s)
    ensures Runs(job, [], newIds, s)
    ensures After(job, [], newIds, s) == Effect(job.items, s.resources)
  {
    NothingLaid(job.items, s);
    assert Bodies([]) == [] && newIds[..0] == [];
  }

  // What holds of the agenda while placements are being performed.

  /** Every original item is there, in the original order. */
  ghost predicate OriginalsInOrder(items: Agenda, now: Agenda) {
    && (forall q :: 0 <= q < |items| ==> !Absent(now, items[q].id))
    && (forall q, q' :: 0 <= q < q' < |items| ==> Precedes(now, items[q].id, items[q'].id))
  }

  ghost predicate UnclaimedUntouched(items: Agenda, reserved: set<Id>, now: Agenda) {
    forall q :: 0 <= q < |items| && items[q].id !in reserved ==>
      !Absent(now, items[q].id) && now[IndexOf(now, items[q].id)] == items[q]
  }

  ghost predicate ShowsSong(now: Agenda, id: Id, song: SongRef, s: Setting) {
    && !Absent(now, id)
    && SongOf(song, s.resources).Some? && ArrangementOf(song, s.resources).Some?
    && now[IndexOf(now, id)].Shows(SongOf(song, s.resources).value, ArrangementOf(song, s.resources).value)
  }

  ghost predicate AllShown(drafts: seq<Draft>, newIds: seq<Id>, now: Agenda, s: Setting) {
    && |drafts| <= |newIds|
    && forall j :: 0 <= j < |drafts| ==>
         drafts[j].body.PlacesSong()
         && ShowsSong(now, Target(drafts, newIds, j), drafts[j].body.song, s)
  }

  ghost predicate Tidy(job: Job, p: Planning, newIds: seq<Id>, s: Setting) {
    && Placed(job, p) && Runs(job, p.drafts, newIds, s)
    && var now := After(job, p.drafts, newIds, s).items;
       && OriginalsInOrder(job.items, now)
       && UnclaimedUntouched(job.items, p.reserved, now)
       && AllShown(p.drafts, newIds, now, s)
  }

  /** The drafts from `b` on stand in order, and before everything under the cursor. */
  ghost predicate InOrder(drafts: seq<Draft>, newIds: seq<Id>, b: nat, e: nat, now: Agenda) {
    && b <= e <= |drafts| <= |newIds|
    && (forall j :: b <= j < e ==> drafts[j].body.PlacesSong())
    && forall j, j' :: b <= j < j' < e ==>
         Precedes(now, Target(drafts, newIds, j), Target(drafts, newIds, j'))
  }

  ghost predicate Ahead(drafts: seq<Draft>, newIds: seq<Id>, b: nat, at: nat, items: Agenda, now: Agenda) {
    && b <= |drafts| <= |newIds|
    && (forall j :: b <= j < |drafts| ==> drafts[j].body.PlacesSong())
    && forall j, q :: b <= j < |drafts| && at <= q < |items| ==>
         Precedes(now, Target(drafts, newIds, j), items[q].id)
  }

  /** The neighbour for the next insert is the song placed last. */
  ghost predicate LastIsNeighbour(drafts: seq<Draft>, newIds: seq<Id>, b: nat, c: Cursor) {
    |drafts| > b ==>
      && |drafts| <= |newIds| && drafts[|drafts| - 1].body.PlacesSong()
      && ((c.lastId == Some(Target(drafts, newIds, |drafts| - 1)) && c.lastKey == None)
          || (c.lastId == None && c.lastKey.Some? && drafts[|drafts| - 1].body.InsertItem?))
  }

  // One performed draft keeps all this.

  lemma StepKeepsTidy(job: Job, p: Planning, draft: Draft, newIds: seq<Id>, s: Setting)
    requires Tidy(job, p, newIds, s) && Runs(job, p.drafts + [draft], newIds, s)
    requires draft.body.PlacesSong()
    requires TargetOf(draft.body).Some? ==> TargetOf(draft.body).value !in p.reserved
    ensures var now := After(job, p.drafts + [draft], newIds, s).items;
            var reserved := if TargetOf(draft.body).Some? then p.reserved + {TargetOf(draft.body).value} else p.reserved;
            && OriginalsInOrder(job.items, now)
            && UnclaimedUntouched(job.items, reserved, now)
            && AllShown(p.drafts, newIds, now, s)
  {
    AfterStep(job, p.drafts, draft, newIds, s);
    var on, k := After(job, p.drafts, newIds, s), |p.drafts|;
    OriginalsStay(job.items, draft.body, on, s.catalogue, newIds[k]);
    var now := After(job, p.drafts + [draft], newIds, s).items;
    forall q | 0 <= q < |job.items| && job.items[q].id !in p.reserved && TargetOf(draft.body) != Some(job.items[q].id)
      ensures !Absent(now, job.items[q].id) && now[IndexOf(now, job.items[q].id)] == job.items[q]
    {
      PerformKeepsItem(draft.body, on, s.catalogue, newIds[k], job.items[q].id);
    }
    forall j | 0 <= j < k ensures ShowsSong(now, Target(p.drafts, newIds, j), p.drafts[j].body.song, s) {
      assert Bodies(p.drafts)[j] == p.drafts[j].body;
      PerformKeepsItem(draft.body, on, s.catalogue, newIds[k], Target(p.drafts, newIds, j));
    }
  }

  lemma OriginalsStay(items: Agenda, body: Body, on: Effect, catalogue: Catalogue, newId: Id)
    requires OriginalsInOrder(items, on.items) && body.PlacesSong()
    requires Perform(body, on, catalogue, newId).Some? && Absent(on.items, newId)
    ensures OriginalsInOrder(items, Perform(body, on, catalogue, newId).value.items)
  {
    hide Perform, IndexOf, Precedes;
    var now := Perform(body, on, catalogue, newId).value.items;
    forall q | 0 <= q < |items| ensures !Absent(now, items[q].id) {
      StepKeepsPresence(body, on, catalogue, newId, items[q].id);
    }
    forall q, q' | 0 <= q < q' < |items| ensures Precedes(now, items[q].id, items[q'].id) {
      PerformKeepsOrder(body, on, catalogue, newId, items[q].id, items[q'].id);
    }
  }

  lemma StepKeepsPresence(body: Body, on: Effect, catalogue: Catalogue, newId: Id, x: Id)
    requires Perform(body, on, catalogue, newId).Some? && body.PlacesSong()
    requires Absent(on.items, newId) && !Absent(on.items, x)
    ensures !Absent(Perform(body, on, catalogue, newId).value.items, x)
  {
    if body.ReplaceItem? {
      var item := SongItem(body.itemId, body.title, ArrangementOf(body.song, on.resources).value, catalogue);
      IndexAfterReplace(on.items, IndexOf(on.items, body.itemId), item, x);
    } else {
      PerformKeepsItem(body, on, catalogue, newId, x);
    }
  }

  /** The order reached so far survives one more draft. */
  lemma StepKeepsOrder(job: Job, drafts: seq<Draft>, draft: Draft, newIds: seq<Id>, s: Setting, b: nat, e: nat)
    requires Runs(job, drafts + [draft], newIds, s) && Runs(job, drafts, newIds, s)
    requires draft.body.DeleteOwnedItem? ==>
               forall j :: b <= j < e && j < |drafts| && drafts[j].body.PlacesSong() ==>
                 Target(drafts, newIds, j) != draft.body.itemId
    requires InOrder(drafts, newIds, b, e, After(job, drafts, newIds, s).items)
    ensures InOrder(drafts + [draft], newIds, b, e, After(job, drafts + [draft], newIds, s).items)
  {
    AfterStep(job, drafts, draft, newIds, s);
    var on, k := After(job, drafts, newIds, s), |drafts|;
    var longer := drafts + [draft];
    forall j | 0 <= j < k ensures longer[j] == drafts[j] {}
    forall j, j' | b <= j < j' < e
      ensures Precedes(After(job, longer, newIds, s).items, Target(longer, newIds, j), Target(longer, newIds, j'))
    {
      assert Precedes(on.items, Target(drafts, newIds, j), Target(drafts, newIds, j'));
      PerformKeepsOrder(draft.body, on, s.catalogue, newIds[k], Target(drafts, newIds, j), Target(drafts, newIds, j'));
    }
  }

  lemma StepKeepsAhead(job: Job, drafts: seq<Draft>, draft: Draft, newIds: seq<Id>, s: Setting, b: nat, at: nat, j: nat, q: nat)
    requires Runs(job, drafts + [draft], newIds, s) && Runs(job, drafts, newIds, s)
    requires draft.body.PlacesSong() && b <= j < |drafts| && at <= q < |job.items|
    requires Ahead(drafts, newIds, b, at, job.items, After(job, drafts, newIds, s).items)
    ensures Precedes(After(job, drafts + [draft], newIds, s).items, Target(drafts, newIds, j), job.items[q].id)
  {
    AfterStep(job, drafts, draft, newIds, s);
    PerformKeepsOrder(draft.body, After(job, drafts, newIds, s), s.catalogue, newIds[|drafts|],
                      Target(drafts, newIds, j), job.items[q].id);
  }

  lemma OneLonger(drafts: seq<Draft>, draft: Draft, newIds: seq<Id>, b: nat, now: Agenda)
    requires InOrder(drafts + [draft], newIds, b, |drafts|, now) && draft.body.PlacesSong()
    requires forall j :: b <= j < |drafts| ==>
               Precedes(now, Target(drafts + [draft], newIds, j), Target(drafts + [draft], newIds, |drafts|))
    requires |drafts| < |newIds|
    ensures InOrder(drafts + [draft], newIds, b, |drafts| + 1, now)
  {
  }

  /** Claiming the slot under the cursor. */
  lemma SlotStep(job: Job, p: Planning, draft: Draft, newIds: seq<Id>, s: Setting, b: nat, c: Cursor, at: nat)
    requires Tidy(job, p, newIds, s) && Runs(job, p.drafts + [draft], newIds, s)
    requires c.at <= at < |job.items| && job.items[at].id !in p.reserved && job.items[at].IsSong()
    requires ClaimsSlot(draft.body) && draft.body.itemId == job.items[at].id && draft.body.song in job.resources.Values
    requires draft.body.Noop? ==> SlotShows(draft.body.song, job.items[at])
    requires var now := After(job, p.drafts, newIds, s).items;
             InOrder(p.drafts, newIds, b, |p.drafts|, now) && Ahead(p.drafts, newIds, b, c.at, job.items, now)
    ensures var drafts := p.drafts + [draft];
            var now := After(job, drafts, newIds, s).items;
            && InOrder(drafts, newIds, b, |drafts|, now)
            && Ahead(drafts, newIds, b, at + 1, job.items, now)
            && ShowsSong(now, job.items[at].id, draft.body.song, s)
  {
    hide After, Tidy, Runs, ShowsSong, Precedes, SlotShows, IndexOf, AllShown, UnclaimedUntouched, Bodies;
    AfterStep(job, p.drafts, draft, newIds, s);
    var drafts, k := p.drafts + [draft], |p.drafts|;
    var now := After(job, drafts, newIds, s).items;
    StepKeepsTidy(job, p, draft, newIds, s);
    StepKeepsOrder(job, p.drafts, draft, newIds, s, b, k);
    forall j | b <= j < k
      ensures Target(drafts, newIds, j) == Target(p.drafts, newIds, j)
      ensures Precedes(now, Target(drafts, newIds, j), Target(drafts, newIds, k))
    {
      StepKeepsAhead(job, p.drafts, draft, newIds, s, b, c.at, j, at);
    }
    OneLonger(p.drafts, draft, newIds, b, now);
    forall j, q | b <= j < |drafts| && at + 1 <= q < |job.items|
      ensures Precedes(now, Target(drafts, newIds, j), job.items[q].id)
    {
      if j < k {
        StepKeepsAhead(job, p.drafts, draft, newIds, s, b, c.at, j, q);
      }
    }
    SlotShowsSong(job, p, draft, newIds, s, at);
  }

  lemma SlotShowsSong(job: Job, p: Planning, draft: Draft, newIds: seq<Id>, s: Setting, at: nat)
    requires Tidy(job, p, newIds, s) && Runs(job, p.drafts + [draft], newIds, s)
    requires at < |job.items| && job.items[at].id !in p.reserved && job.items[at].IsSong()
    requires ClaimsSlot(draft.body) && draft.body.itemId == job.items[at].id && draft.body.song in job.resources.Values
    requires draft.body.Noop? ==> SlotShows(draft.body.song, job.items[at])
    ensures ShowsSong(After(job, p.drafts + [draft], newIds, s).items, job.items[at].id, draft.body.song, s)
  {
    hide Laid, ResourcesAfter, Placed, OriginalsInOrder, AllShown, WellPlanned, Placeable, Bodies;
    AfterStep(job, p.drafts, draft, newIds, s);
    if draft.body.ReplaceItem? {
      ResolvesNow(job, p.drafts, draft, newIds, s);
      ReplacedShows(draft.body, After(job, p.drafts, newIds, s), s.catalogue, newIds[|p.drafts|]);
    }
  }

  lemma ReplacedShows(body: Body, on: Effect, catalogue: Catalogue, newId: Id)
    requires body.ReplaceItem? && Perform(body, on, catalogue, newId).Some?
    ensures ArrangementOf(body.song, on.resources).Some?
    ensures var now := Perform(body, on, catalogue, newId).value.items;
            && ArrangementOf(body.song, on.resources).value in catalogue
            && !Absent(now, body.itemId)
            && now[IndexOf(now, body.itemId)]
               == SongItem(body.itemId, body.title, ArrangementOf(body.song, on.resources).value, catalogue)
  {
    var item := SongItem(body.itemId, body.title, ArrangementOf(body.song, on.resources).value, catalogue);
    IndexAfterReplace(on.items, IndexOf(on.items, body.itemId), item, body.itemId);
  }

  /** Inserts made so far do not change what a song refers to. */
  lemma ResolvesNow(job: Job, drafts: seq<Draft>, draft: Draft, newIds: seq<Id>, s: Setting)
    requires Runs(job, drafts, newIds, s) && Runs(job, drafts + [draft], newIds, s)
    requires draft.body.InsertItem? || draft.body.ReplaceItem?
    ensures var r := After(job, drafts, newIds, s).resources;
            && ArrangementOf(draft.body.song, r) == ArrangementOf(draft.body.song, s.resources)
            && SongOf(draft.body.song, r) == SongOf(draft.body.song, s.resources)
  {
    var k, bodies := |drafts|, Bodies(drafts + [draft]);
    assert bodies[k] == draft.body && bodies[..k] == Bodies(drafts) && newIds[..k + 1][..k] == newIds[..k];
    SongsResolveAlike(bodies, newIds[..k + 1], s.resources, k);
  }

  /** Inserting a song: directly before the item under the cursor, or at the end
      directly after the song placed last. */
  lemma InsertStep(job: Job, p: Planning, draft: Draft, newIds: seq<Id>, s: Setting, b: nat, c: Cursor, at: nat)
    requires Inserting(job, p, draft, newIds, s, b, c, at)
    ensures var drafts := p.drafts + [draft];
            var now := After(job, drafts, newIds, s).items;
            && InOrder(drafts, newIds, b, |drafts|, now)
            && Ahead(drafts, newIds, b, at, job.items, now)
  {
    var drafts, k := p.drafts + [draft], |p.drafts|;
    var now := After(job, drafts, newIds, s).items;
    StepKeepsOrder(job, p.drafts, draft, newIds, s, b, k);
    forall j | b <= j < k
      ensures Precedes(now, Target(drafts, newIds, j), Target(drafts, newIds, k))
    {
      EarlierPrecedes(job, p, draft, newIds, s, b, c, at, j);
    }
    OneLonger(p.drafts, draft, newIds, b, now);
    forall j, q | b <= j < |drafts| && at <= q < |job.items|
      ensures Precedes(now, Target(drafts, newIds, j), job.items[q].id)
    {
      if j < k {
        StepKeepsAhead(job, p.drafts, draft, newIds, s, b, c.at, j, q);
      } else {
        NewPrecedes(job, p, draft, newIds, s, b, c, at, q);
      }
    }
  }

  /** The situation in which a song is inserted. */
  ghost predicate Inserting(job: Job, p: Planning, draft: Draft, newIds: seq<Id>, s: Setting, b: nat, c: Cursor, at: nat) {
    && Tidy(job, p, newIds, s) && Runs(job, p.drafts + [draft], newIds, s)
    && c.at <= at <= |job.items|
    && draft.body.InsertItem? && draft.body.place == PlaceFor(job.items, at, c.lastId, c.lastKey)
    && draft.body.song in job.resources.Values
    && Steady(job, p, c) && LastIsNeighbour(p.drafts, newIds, b, c)
    && var now := After(job, p.drafts, newIds, s).items;
       InOrder(p.drafts, newIds, b, |p.drafts|, now) && Ahead(p.drafts, newIds, b, c.at, job.items, now)
  }

  lemma EarlierPrecedes(job: Job, p: Planning, draft: Draft, newIds: seq<Id>, s: Setting, b: nat, c: Cursor, at: nat, j: nat)
    requires Inserting(job, p, draft, newIds, s, b, c, at) && b <= j < |p.drafts|
    ensures Precedes(After(job, p.drafts + [draft], newIds, s).items,
                     Target(p.drafts, newIds, j), newIds[|p.drafts|])
  {
    if at < |job.items| {
      InsertedAfterEarlier(job, p, draft, newIds, s, b, c, at, j);
    } else {
      FollowsLast(job, p, draft, newIds, s, b, c);
      if j < |p.drafts| - 1 {
        PrecedesLast(job, p, draft, newIds, s, b, c, at, j);
        Transitive(After(job, p.drafts + [draft], newIds, s).items, Target(p.drafts, newIds, j),
                   Target(p.drafts, newIds, |p.drafts| - 1), newIds[|p.drafts|]);
      }
    }
  }

  lemma Transitive(items: Agenda, x: Id, y: Id, z: Id)
    requires Precedes(items, x, y) && Precedes(items, y, z)
    ensures Precedes(items, x, z)
  {
  }

  lemma PrecedesLast(job: Job, p: Planning, draft: Draft, newIds: seq<Id>, s: Setting, b: nat, c: Cursor, at: nat, j: nat)
    requires Inserting(job, p, draft, newIds, s, b, c, at) && b <= j < |p.drafts| - 1
    ensures Precedes(After(job, p.drafts + [draft], newIds, s).items,
                     Target(p.drafts, newIds, j), Target(p.drafts, newIds, |p.drafts| - 1))
  {
    StepKeepsPair(job, p.drafts, draft, newIds, s, Target(p.drafts, newIds, j), Target(p.drafts, newIds, |p.drafts| - 1));
  }

  lemma StepKeepsPair(job: Job, drafts: seq<Draft>, draft: Draft, newIds: seq<Id>, s: Setting, x: Id, y: Id)
    requires Runs(job, drafts + [draft], newIds, s) && Runs(job, drafts, newIds, s)
    requires !draft.body.DeleteOwnedItem? && Precedes(After(job, drafts, newIds, s).items, x, y)
    ensures Precedes(After(job, drafts + [draft], newIds, s).items, x, y)
  {
    AfterStep(job, drafts, draft, newIds, s);
    PerformKeepsOrder(draft.body, After(job, drafts, newIds, s), s.catalogue, newIds[|drafts|], x, y);
  }

  lemma NewPrecedes(job: Job, p: Planning, draft: Draft, newIds: seq<Id>, s: Setting, b: nat, c: Cursor, at: nat, q: nat)
    requires Inserting(job, p, draft, newIds, s, b, c, at) && at <= q < |job.items|
    ensures Precedes(After(job, p.drafts + [draft], newIds, s).items, newIds[|p.drafts|], job.items[q].id)
  {
    InsertedWhere(job, p, draft, newIds, s);
    StepKeepsTidy(job, p, draft, newIds, s);
  }

  /** The performed insert, spelled out. */
  lemma InsertedWhere(job: Job, p: Planning, draft: Draft, newIds: seq<Id>, s: Setting)
    requires Tidy(job, p, newIds, s) && Runs(job, p.drafts + [draft], newIds, s)
    requires draft.body.InsertItem? && draft.body.song in job.resources.Values
    ensures var k, on := |p.drafts|, After(job, p.drafts, newIds, s);
            var now := After(job, p.drafts + [draft], newIds, s).items;
            && NeighbourOf(draft.body.place, on.resources).Some?
            && Absent(on.items, newIds[k])
            && Resolvable(draft.body.song, s.resources, s.catalogue)
            && InsertSong(on.items, NeighbourOf(draft.body.place, on.resources).value, Item(draft.body, newIds[k], s))
               == Some(now)
            && ShowsSong(now, newIds[k], draft.body.song, s)
            && (draft.body.place.Before? ==> Precedes(now, newIds[k], draft.body.place.itemId))
  {
    var k, on := |p.drafts|, After(job, p.drafts, newIds, s);
    AfterStep(job, p.drafts, draft, newIds, s);
    ResolvesNow(job, p.drafts, draft, newIds, s);
    InsertedStands(on.items, NeighbourOf(draft.body.place, on.resources).value, Item(draft.body, newIds[k], s));
  }

  lemma InsertedAfterEarlier(job: Job, p: Planning, draft: Draft, newIds: seq<Id>, s: Setting, b: nat, c: Cursor,
                             at: nat, j: nat)
    requires Tidy(job, p, newIds, s) && Runs(job, p.drafts + [draft], newIds, s)
    requires draft.body.InsertItem? && draft.body.song in job.resources.Values
    requires c.at <= at < |job.items| && draft.body.place == Before(job.items[at].id)
    requires b <= j < |p.drafts|
    requires Ahead(p.drafts, newIds, b, c.at, job.items, After(job, p.drafts, newIds, s).items)
    ensures Precedes(After(job, p.drafts + [draft], newIds, s).items, Target(p.drafts, newIds, j), newIds[|p.drafts|])
  {
    var k, on := |p.drafts|, After(job, p.drafts, newIds, s);
    InsertedWhere(job, p, draft, newIds, s);
    InsertedFollows(on.items, BeforeItem(job.items[at].id), Item(draft.body, newIds[k], s), Target(p.drafts, newIds, j));
  }

  /** The key of the insert before resolves to the item it made. */
  lemma KeyOfLast(job: Job, p: Planning, newIds: seq<Id>, s: Setting, key: Key)
    requires Runs(job, p.drafts, newIds, s) && p.drafts != []
    requires p.drafts[|p.drafts| - 1].body.InsertItem? && p.drafts[|p.drafts| - 1].body.resourceKey == key
    ensures var resources := After(job, p.drafts, newIds, s).resources;
            key in resources && resources[key] == newIds[|p.drafts| - 1]
  {
    assert Bodies(p.drafts)[|p.drafts| - 1] == p.drafts[|p.drafts| - 1].body;
  }

  lemma FollowsLast(job: Job, p: Planning, draft: Draft, newIds: seq<Id>, s: Setting, b: nat, c: Cursor)
    requires Inserting(job, p, draft, newIds, s, b, c, |job.items|) && b < |p.drafts|
    ensures Precedes(After(job, p.drafts + [draft], newIds, s).items,
                     Target(p.drafts, newIds, |p.drafts| - 1), newIds[|p.drafts|])
  {
    var k, on := |p.drafts|, After(job, p.drafts, newIds, s);
    if c.lastKey.Some? {
      KeyOfLast(job, p, newIds, s, c.lastKey.value);
    }
    assert NeighbourOf(draft.body.place, on.resources) == Some(AfterItem(Target(p.drafts, newIds, k - 1)));
    InsertedWhere(job, p, draft, newIds, s);
    InsertedStands(on.items, AfterItem(Target(p.drafts, newIds, k - 1)), Item(draft.body, newIds[k], s));
  }

  // One song, one placement.

  /** What holds between two songs of a placement whose drafts start at `b`. */
  ghost predicate Going(job: Job, p: Planning, newIds: seq<Id>, s: Setting, b: nat, c: Cursor) {
    && Tidy(job, p, newIds, s) && Steady(job, p, c)
    && LastIsNeighbour(p.drafts, newIds, b, c)
    && var now := After(job, p.drafts, newIds, s).items;
       InOrder(p.drafts, newIds, b, |p.drafts|, now) && Ahead(p.drafts, newIds, b, c.at, job.items, now)
  }

  lemma SlotGoes(job: Job, rule: PlacementRule, i: nat, p: Planning, c: Cursor, newIds: seq<Id>, s: Setting, b: nat)
    requires Going(job, p, newIds, s, b, c) && !c.blocked && i < |job.songIds| && |p.drafts| < |newIds|
    requires var at := SkipReserved(job.items, c.at, p.reserved);
             at < |job.items| && job.items[at].IsSong() && !OwnedByOther(job, job.items[at].id)
    ensures var (p', c') := PlaceSong(job, rule, i, p, c);
            Going(job, p', newIds, s, b, c')
  {
    hide After, InOrder, Ahead, OriginalsInOrder, UnclaimedUntouched, Steady, Placed, IndexOf;
    var at := SkipReserved(job.items, c.at, p.reserved);
    var song := job.resources[job.songIds[i]];
    var draft := SlotDraft(job, rule, SourceKey(rule.id, i, job.songIds[i]), song, job.items[at]);
    var (p', c') := PlaceSong(job, rule, i, p, c);
    PlaceSongKeeps(job, rule, i, p, c);
    PlacedRuns(job, p', newIds, s);
    SlotStep(job, p, draft, newIds, s, b, c, at);
    StepKeepsTidy(job, p, draft, newIds, s);
    ShownLonger(p.drafts, draft, newIds, After(job, p'.drafts, newIds, s).items, s);
  }

  lemma InsertGoes(job: Job, rule: PlacementRule, i: nat, p: Planning, c: Cursor, newIds: seq<Id>, s: Setting, b: nat)
    requires Going(job, p, newIds, s, b, c) && !c.blocked && i < |job.songIds| && |p.drafts| < |newIds|
    requires var at := SkipReserved(job.items, c.at, p.reserved);
             at == |job.items| || !job.items[at].IsSong()
    ensures var (p', c') := PlaceSong(job, rule, i, p, c);
            Going(job, p', newIds, s, b, c')
  {
    var at := SkipReserved(job.items, c.at, p.reserved);
    var song := job.resources[job.songIds[i]];
    var draft := InsertDraft(job, rule, SourceKey(rule.id, i, job.songIds[i]), song, at, c.lastId, c.lastKey);
    var (p', c') := PlaceSong(job, rule, i, p, c);
    PlaceSongKeeps(job, rule, i, p, c);
    PlacedRuns(job, p', newIds, s);
    InsertStep(job, p, draft, newIds, s, b, c, at);
    InsertedWhere(job, p, draft, newIds, s);
    StepKeepsTidy(job, p, draft, newIds, s);
    ShownLonger(p.drafts, draft, newIds, After(job, p'.drafts, newIds, s).items, s);
  }

  lemma ShownLonger(drafts: seq<Draft>, draft: Draft, newIds: seq<Id>, now: Agenda, s: Setting)
    requires AllShown(drafts, newIds, now, s) && |drafts| < |newIds| && draft.body.PlacesSong()
    requires ShowsSong(now, if draft.body.InsertItem? then newIds[|drafts|] else draft.body.itemId, draft.body.song, s)
    ensures AllShown(drafts + [draft], newIds, now, s)
  {
    forall j | 0 <= j < |drafts| ensures Target(drafts + [draft], newIds, j) == Target(drafts, newIds, j) {}
  }

  /** The drafts from `b` on place the songs with indexes [lo, k), in this order. */
  ghost predicate ForSongs(job: Job, drafts: seq<Draft>, b: nat, lo: nat, k: nat)
    requires job.Valid()
  {
    && lo <= k <= |job.songIds| && b + (k - lo) <= |drafts|
    && forall j :: b <= j < b + (k - lo) ==>
         drafts[j].body.PlacesSong() && drafts[j].body.song == job.resources[job.songIds[lo + (j - b)]]
  }

  /** What one song adds, seen from outside. */
  lemma SongAdds(job: Job, rule: PlacementRule, i: nat, p: Planning, c: Cursor)
    requires job.Valid() && i < |job.songIds| && !c.blocked
    ensures var (p', c') := PlaceSong(job, rule, i, p, c);
            && p'.used == p.used && p.drafts <= p'.drafts && p.issues <= p'.issues
            && (c'.blocked ==> HasErrors(p'.issues))
            && (!c'.blocked ==>
                  && |p'.drafts| == |p.drafts| + 1 && p'.issues == p.issues
                  && p'.drafts[|p.drafts|].body.PlacesSong()
                  && p'.drafts[|p.drafts|].body.song == job.resources[job.songIds[i]])
  {
    var (p', c') := PlaceSong(job, rule, i, p, c);
    if c'.blocked {
      assert p'.issues[|p.issues|].IsError();
    }
  }

  /** What the songs [lo, k) of a placement add: one draft each, in order, unless a
      slot is refused, which is an error. */
  lemma {:induction false} SongsAdd(job: Job, rule: PlacementRule, lo: nat, k: nat, p: Planning, c: Cursor)
    requires job.Valid() && lo <= k <= |job.songIds| && !c.blocked
    ensures var (p', c') := PlaceSongs(job, rule, lo, k, p, c);
            && p'.used == p.used && p.drafts <= p'.drafts && p.issues <= p'.issues
            && (c'.blocked ==> HasErrors(p'.issues))
            && (!c'.blocked ==> |p'.drafts| == |p.drafts| + (k - lo) && p'.issues == p.issues
                                && ForSongs(job, p'.drafts, |p.drafts|, lo, k))
  {
    hide PlaceSong, HasErrors;
    if k > lo {
      SongsAdd(job, rule, lo, k - 1, p, c);
      var (p1, c1) := PlaceSongs(job, rule, lo, k - 1, p, c);
      if c1.blocked {
        BlockedSkips(job, rule, k - 1, p1, c1);
      } else {
        SongAdds(job, rule, k - 1, p1, c1);
      }
    }
  }

  /** One song that is not refused keeps everything going. */
  lemma SongGoes(job: Job, rule: PlacementRule, i: nat, p: Planning, c: Cursor, newIds: seq<Id>, s: Setting, b: nat)
    requires Going(job, p, newIds, s, b, c) && !c.blocked && i < |job.songIds| && |p.drafts| < |newIds|
    ensures var (p', c') := PlaceSong(job, rule, i, p, c);
            !c'.blocked ==> Going(job, p', newIds, s, b, c')
  {
    var at := SkipReserved(job.items, c.at, p.reserved);
    if at < |job.items| && job.items[at].IsSong() {
      if !OwnedByOther(job, job.items[at].id) {
        SlotGoes(job, rule, i, p, c, newIds, s, b);
      }
    } else {
      InsertGoes(job, rule, i, p, c, newIds, s, b);
    }
  }

  /** An invariant that every accepted song keeps holds after all of them. */
  lemma {:induction false} SongsKeep(job: Job, rule: PlacementRule, lo: nat, k: nat, p: Planning, c: Cursor,
                                     inv: (Planning, Cursor) -> bool)
    requires job.Valid() && lo <= k <= |job.songIds| && !c.blocked && inv(p, c)
    requires forall i, q, d :: lo <= i < k && inv(q, d) && !d.blocked && |q.drafts| == |p.drafts| + (i - lo) ==>
               Kept(PlaceSong(job, rule, i, q, d), inv)
    ensures Kept(PlaceSongs(job, rule, lo, k, p, c), inv)
  {
    hide PlaceSong, ForSongs, HasErrors;
    if k > lo {
      SongsKeep(job, rule, lo, k - 1, p, c, inv);
      SongsAdd(job, rule, lo, k - 1, p, c);
      var (p1, c1) := PlaceSongs(job, rule, lo, k - 1, p, c);
      if c1.blocked {
        BlockedSkips(job, rule, k - 1, p1, c1);
      } else {
        assert Kept(PlaceSong(job, rule, k - 1, p1, c1), inv);
      }
    }
  }

  predicate Kept(reached: (Planning, Cursor), inv: (Planning, Cursor) -> bool) {
    reached.1.blocked || inv(reached.0, reached.1)
  }

  /** The songs [lo, k) of a placement, as long as no slot is refused. */
  lemma SongsGo(job: Job, rule: PlacementRule, lo: nat, k: nat, p: Planning, c: Cursor,
                newIds: seq<Id>, s: Setting, b: nat)
    requires lo <= k <= |job.songIds| && !c.blocked
    requires Going(job, p, newIds, s, b, c) && |p.drafts| + (k - lo) <= |newIds|
    ensures var (p', c') := PlaceSongs(job, rule, lo, k, p, c);
            !c'.blocked ==> Going(job, p', newIds, s, b, c')
  {
    ghost var inv := (q, d) => Going(job, q, newIds, s, b, d);
    forall i, q, d | lo <= i < k && inv(q, d) && !d.blocked && |q.drafts| == |p.drafts| + (i - lo)
      ensures Kept(PlaceSong(job, rule, i, q, d), inv)
    {
      SongGoes(job, rule, i, q, d, newIds, s, b);
    }
    SongsKeep(job, rule, lo, k, p, c, inv);
  }
}
