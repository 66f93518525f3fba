/** One placement, exactly: the songs of its slice stand as one block where the
    cursor was, over the song items that stood there, and the rest of the agenda is
    unchanged around them. */
module Window {
  import opened Prelude
  import opened Agendas
  import opened Actions
  import opened Layout
  import opened LayoutProofs
  import opened Order
  import opened Placements
  import opened PlanShape
  import opened PlanTheorems
  import opened PlanOrder
  import opened Setlist

  /** How many song items stand in a row from position `at` on, at most `k`. */
  function SlotCount(items: Agenda, at: nat, k: nat): (m: nat)
    ensures m <= k && (at <= |items| ==> at + m <= |items|)
    ensures forall i :: at <= i < at + m && i < |items| ==> items[i].IsSong()
    ensures m < k && at + m < |items| ==> !items[at + m].IsSong()
    decreases k
  {
    if k == 0 || at >= |items| || !items[at].IsSong() then 0 else 1 + SlotCount(items, at + 1, k - 1)
  }

  lemma {:induction false} SlotCountStep(items: Agenda, at: nat, k: nat)
    requires at <= |items|
    decreases k
    ensures var m := SlotCount(items, at, k);
            SlotCount(items, at, k + 1)
            == if m == k && at + m < |items| && items[at + m].IsSong() then m + 1 else m
  {
    if k == 0 {
      assert SlotCount(items, at, 1) == if at < |items| && items[at].IsSong() then 1 + SlotCount(items, at + 1, 0) else 0;
    } else if at < |items| && items[at].IsSong() {
      SlotCountStep(items, at + 1, k - 1);
    }
  }

  ghost function TargetIds(drafts: seq<Draft>, newIds: seq<Id>): (ids: seq<Id>)
    requires |drafts| <= |newIds|
    ensures |ids| == |drafts|
  {
    seq(|drafts|, j requires 0 <= j < |drafts| =>
      if ClaimsSlot(drafts[j].body) then drafts[j].body.itemId else newIds[j])
  }

  /** The drafts' items stand side by side, in place of items[c..at). */
  ghost predicate Block(items: Agenda, drafts: seq<Draft>, newIds: seq<Id>, now: Agenda, c: nat, at: nat) {
    && c <= at <= |items| && |drafts| <= |newIds|
    && Ids(now) == Ids(items)[..c] + TargetIds(drafts, newIds) + Ids(items)[at..]
  }

  lemma RegroupClaim<T>(now: seq<T>, front: seq<T>, block: seq<T>, item: T, back: seq<T>)
    requires now == front + block + ([item] + back)
    ensures now == front + (block + [item]) + back
  {
  }

  lemma RegroupInsert<T>(front: seq<T>, block: seq<T>, item: T, back: seq<T>)
    ensures var now := front + block + back;
            var pos := |front| + |block|;
            now[..pos] + [item] + now[pos..] == front + (block + [item]) + back
  {
  }

  /** Claiming the item right after the block lengthens the block by it. */
  lemma BlockClaims(items: Agenda, drafts: seq<Draft>, draft: Draft, newIds: seq<Id>, now: Agenda, now': Agenda,
                    c: nat, at: nat)
    requires Block(items, drafts, newIds, now, c, at) && at < |items| && |drafts| < |newIds|
    requires ClaimsSlot(draft.body) && draft.body.itemId == items[at].id
    requires Ids(now') == Ids(now)
    ensures Block(items, drafts + [draft], newIds, now', c, at + 1)
  {
    assert Ids(items)[at..] == [items[at].id] + Ids(items)[at + 1..];
    assert TargetIds(drafts + [draft], newIds) == TargetIds(drafts, newIds) + [items[at].id];
    RegroupClaim(Ids(now), Ids(items)[..c], TargetIds(drafts, newIds), items[at].id, Ids(items)[at + 1..]);
  }

  /** Inserting right after the block lengthens it by the new item. */
  lemma BlockInserts(items: Agenda, drafts: seq<Draft>, draft: Draft, newIds: seq<Id>, now: Agenda, item: AgendaItem,
                     c: nat, at: nat)
    requires Block(items, drafts, newIds, now, c, at) && |drafts| < |newIds|
    requires draft.body.InsertItem? && item.id == newIds[|drafts|]
    ensures var pos := c + |drafts|;
            && pos <= |now|
            && Block(items, drafts + [draft], newIds, now[..pos] + [item] + now[pos..], c, at)
  {
    var pos := c + |drafts|;
    IdsOfInserted(now, pos, item);
    assert TargetIds(drafts + [draft], newIds) == TargetIds(drafts, newIds) + [item.id];
    RegroupInsert(Ids(items)[..c], TargetIds(drafts, newIds), item.id, Ids(items)[at..]);
  }

  lemma IdsOfInserted(now: Agenda, pos: nat, item: AgendaItem)
    requires pos <= |Ids(now)|
    ensures Ids(now[..pos] + [item] + now[pos..]) == Ids(now)[..pos] + [item.id] + Ids(now)[pos..]
  {
  }

  lemma IndexInDistinct(now: Agenda, id: Id, k: nat)
    requires DistinctIds(now) && k < |now| && Ids(now)[k] == id
    ensures IndexOf(now, id) == k
  {
    IndexIs(now, id, k);
  }

  lemma ThreeAt<T>(front: seq<T>, block: seq<T>, back: seq<T>, i: nat)
    requires i < |front| + |block| + |back|
    ensures (front + block + back)[i] == if i < |front| then front[i]
                                         else if i < |front| + |block| then block[i - |front|]
                                         else back[i - |front| - |block|]
  {
  }

  lemma BlockLength(items: Agenda, drafts: seq<Draft>, newIds: seq<Id>, now: Agenda, c: nat, at: nat)
    requires Block(items, drafts, newIds, now, c, at)
    ensures |now| == c + |drafts| + (|items| - at)
  {
    assert |now| == |Ids(now)|;
  }

  // Who stands where, in a list of distinct ids.

  lemma BeforeBlock(items: Agenda, drafts: seq<Draft>, newIds: seq<Id>, now: Agenda, c: nat, at: nat, q: nat)
    requires Block(items, drafts, newIds, now, c, at) && DistinctIds(now) && q < c
    ensures IndexOf(now, items[q].id) == q
  {
    BlockLength(items, drafts, newIds, now, c, at);
    ThreeAt(Ids(items)[..c], TargetIds(drafts, newIds), Ids(items)[at..], q);
    IndexInDistinct(now, items[q].id, q);
  }

  lemma InBlock(items: Agenda, drafts: seq<Draft>, newIds: seq<Id>, now: Agenda, c: nat, at: nat, j: nat)
    requires Block(items, drafts, newIds, now, c, at) && DistinctIds(now) && j < |drafts|
    ensures IndexOf(now, TargetIds(drafts, newIds)[j]) == c + j
  {
    BlockLength(items, drafts, newIds, now, c, at);
    ThreeAt(Ids(items)[..c], TargetIds(drafts, newIds), Ids(items)[at..], c + j);
    IndexInDistinct(now, TargetIds(drafts, newIds)[j], c + j);
  }

  lemma AfterBlock(items: Agenda, drafts: seq<Draft>, newIds: seq<Id>, now: Agenda, c: nat, at: nat, q: nat)
    requires Block(items, drafts, newIds, now, c, at) && DistinctIds(now) && at <= q < |items|
    ensures IndexOf(now, items[q].id) == c + |drafts| + (q - at)
  {
    BlockLength(items, drafts, newIds, now, c, at);
    ThreeAt(Ids(items)[..c], TargetIds(drafts, newIds), Ids(items)[at..], c + |drafts| + (q - at));
    IndexInDistinct(now, items[q].id, c + |drafts| + (q - at));
  }

  /** Nothing outside the block has been claimed. */
  ghost predicate Unclaimed(items: Agenda, c: nat, at: nat, reserved: set<Id>) {
    forall q :: (0 <= q < c || at <= q < |items|) && q < |items| ==> items[q].id !in reserved
  }

  /** What holds of the block while the only placement is planned, from cursor
      position `c0` on. */
  ghost predicate Windowed(job: Job, p: Planning, c: Cursor, newIds: seq<Id>, s: Setting, c0: nat) {
    && Runs(job, p.drafts, newIds, s)
    && Block(job.items, p.drafts, newIds, After(job, p.drafts, newIds, s).items, c0, c.at)
    && c.at == c0 + SlotCount(job.items, c0, |p.drafts|)
    && Unclaimed(job.items, c0, c.at, p.reserved)
  }

  /** The neighbour of the next insert. */
  ghost predicate Beside(job: Job, p: Planning, c: Cursor, newIds: seq<Id>, c0: nat) {
    && |p.drafts| <= |newIds|
    && (p.drafts == [] ==>
          c.lastKey == None && c.at == c0
          && c.lastId == (if 0 < c0 <= |job.items| then Some(job.items[c0 - 1].id) else None))
    && LastIsNeighbour(p.drafts, newIds, 0, c)
    && (p.drafts != [] && c.lastKey.Some? ==>
          && p.drafts[|p.drafts| - 1].body.InsertItem?
          && p.drafts[|p.drafts| - 1].body.resourceKey == c.lastKey.value)
  }

  lemma ClaimWidens(job: Job, drafts: seq<Draft>, draft: Draft, newIds: seq<Id>, s: Setting, c0: nat, at: nat)
    requires Runs(job, drafts, newIds, s) && Runs(job, drafts + [draft], newIds, s)
    requires Block(job.items, drafts, newIds, After(job, drafts, newIds, s).items, c0, at) && at < |job.items|
    requires ClaimsSlot(draft.body) && draft.body.itemId == job.items[at].id
    ensures Block(job.items, drafts + [draft], newIds, After(job, drafts + [draft], newIds, s).items, c0, at + 1)
  {
    AfterStep(job, drafts, draft, newIds, s);
    var now, now' := After(job, drafts, newIds, s).items, After(job, drafts + [draft], newIds, s).items;
    assert |now| == |now'| && forall i :: 0 <= i < |now| ==> now'[i].id == now[i].id;
    assert Ids(now') == Ids(now);
    BlockClaims(job.items, drafts, draft, newIds, now, now', c0, at);
  }

  lemma InsertWidens(job: Job, p: Planning, draft: Draft, c: Cursor, newIds: seq<Id>, s: Setting, c0: nat)
    requires Windowed(job, p, c, newIds, s, c0) && Beside(job, p, c, newIds, c0)
    requires Runs(job, p.drafts + [draft], newIds, s)
    requires draft.body.InsertItem? && draft.body.place == PlaceFor(job.items, c.at, c.lastId, c.lastKey)
    ensures Block(job.items, p.drafts + [draft], newIds, After(job, p.drafts + [draft], newIds, s).items, c0, c.at)
  {
    var on, k := After(job, p.drafts, newIds, s), |p.drafts|;
    AfterStep(job, p.drafts, draft, newIds, s);
    InsertPosition(job, p, c, newIds, s, c0);
    var item := SongItem(newIds[k], draft.body.title, ArrangementOf(draft.body.song, on.resources).value, s.catalogue);
    InsertedBlock(job.items, p.drafts, draft, newIds, on.items, NeighbourOf(draft.body.place, on.resources).value, item,
                  c0, c.at);
  }

  lemma InsertedBlock(items: Agenda, drafts: seq<Draft>, draft: Draft, newIds: seq<Id>, now: Agenda, place: Neighbour,
                      item: AgendaItem, c: nat, at: nat)
    requires Block(items, drafts, newIds, now, c, at) && |drafts| < |newIds|
    requires draft.body.InsertItem? && item.id == newIds[|drafts|]
    requires InsertSong(now, place, item).Some? && Position(now, place) == c + |drafts|
    ensures Block(items, drafts + [draft], newIds, InsertSong(now, place, item).value, c, at)
  {
    InsertIsAt(now, place, item);
    BlockInserts(items, drafts, draft, newIds, now, item, c, at);
  }

  /** An insert at `place` goes to position `pos`. */
  ghost predicate GoesTo(place: Place, on: Effect, pos: nat) {
    var neighbour := NeighbourOf(place, on.resources);
    neighbour.Some? && Position(on.items, neighbour.value) == pos
  }

  /** The neighbour an insert names stands at the block's end. */
  lemma InsertPosition(job: Job, p: Planning, c: Cursor, newIds: seq<Id>, s: Setting, c0: nat)
    requires Windowed(job, p, c, newIds, s, c0) && Beside(job, p, c, newIds, c0)
    ensures GoesTo(PlaceFor(job.items, c.at, c.lastId, c.lastKey), After(job, p.drafts, newIds, s), c0 + |p.drafts|)
  {
    if c.at < |job.items| {
      BeforeNext(job, p.drafts, newIds, s, c0, c.at);
    } else if p.drafts != [] {
      AfterLast(job, p, c, newIds, s, c0);
    } else {
      FirstAtEnd(job, p, c, newIds, s, c0);
    }
  }

  lemma BeforeNext(job: Job, drafts: seq<Draft>, newIds: seq<Id>, s: Setting, c0: nat, at: nat)
    requires Runs(job, drafts, newIds, s)
    requires Block(job.items, drafts, newIds, After(job, drafts, newIds, s).items, c0, at) && at < |job.items|
    ensures GoesTo(Before(job.items[at].id), After(job, drafts, newIds, s), c0 + |drafts|)
  {
    AfterDistinct(job, drafts, newIds, s);
    AfterBlock(job.items, drafts, newIds, After(job, drafts, newIds, s).items, c0, at, at);
  }

  lemma AfterLast(job: Job, p: Planning, c: Cursor, newIds: seq<Id>, s: Setting, c0: nat)
    requires Runs(job, p.drafts, newIds, s) && Beside(job, p, c, newIds, c0)
    requires Block(job.items, p.drafts, newIds, After(job, p.drafts, newIds, s).items, c0, |job.items|)
    requires c.at == |job.items| && p.drafts != []
    ensures GoesTo(PlaceFor(job.items, c.at, c.lastId, c.lastKey), After(job, p.drafts, newIds, s), c0 + |p.drafts|)
  {
    hide After, Runs, IndexOf, Block, DistinctIds;
    if c.lastKey.Some? {
      KeyOfLast(job, p, newIds, s, c.lastKey.value);
    }
    AfterDistinct(job, p.drafts, newIds, s);
    InBlock(job.items, p.drafts, newIds, After(job, p.drafts, newIds, s).items, c0, c.at, |p.drafts| - 1);
  }

  /** The first song, when the cursor starts at the very end of the agenda. */
  lemma FirstAtEnd(job: Job, p: Planning, c: Cursor, newIds: seq<Id>, s: Setting, c0: nat)
    requires Runs(job, p.drafts, newIds, s) && Beside(job, p, c, newIds, c0)
    requires c.at == |job.items| && p.drafts == []
    ensures GoesTo(PlaceFor(job.items, c.at, c.lastId, c.lastKey), After(job, p.drafts, newIds, s), c0)
  {
    NothingAfter(job, newIds, s);
    assert c0 == |job.items|;
    if c0 > 0 {
      assert PlaceFor(job.items, c.at, c.lastId, c.lastKey) == AfterId(job.items[c0 - 1].id);
      IndexInDistinct(job.items, job.items[c0 - 1].id, c0 - 1);
    } else {
      assert PlaceFor(job.items, c.at, c.lastId, c.lastKey) == Nowhere;
    }
  }

  // The songs of the placement, one after another.

  ghost predicate Widening(job: Job, p: Planning, c: Cursor, newIds: seq<Id>, s: Setting, c0: nat) {
    && Setup(job, newIds, s) && Placed(job, p) && Steady(job, p, c)
    && Windowed(job, p, c, newIds, s, c0) && Beside(job, p, c, newIds, c0)
  }

  /** What claiming the slot right under the cursor does, in the planner's terms. */
  lemma SlotClaimed(job: Job, rule: PlacementRule, i: nat, p: Planning, c: Cursor)
    requires i < |job.songIds| && job.songIds[i] in job.resources && !c.blocked
    requires c.at < |job.items| && job.items[c.at].id !in p.reserved
    requires job.items[c.at].IsSong() && !OwnedByOther(job, job.items[c.at].id)
    ensures var (p', c') := PlaceSong(job, rule, i, p, c);
            var draft := SlotDraft(job, rule, SourceKey(rule.id, i, job.songIds[i]), job.resources[job.songIds[i]],
                                   job.items[c.at]);
            && p'.drafts == p.drafts + [draft] && ClaimsSlot(draft.body) && draft.body.itemId == job.items[c.at].id
            && p'.reserved == p.reserved + {job.items[c.at].id}
            && c' == Cursor(c.at + 1, Some(job.items[c.at].id), None, false)
  {
    assert SkipReserved(job.items, c.at, p.reserved) == c.at;
  }

  lemma SongRuns(job: Job, rule: PlacementRule, i: nat, p: Planning, c: Cursor, newIds: seq<Id>, s: Setting)
    requires Setup(job, newIds, s) && Placed(job, p) && Steady(job, p, c) && i < |job.songIds| && !c.blocked
    requires |PlaceSong(job, rule, i, p, c).0.drafts| <= |newIds|
    ensures Runs(job, PlaceSong(job, rule, i, p, c).0.drafts, newIds, s)
  {
    PlaceSongKeeps(job, rule, i, p, c);
    PlacedRuns(job, PlaceSong(job, rule, i, p, c).0, newIds, s);
  }

  lemma StillUnclaimed(items: Agenda, c: nat, at: nat, reserved: set<Id>)
    requires DistinctIds(items) && c <= at < |items| && Unclaimed(items, c, at, reserved)
    ensures Unclaimed(items, c, at + 1, reserved + {items[at].id})
  {
  }

  lemma SlotKeepsWindow(job: Job, p: Planning, p': Planning, c: Cursor, draft: Draft, newIds: seq<Id>, s: Setting, c0: nat)
    requires Windowed(job, p, c, newIds, s, c0) && Runs(job, p'.drafts, newIds, s)
    requires c.at < |job.items| && job.items[c.at].IsSong()
    requires p'.drafts == p.drafts + [draft] && ClaimsSlot(draft.body) && draft.body.itemId == job.items[c.at].id
    requires p'.reserved == p.reserved + {job.items[c.at].id}
    ensures Windowed(job, p', Cursor(c.at + 1, Some(job.items[c.at].id), None, false), newIds, s, c0)
  {
    hide After, Block, SlotCount, Unclaimed;
    ClaimWidens(job, p.drafts, draft, newIds, s, c0, c.at);
    SlotCountClaim(job.items, c0, |p.drafts|);
    StillUnclaimed(job.items, c0, c.at, p.reserved);
  }

  lemma SlotCountClaim(items: Agenda, c: nat, n: nat)
    requires var at := c + SlotCount(items, c, n);
             at < |items| && items[at].IsSong()
    ensures SlotCount(items, c, n + 1) == SlotCount(items, c, n) + 1
  {
    SlotCountStep(items, c, n);
  }

  lemma SlotStaysBeside(job: Job, rule: PlacementRule, i: nat, p: Planning, c: Cursor, newIds: seq<Id>, c0: nat)
    requires job.Valid() && !c.blocked && i < |job.songIds| && |p.drafts| < |newIds|
    requires var at := SkipReserved(job.items, c.at, p.reserved);
             at < |job.items| && job.items[at].IsSong() && !OwnedByOther(job, job.items[at].id)
    ensures var (p', c') := PlaceSong(job, rule, i, p, c);
            Beside(job, p', c', newIds, c0)
  {
  }

  /** What inserting right under the cursor does, in the planner's terms. */
  lemma SongInserted(job: Job, rule: PlacementRule, i: nat, p: Planning, c: Cursor)
    requires i < |job.songIds| && job.songIds[i] in job.resources && !c.blocked && c.at <= |job.items|
    requires c.at < |job.items| ==> job.items[c.at].id !in p.reserved && !job.items[c.at].IsSong()
    ensures var (p', c') := PlaceSong(job, rule, i, p, c);
            var key := SourceKey(rule.id, i, job.songIds[i]);
            var draft := InsertDraft(job, rule, key, job.resources[job.songIds[i]], c.at, c.lastId, c.lastKey);
            && p'.drafts == p.drafts + [draft] && p'.reserved == p.reserved
            && c' == Cursor(c.at, None, Some(AgendaKey(job.eventId, key)), false)
  {
    assert SkipReserved(job.items, c.at, p.reserved) == c.at;
  }

  lemma InsertKeepsWindow(job: Job, p: Planning, p': Planning, c: Cursor, c': Cursor, draft: Draft, newIds: seq<Id>,
                          s: Setting, c0: nat)
    requires Windowed(job, p, c, newIds, s, c0) && Beside(job, p, c, newIds, c0) && Runs(job, p'.drafts, newIds, s)
    requires c.at < |job.items| ==> !job.items[c.at].IsSong()
    requires p'.drafts == p.drafts + [draft] && draft.body.InsertItem? && p'.reserved == p.reserved && c'.at == c.at
    requires draft.body.place == PlaceFor(job.items, c.at, c.lastId, c.lastKey)
    ensures Windowed(job, p', c', newIds, s, c0)
  {
    InsertWidens(job, p, draft, c, newIds, s, c0);
    SlotCountStep(job.items, c0, |p.drafts|);
  }

  lemma SlotSongKeepsWindow(job: Job, rule: PlacementRule, i: nat, p: Planning, c: Cursor, newIds: seq<Id>, s: Setting, c0: nat)
    requires Widening(job, p, c, newIds, s, c0) && !c.blocked && i < |job.songIds| && |p.drafts| < |newIds|
    requires c.at < |job.items| && job.items[c.at].IsSong() && !OwnedByOther(job, job.items[c.at].id)
    ensures var (p', c') := PlaceSong(job, rule, i, p, c);
            Windowed(job, p', c', newIds, s, c0) && Beside(job, p', c', newIds, c0)
  {
    var (p', c') := PlaceSong(job, rule, i, p, c);
    var key, song := SourceKey(rule.id, i, job.songIds[i]), job.resources[job.songIds[i]];
    SlotClaimed(job, rule, i, p, c);
    SongRuns(job, rule, i, p, c, newIds, s);
    SlotKeepsWindow(job, p, p', c, SlotDraft(job, rule, key, song, job.items[c.at]), newIds, s, c0);
    SlotStaysBeside(job, rule, i, p, c, newIds, c0);
  }

  lemma InsertSongKeepsWindow(job: Job, rule: PlacementRule, i: nat, p: Planning, c: Cursor, newIds: seq<Id>, s: Setting, c0: nat)
    requires Widening(job, p, c, newIds, s, c0) && !c.blocked && i < |job.songIds| && |p.drafts| < |newIds|
    requires c.at < |job.items| ==> !job.items[c.at].IsSong()
    ensures var (p', c') := PlaceSong(job, rule, i, p, c);
            Windowed(job, p', c', newIds, s, c0) && Beside(job, p', c', newIds, c0)
  {
    hide After, Runs, Block, SlotCount, PlaceSong, Placed;
    var (p', c') := PlaceSong(job, rule, i, p, c);
    var key, song := SourceKey(rule.id, i, job.songIds[i]), job.resources[job.songIds[i]];
    SongInserted(job, rule, i, p, c);
    SongRuns(job, rule, i, p, c, newIds, s);
    InsertKeepsWindow(job, p, p', c, c', InsertDraft(job, rule, key, song, c.at, c.lastId, c.lastKey), newIds, s, c0);
  }

  lemma SongKeepsWindow(job: Job, rule: PlacementRule, i: nat, p: Planning, c: Cursor, newIds: seq<Id>, s: Setting, c0: nat)
    requires Widening(job, p, c, newIds, s, c0) && !c.blocked && i < |job.songIds| && |p.drafts| < |newIds|
    ensures var (p', c') := PlaceSong(job, rule, i, p, c);
            !c'.blocked ==> Windowed(job, p', c', newIds, s, c0) && Beside(job, p', c', newIds, c0)
  {
    if c.at < |job.items| && job.items[c.at].IsSong() {
      assert SkipReserved(job.items, c.at, p.reserved) == c.at;
      if !OwnedByOther(job, job.items[c.at].id) {
        SlotSongKeepsWindow(job, rule, i, p, c, newIds, s, c0);
      }
    } else {
      InsertSongKeepsWindow(job, rule, i, p, c, newIds, s, c0);
    }
  }

  lemma SongsKeepWindow(job: Job, rule: PlacementRule, lo: nat, k: nat, p: Planning, c: Cursor, newIds: seq<Id>,
                        s: Setting, c0: nat)
    requires lo <= k <= |job.songIds| && !c.blocked
    requires Widening(job, p, c, newIds, s, c0) && |p.drafts| + (k - lo) <= |newIds|
    ensures var (p', c') := PlaceSongs(job, rule, lo, k, p, c);
            !c'.blocked ==> Widening(job, p', c', newIds, s, c0)
  {
    ghost var inv := (q, d) => Widening(job, q, d, newIds, s, c0);
    forall i, q, d | lo <= i < k && inv(q, d) && !d.blocked && |q.drafts| == |p.drafts| + (i - lo)
      ensures Kept(PlaceSong(job, rule, i, q, d), inv)
    {
      SongKeepsWindow(job, rule, i, q, d, newIds, s, c0);
      PlaceSongKeeps(job, rule, i, q, d);
    }
    SongsKeep(job, rule, lo, k, p, c, inv);
  }

  // Cleanup only takes items away.

  ghost function Spared(items: Agenda, drafts: seq<Draft>, n: nat): Agenda {
    Filter(items, (item: AgendaItem) => !Deleted(drafts, n, item.id))
  }

  lemma {:induction false} TidyingFilters(job: Job, drafts: seq<Draft>, newIds: seq<Id>, s: Setting, n: nat)
    requires Runs(job, drafts, newIds, s) && n <= |drafts| && Runs(job, drafts[..n], newIds, s)
    requires forall j :: n <= j < |drafts| ==> TidiesUp(drafts[j].body)
    ensures After(job, drafts, newIds, s).items == Spared(After(job, drafts[..n], newIds, s).items, drafts, n)
  {
    hide Filter, Runs, After, Absent;
    var k := |drafts| - 1;
    var start := After(job, drafts[..n], newIds, s).items;
    if n == |drafts| {
      assert drafts[..n] == drafts;
      FilterAll(start, (item: AgendaItem) => !Deleted(drafts, n, item.id));
    } else {
      var shorter, draft := drafts[..k], drafts[k];
      assert shorter[..n] == drafts[..n] && drafts == shorter + [draft];
      RunsPrefix(job, drafts, newIds, s, k);
      TidyingFilters(job, shorter, newIds, s, n);
      AfterStep(job, shorter, draft, newIds, s);
      FilterStep(start, shorter, draft, n);
    }
  }

  lemma FilterStep(start: Agenda, drafts: seq<Draft>, draft: Draft, n: nat)
    requires n <= |drafts| && TidiesUp(draft.body)
    ensures var kept := Spared(start, drafts, n);
            Spared(start, drafts + [draft], n)
            == if draft.body.DeleteOwnedItem? then DeleteItem(kept, draft.body.itemId) else kept
  {
    ghost var before := (item: AgendaItem) => !Deleted(drafts, n, item.id);
    ghost var after := (item: AgendaItem) => !Deleted(drafts + [draft], n, item.id);
    DeletedStep(drafts, draft, n);
    if draft.body.DeleteOwnedItem? {
      FilterTwice(start, before, (item: AgendaItem) => item.id != draft.body.itemId, after);
    } else {
      FilterSame(start, before, after);
    }
  }

  lemma DeletedStep(drafts: seq<Draft>, draft: Draft, n: nat)
    requires n <= |drafts|
    ensures forall x :: Deleted(drafts + [draft], n, x) <==> Deleted(drafts, n, x) || Deletes(draft.body, x)
  {
    var all := drafts + [draft];
    assert all[|drafts|] == draft;
    assert forall j :: 0 <= j < |drafts| ==> all[j] == drafts[j];
  }

  lemma {:induction false} FilterSame<T(!new)>(s: seq<T>, p: T -> bool, q: T -> bool)
    requires forall x :: p(x) <==> q(x)
    ensures Filter(s, p) == Filter(s, q)
  {
    if s != [] {
      FilterSame(s[1..], p, q);
    }
  }

  // The theorem.

  lemma WindowOpens(job: Job, rule: PlacementRule, newIds: seq<Id>, s: Setting)
    requires Setup(job, newIds, s) && Admitted(job, rule, PlaceRules(job, []))
    ensures var c := RuleStart(job, rule);
            c.at <= |job.items| && Widening(job, StartOf(job, rule, PlaceRules(job, [])), c, newIds, s, c.at)
  {
    AnchorFound(rule.anchor, job.items, job.normalize);
    NothingAfter(job, newIds, s);
    var c := RuleStart(job, rule).at;
    assert Ids(job.items) == Ids(job.items)[..c] + TargetIds([], newIds) + Ids(job.items)[c..];
  }

  /** The plan of a single rule without errors. */
  lemma OneIsTidy(job: Job, rule: PlacementRule, newIds: seq<Id>, s: Setting)
    requires Executable(job, [rule], newIds, s)
    ensures Setup(job, newIds, s) && forall i :: 0 <= i < |job.songIds| ==> job.songIds[i] in job.resources
    ensures PlaceRules(job, [rule]) == PlaceRule(job, rule, PlaceRules(job, []))
    ensures !HasErrors(PlaceRules(job, [rule]).issues) && |PlaceRules(job, [rule]).drafts| <= |newIds|
    ensures var p := PlaceRules(job, [rule]);
            && Runs(job, p.drafts, newIds, s)
            && UnclaimedUntouched(job.items, p.reserved, After(job, p.drafts, newIds, s).items)
            && AllShown(p.drafts, newIds, After(job, p.drafts, newIds, s).items, s)
  {
    assert [rule][..1] == [rule] && [rule][..0] == [];
    NoEarlierErrors(job, [rule], 1);
    DraftedIsCleaned(job, [rule]);
    RulesGo(job, [rule], newIds, s);
  }

  lemma OneIsWide(job: Job, rule: PlacementRule, newIds: seq<Id>, s: Setting) returns (p: Planning, c: Cursor)
    requires Setup(job, newIds, s)
    requires !HasErrors(PlaceRule(job, rule, PlaceRules(job, [])).issues)
    requires |PlaceRule(job, rule, PlaceRules(job, [])).drafts| <= |newIds|
    ensures Admitted(job, rule, PlaceRules(job, [])) && p == PlaceRule(job, rule, PlaceRules(job, []))
    ensures |p.drafts| == SliceEnd(rule, |job.songIds|) - SliceStart(rule, |job.songIds|)
    ensures Windowed(job, p, c, newIds, s, RuleStart(job, rule).at)
  {
    var first := PlaceRules(job, []);
    RuleAdds(job, rule, first);
    WindowOpens(job, rule, newIds, s);
    SongsKeepWindow(job, rule, SliceStart(rule, |job.songIds|), SliceEnd(rule, |job.songIds|), StartOf(job, rule, first),
                    RuleStart(job, rule), newIds, s, RuleStart(job, rule).at);
    p, c := PlaceRule(job, rule, first),
            PlaceSongs(job, rule, SliceStart(rule, |job.songIds|), SliceEnd(rule, |job.songIds|),
                       StartOf(job, rule, first), RuleStart(job, rule)).1;
  }

  // What stands around a block is untouched.

  lemma FrontUntouched(items: Agenda, drafts: seq<Draft>, newIds: seq<Id>, now: Agenda, c: nat, at: nat, reserved: set<Id>)
    requires Block(items, drafts, newIds, now, c, at) && DistinctIds(now)
    requires Unclaimed(items, c, at, reserved) && UnclaimedUntouched(items, reserved, now)
    ensures c <= |now| && now[..c] == items[..c]
  {
    BlockLength(items, drafts, newIds, now, c, at);
    forall q | 0 <= q < c ensures now[q] == items[q] {
      BeforeBlock(items, drafts, newIds, now, c, at, q);
    }
  }

  lemma BackUntouched(items: Agenda, drafts: seq<Draft>, newIds: seq<Id>, now: Agenda, c: nat, at: nat, reserved: set<Id>)
    requires Block(items, drafts, newIds, now, c, at) && DistinctIds(now)
    requires Unclaimed(items, c, at, reserved) && UnclaimedUntouched(items, reserved, now)
    ensures c + |drafts| <= |now| && now[c + |drafts|..] == items[at..]
  {
    hide DistinctIds, Unclaimed, UnclaimedUntouched, IndexOf, Ids, TargetIds;
    var back := c + |drafts|;
    BlockLength(items, drafts, newIds, now, c, at);
    forall q | 0 <= q < |items| - at ensures now[back..][q] == items[at..][q] {
      ItemBehind(items, drafts, newIds, now, c, at, reserved, at + q);
    }
  }

  lemma ItemBehind(items: Agenda, drafts: seq<Draft>, newIds: seq<Id>, now: Agenda, c: nat, at: nat, reserved: set<Id>, q: nat)
    requires Block(items, drafts, newIds, now, c, at) && DistinctIds(now) && at <= q < |items|
    requires Unclaimed(items, c, at, reserved) && UnclaimedUntouched(items, reserved, now)
    ensures c + |drafts| + (q - at) < |now| && now[c + |drafts| + (q - at)] == items[q]
  {
    BlockLength(items, drafts, newIds, now, c, at);
    AfterBlock(items, drafts, newIds, now, c, at, q);
  }

  /** `item` shows the song and arrangement that `song` resolves to. */
  ghost predicate ShownAs(item: AgendaItem, song: SongRef, s: Setting) {
    && SongOf(song, s.resources).Some? && ArrangementOf(song, s.resources).Some?
    && item.Shows(SongOf(song, s.resources).value, ArrangementOf(song, s.resources).value)
  }

  /** The block itself shows the songs. */
  lemma InsideBlock(items: Agenda, drafts: seq<Draft>, newIds: seq<Id>, now: Agenda, s: Setting, c: nat, at: nat, j: nat)
    requires Block(items, drafts, newIds, now, c, at) && DistinctIds(now) && j < |drafts|
    requires drafts[j].body.PlacesSong() && ShowsSong(now, Target(drafts, newIds, j), drafts[j].body.song, s)
    ensures |now| == c + |drafts| + (|items| - at)
    ensures now[c + j].id == Target(drafts, newIds, j) && ShownAs(now[c + j], drafts[j].body.song, s)
  {
    BlockLength(items, drafts, newIds, now, c, at);
    InBlock(items, drafts, newIds, now, c, at, j);
  }

  /** `now` is `items` with a block of songs, one per draft, in place of items[c..at). */
  ghost predicate BlockShown(items: Agenda, drafts: seq<Draft>, newIds: seq<Id>, now: Agenda, s: Setting, c: nat, at: nat) {
    && c <= at <= |items| && |drafts| <= |newIds| && |now| == c + |drafts| + (|items| - at)
    && now[..c] == items[..c] && now[c + |drafts|..] == items[at..]
    && forall j :: 0 <= j < |drafts| ==>
         && drafts[j].body.PlacesSong() && ShownAs(now[c + j], drafts[j].body.song, s)
         && now[c + j].id == TargetIds(drafts, newIds)[j]
  }

  lemma BlockIsShown(items: Agenda, drafts: seq<Draft>, newIds: seq<Id>, now: Agenda, s: Setting, c: nat, at: nat,
                     reserved: set<Id>)
    requires Block(items, drafts, newIds, now, c, at) && DistinctIds(now) && AllShown(drafts, newIds, now, s)
    requires Unclaimed(items, c, at, reserved) && UnclaimedUntouched(items, reserved, now)
    ensures BlockShown(items, drafts, newIds, now, s, c, at)
  {
    BlockLength(items, drafts, newIds, now, c, at);
    FrontUntouched(items, drafts, newIds, now, c, at, reserved);
    BackUntouched(items, drafts, newIds, now, c, at, reserved);
    forall j | 0 <= j < |drafts|
      ensures drafts[j].body.PlacesSong() && ShownAs(now[c + j], drafts[j].body.song, s)
      ensures now[c + j].id == TargetIds(drafts, newIds)[j]
    {
      InsideBlock(items, drafts, newIds, now, s, c, at, j);
    }
  }

  /** The only placement, before cleanup: the block of its songs replaces the song
      items that stood from the cursor on, at most as many as there are songs. */
  lemma OneBlock(job: Job, rule: PlacementRule, newIds: seq<Id>, s: Setting) returns (c: nat, m: nat)
    requires Executable(job, [rule], newIds, s)
    ensures Admitted(job, rule, PlaceRules(job, [])) && c == RuleStart(job, rule).at
    ensures forall i :: 0 <= i < |job.songIds| ==> job.songIds[i] in job.resources
    ensures var placed := PlaceRules(job, [rule]).drafts;
            && Runs(job, placed, newIds, s) && m == SlotCount(job.items, c, |placed|)
            && |placed| == SliceEnd(rule, |job.songIds|) - SliceStart(rule, |job.songIds|)
            && BlockShown(job.items, placed, newIds, After(job, placed, newIds, s).items, s, c, c + m)
  {
    hide *;
    OneIsTidy(job, rule, newIds, s);
    var p, cursor := OneIsWide(job, rule, newIds, s);
    WindowedParts(job, p, cursor, newIds, s, RuleStart(job, rule).at);
    c, m := RuleStart(job, rule).at, cursor.at - RuleStart(job, rule).at;
    AfterDistinct(job, p.drafts, newIds, s);
    BlockIsShown(job.items, p.drafts, newIds, After(job, p.drafts, newIds, s).items, s, c, cursor.at, p.reserved);
  }

  lemma WindowedParts(job: Job, p: Planning, c: Cursor, newIds: seq<Id>, s: Setting, c0: nat)
    requires Windowed(job, p, c, newIds, s, c0)
    ensures Runs(job, p.drafts, newIds, s)
    ensures Block(job.items, p.drafts, newIds, After(job, p.drafts, newIds, s).items, c0, c.at)
    ensures c.at == c0 + SlotCount(job.items, c0, |p.drafts|) && Unclaimed(job.items, c0, c.at, p.reserved)
  {
  }

  lemma SparedThree(front: Agenda, block: Agenda, back: Agenda, drafts: seq<Draft>, n: nat)
    requires forall j :: 0 <= j < |block| ==> !Deleted(drafts, n, block[j].id)
    ensures Spared(front + block + back, drafts, n) == Spared(front, drafts, n) + block + Spared(back, drafts, n)
  {
    ghost var keep := (item: AgendaItem) => !Deleted(drafts, n, item.id);
    FilterConcat(front + block, back, keep);
    FilterConcat(front, block, keep);
    FilterAll(block, keep);
  }

  /** Cleanup filters the agenda of the placements. */
  lemma FinalIsSpared(job: Job, rules: seq<PlacementRule>, newIds: seq<Id>, s: Setting)
    requires Executable(job, rules, newIds, s) && Runs(job, PlaceRules(job, rules).drafts, newIds, s)
    ensures var placed, all := PlaceRules(job, rules).drafts, Drafted(job, rules).drafts;
            Final(job, rules, newIds, s) == Spared(After(job, placed, newIds, s).items, all, |placed|)
  {
    var placed, all := PlaceRules(job, rules).drafts, Drafted(job, rules).drafts;
    DraftedIsCleaned(job, rules);
    FinalIsAfter(job, rules, newIds, s);
    assert all[..|placed|] == placed;
    TidyingFilters(job, all, newIds, s, |placed|);
  }

  lemma ShownIsSpared(job: Job, rules: seq<PlacementRule>, newIds: seq<Id>, s: Setting, j: nat)
    requires Executable(job, rules, newIds, s) && j < |PlaceRules(job, rules).drafts| <= |newIds|
    ensures var placed, all := PlaceRules(job, rules).drafts, Drafted(job, rules).drafts;
            !Deleted(all, |placed|, TargetIds(placed, newIds)[j])
  {
    var placed := PlaceRules(job, rules).drafts;
    CleanupSpares(job, rules, newIds, s, j);
    assert Bodies(placed)[j] == placed[j].body;
    assert TargetIds(placed, newIds)[j] == Target(placed, newIds, j);
    SpareFrom(Drafted(job, rules).drafts, |placed|, Target(placed, newIds, j));
  }

  /** The drafts of the only placement are about the songs of its slice, in order. */
  lemma OneForSongs(job: Job, rule: PlacementRule, newIds: seq<Id>, s: Setting)
    requires Executable(job, [rule], newIds, s)
    ensures ForSongs(job, PlaceRules(job, [rule]).drafts, 0, SliceStart(rule, |job.songIds|), SliceEnd(rule, |job.songIds|))
  {
    OneIsTidy(job, rule, newIds, s);
    RuleAdds(job, rule, PlaceRules(job, []));
  }

  lemma SliceAt<T>(now: seq<T>, c: nat, k: nat, i: nat)
    requires c + k <= |now| && i < k
    ensures now[c..c + k][i] == now[c + i]
  {
  }

  lemma ThreeParts<T>(now: seq<T>, c: nat, k: nat)
    requires c + k <= |now|
    ensures now == now[..c] + now[c..c + k] + now[c + k..]
  {
  }

  /** One placement, exactly.  The final agenda is the original one with, from the
      cursor on, the songs of the slice in setlist order instead of the song items
      that stood there, minus the items the cleanup deletes. */
  lemma OnePlacementExactly(job: Job, rule: PlacementRule, newIds: seq<Id>, s: Setting)
    returns (c: nat, m: nat, shown: Agenda)
    requires Executable(job, [rule], newIds, s)
    ensures Admitted(job, rule, PlaceRules(job, [])) && c == RuleStart(job, rule).at
    ensures |shown| == SliceEnd(rule, |job.songIds|) - SliceStart(rule, |job.songIds|)
    ensures m == SlotCount(job.items, c, |shown|) && c + m <= |job.items|
    ensures var all := Drafted(job, [rule]).drafts;
            Final(job, [rule], newIds, s)
            == Spared(job.items[..c], all, |shown|) + shown + Spared(job.items[c + m..], all, |shown|)
    ensures |PlaceRules(job, [rule]).drafts| == |shown| <= |newIds|
    ensures forall i :: 0 <= i < |shown| ==>
              && ShownAs(shown[i], job.resources[job.songIds[SliceStart(rule, |job.songIds|) + i]], s)
              && shown[i].id == TargetIds(PlaceRules(job, [rule]).drafts, newIds)[i]
  {
    hide *;
    c, m := OneBlock(job, rule, newIds, s);
    var placed := PlaceRules(job, [rule]).drafts;
    var now := After(job, placed, newIds, s).items;
    BlockSize(job.items, placed, newIds, now, s, c, c + m);
    shown := now[c..c + |placed|];
    FinalIsSpared(job, [rule], newIds, s);
    OneIsSpared(job, rule, newIds, s, now, c, c + m);
    forall i | 0 <= i < |shown|
      ensures ShownAs(shown[i], job.resources[job.songIds[SliceStart(rule, |job.songIds|) + i]], s)
      ensures shown[i].id == TargetIds(placed, newIds)[i]
    {
      OneShows(job, rule, newIds, s, now, c, c + m, i);
      SliceAt(now, c, |placed|, i);
    }
  }

  lemma BlockSize(items: Agenda, drafts: seq<Draft>, newIds: seq<Id>, now: Agenda, s: Setting, c: nat, at: nat)
    requires BlockShown(items, drafts, newIds, now, s, c, at)
    ensures c <= at <= |items| && |drafts| <= |newIds| && |now| == c + |drafts| + (|items| - at)
  {
  }

  lemma OneShows(job: Job, rule: PlacementRule, newIds: seq<Id>, s: Setting, now: Agenda, c: nat, at: nat, i: nat)
    requires Executable(job, [rule], newIds, s)
    requires BlockShown(job.items, PlaceRules(job, [rule]).drafts, newIds, now, s, c, at)
    requires i < |PlaceRules(job, [rule]).drafts| == SliceEnd(rule, |job.songIds|) - SliceStart(rule, |job.songIds|)
    ensures ShownAs(now[c + i], job.resources[job.songIds[SliceStart(rule, |job.songIds|) + i]], s)
    ensures now[c + i].id == TargetIds(PlaceRules(job, [rule]).drafts, newIds)[i]
  {
    OneForSongs(job, rule, newIds, s);
    var draft := PlaceRules(job, [rule]).drafts[i];
    assert draft.body.song == job.resources[job.songIds[SliceStart(rule, |job.songIds|) + (i - 0)]];
  }

  lemma OneIsSpared(job: Job, rule: PlacementRule, newIds: seq<Id>, s: Setting, now: Agenda, c: nat, at: nat)
    requires Executable(job, [rule], newIds, s)
    requires BlockShown(job.items, PlaceRules(job, [rule]).drafts, newIds, now, s, c, at)
    ensures var k, all := |PlaceRules(job, [rule]).drafts|, Drafted(job, [rule]).drafts;
            Spared(now, all, k) == Spared(job.items[..c], all, k) + now[c..c + k] + Spared(job.items[at..], all, k)
  {
    var k, all := |PlaceRules(job, [rule]).drafts|, Drafted(job, [rule]).drafts;
    var block := now[c..c + k];
    ThreeParts(now, c, k);
    forall j | 0 <= j < k ensures !Deleted(all, k, block[j].id) {
      ShownIsSpared(job, [rule], newIds, s, j);
      assert now[c + j].id == TargetIds(PlaceRules(job, [rule]).drafts, newIds)[j];
    }
    SparedThree(now[..c], block, now[c + k..], all, k);
  }
}
