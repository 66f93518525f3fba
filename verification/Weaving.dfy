/** Any list of placements: where the songs land.  If the windows of the placements are
    apart, the final agenda is the original one with each window replaced by one block
    that shows the slice of its placement. */
module Weaving {
  import opened Prelude
  import opened Agendas
  import opened Actions
  import opened Layout
  import opened Order
  import opened Placements
  import opened PlanShape
  import opened PlanOrder
  import opened Setlist
  import Window

  // Items with gaps around them.

  /** The items in order, before each what is in its gap, and the last gap at the end. */
  function Woven<T>(items: seq<T>, gaps: seq<seq<T>>): seq<T>
    requires |gaps| == |items| + 1
  {
    var n := |items|;
    if n == 0 then gaps[0] else Woven(items[..n - 1], gaps[..n]) + [items[n - 1]] + gaps[n]
  }

  /** The part from item q on. */
  function Rest<T>(items: seq<T>, gaps: seq<seq<T>>, q: nat): seq<T>
    requires |gaps| == |items| + 1 && q <= |items|
  {
    var n := |items|;
    if q == n then [] else Rest(items[..n - 1], gaps[..n], q) + [items[n - 1]] + gaps[n]
  }

  /** The part before item q, with its gap. */
  function Until<T>(items: seq<T>, gaps: seq<seq<T>>, q: nat): seq<T>
    requires |gaps| == |items| + 1 && q <= |items|
  {
    Woven(items[..q], gaps[..q + 1])
  }

  lemma {:induction false} SplitWoven<T>(items: seq<T>, gaps: seq<seq<T>>, q: nat)
    requires |gaps| == |items| + 1 && q <= |items|
    ensures Woven(items, gaps) == Until(items, gaps, q) + Rest(items, gaps, q)
  {
    var n := |items|;
    if q == n {
      assert items[..n] == items && gaps[..n + 1] == gaps;
    } else {
      SplitWoven(items[..n - 1], gaps[..n], q);
      assert items[..n - 1][..q] == items[..q] && gaps[..n][..q + 1] == gaps[..q + 1];
    }
  }

  lemma {:induction false} RestStarts<T>(items: seq<T>, gaps: seq<seq<T>>, q: nat)
    requires |gaps| == |items| + 1 && q < |items|
    ensures Rest(items, gaps, q) != [] && Rest(items, gaps, q)[0] == items[q]
  {
    if q < |items| - 1 {
      RestStarts(items[..|items| - 1], gaps[..|items|], q);
    }
  }

  lemma {:induction false} RestFrame<T>(items: seq<T>, gaps: seq<seq<T>>, other: seq<seq<T>>, q: nat)
    requires |gaps| == |other| == |items| + 1 && q <= |items| && gaps[q + 1..] == other[q + 1..]
    ensures Rest(items, gaps, q) == Rest(items, other, q)
  {
    var n := |items|;
    if q < n {
      assert gaps[..n][q + 1..] == gaps[q + 1..][..n - q - 1] && other[..n][q + 1..] == other[q + 1..][..n - q - 1];
      assert gaps[n] == gaps[q + 1..][n - q - 1] && other[n] == other[q + 1..][n - q - 1];
      RestFrame(items[..n - 1], gaps[..n], other[..n], q);
    }
  }

  lemma UntilGrows<T>(items: seq<T>, gaps: seq<seq<T>>, q: nat, x: T)
    requires |gaps| == |items| + 1 && q <= |items|
    ensures Until(items, gaps[q := gaps[q] + [x]], q) == Until(items, gaps, q) + [x]
  {
    var more := gaps[q := gaps[q] + [x]];
    if q == 0 {
      assert items[..0] == [];
    } else {
      assert items[..q][..q - 1] == items[..q - 1];
      assert more[..q + 1][..q] == gaps[..q] == gaps[..q + 1][..q];
    }
  }

  /** One more element at the end of gap q. */
  lemma GapGrows<T>(items: seq<T>, gaps: seq<seq<T>>, q: nat, x: T)
    requires |gaps| == |items| + 1 && q <= |items|
    ensures Woven(items, gaps[q := gaps[q] + [x]]) == Until(items, gaps, q) + [x] + Rest(items, gaps, q)
  {
    var more := gaps[q := gaps[q] + [x]];
    SplitWoven(items, more, q);
    UntilGrows(items, gaps, q, x);
    RestFrame(items, gaps, more, q);
  }

  lemma {:induction false} WovenEmpty<T>(items: seq<T>)
    ensures Woven(items, seq(|items| + 1, i => [])) == items
  {
    var n := |items|;
    var none: seq<seq<T>> := seq(n + 1, i => []);
    if n > 0 {
      WovenEmpty(items[..n - 1]);
      assert none[..n] == seq(n, i => []);
      assert items == items[..n - 1] + [items[n - 1]];
    }
  }

  // The agenda under way.

  /** Performed so far, the drafts leave the original items, with `gaps` between them. */
  ghost predicate Weaves(job: Job, drafts: seq<Draft>, newIds: seq<Id>, s: Setting, gaps: seq<seq<Id>>) {
    && Runs(job, drafts, newIds, s) && |gaps| == |job.items| + 1
    && Ids(After(job, drafts, newIds, s).items) == Woven(Ids(job.items), gaps)
  }

  lemma ClaimKeepsIds(body: Body, on: Effect, catalogue: Catalogue, newId: Id)
    requires ClaimsSlot(body) && Perform(body, on, catalogue, newId).Some?
    ensures Ids(Perform(body, on, catalogue, newId).value.items) == Ids(on.items)
  {
  }

  lemma ClaimWeaves(job: Job, drafts: seq<Draft>, draft: Draft, newIds: seq<Id>, s: Setting, gaps: seq<seq<Id>>)
    requires Weaves(job, drafts, newIds, s, gaps) && Runs(job, drafts + [draft], newIds, s) && ClaimsSlot(draft.body)
    requires |drafts| < |newIds|
    ensures Weaves(job, drafts + [draft], newIds, s, gaps)
  {
    hide After, Runs, Woven, Perform, Ids;
    AfterStep(job, drafts, draft, newIds, s);
    ClaimKeepsIds(draft.body, After(job, drafts, newIds, s), s.catalogue, newIds[|drafts|]);
  }

  /** An insert goes to the end of gap q. */
  ghost predicate GoesTo(place: Place, on: Effect, items: Agenda, gaps: seq<seq<Id>>, q: nat)
    requires |gaps| == |items| + 1 && q <= |items|
  {
    var neighbour := NeighbourOf(place, on.resources);
    neighbour.Some? && Position(on.items, neighbour.value) == |Until(Ids(items), gaps, q)|
  }

  lemma InsertKeepsIds(now: Agenda, place: Neighbour, item: AgendaItem, front: seq<Id>, back: seq<Id>)
    requires InsertSong(now, place, item).Some? && Ids(now) == front + back && Position(now, place) == |front|
    ensures Ids(InsertSong(now, place, item).value) == front + [item.id] + back
  {
    InsertIsAt(now, place, item);
    Window.IdsOfInserted(now, |front|, item);
    assert (front + back)[..|front|] == front && (front + back)[|front|..] == back;
  }

  lemma InsertWeaves(job: Job, drafts: seq<Draft>, draft: Draft, newIds: seq<Id>, s: Setting, gaps: seq<seq<Id>>, q: nat)
    requires Weaves(job, drafts, newIds, s, gaps) && Runs(job, drafts + [draft], newIds, s)
    requires draft.body.InsertItem? && q <= |job.items| && |drafts| < |newIds|
    requires GoesTo(draft.body.place, After(job, drafts, newIds, s), job.items, gaps, q)
    ensures Weaves(job, drafts + [draft], newIds, s, gaps[q := gaps[q] + [newIds[|drafts|]]])
  {
    hide After, Runs, Woven, Until, Rest, Ids, InsertSong, Position;
    var on, id := After(job, drafts, newIds, s), newIds[|drafts|];
    AfterStep(job, drafts, draft, newIds, s);
    var item := SongItem(id, draft.body.title, ArrangementOf(draft.body.song, on.resources).value, s.catalogue);
    SplitWoven(Ids(job.items), gaps, q);
    InsertKeepsIds(on.items, NeighbourOf(draft.body.place, on.resources).value, item,
                   Until(Ids(job.items), gaps, q), Rest(Ids(job.items), gaps, q));
    GapGrows(Ids(job.items), gaps, q, id);
  }

  // Where the neighbour of an insert stands.

  lemma BeforeGoes(job: Job, drafts: seq<Draft>, newIds: seq<Id>, s: Setting, gaps: seq<seq<Id>>, q: nat)
    requires Weaves(job, drafts, newIds, s, gaps) && q < |job.items|
    ensures GoesTo(Before(job.items[q].id), After(job, drafts, newIds, s), job.items, gaps, q)
  {
    var ids, now := Ids(job.items), After(job, drafts, newIds, s).items;
    AfterDistinct(job, drafts, newIds, s);
    SplitWoven(ids, gaps, q);
    RestStarts(ids, gaps, q);
    assert Ids(now)[|Until(ids, gaps, q)|] == ids[q];
    Window.IndexInDistinct(now, job.items[q].id, |Until(ids, gaps, q)|);
  }

  lemma LastIndex(now: Agenda, id: Id)
    requires DistinctIds(now) && now != [] && Ids(now)[|now| - 1] == id
    ensures IndexOf(now, id) == |now| - 1
  {
    Window.IndexInDistinct(now, id, |now| - 1);
  }

  /** Directly after what stands last, at the very end. */
  lemma AfterGoes(job: Job, drafts: seq<Draft>, newIds: seq<Id>, s: Setting, gaps: seq<seq<Id>>, place: Place, id: Id)
    requires Weaves(job, drafts, newIds, s, gaps)
    requires NeighbourOf(place, After(job, drafts, newIds, s).resources) == Some(AfterItem(id))
    requires StandsLast(Woven(Ids(job.items), gaps), id)
    ensures GoesTo(place, After(job, drafts, newIds, s), job.items, gaps, |job.items|)
  {
    var ids, now := Ids(job.items), After(job, drafts, newIds, s).items;
    AfterDistinct(job, drafts, newIds, s);
    assert ids[..|ids|] == ids && gaps[..|ids| + 1] == gaps;
    LastIndex(now, id);
  }

  predicate StandsLast<T(==)>(items: seq<T>, x: T) {
    items != [] && items[|items| - 1] == x
  }

  lemma LastOfGap<T>(items: seq<T>, gaps: seq<seq<T>>)
    requires |gaps| == |items| + 1
    ensures gaps[|items|] != [] ==> StandsLast(Woven(items, gaps), gaps[|items|][|gaps[|items|]| - 1])
    ensures gaps[|items|] == [] && items != [] ==> StandsLast(Woven(items, gaps), items[|items| - 1])
  {
  }

  // One placement.

  function Least(a: nat, b: nat): nat { if a < b then a else b }

  /** A placement of n songs that starts at position c and finds m slots there. */
  datatype Span = Span(c: nat, m: nat, n: nat)
  {
    /** Where it inserts what the slots do not take. */
    function End(): nat { c + m }

    /** Its window: its slots, and the place after them if it inserts there. */
    predicate Covers(q: int) { c <= q < c + m || (q == c + m && m < n) }

    /** The song items from c on are its slots; after them it may insert. */
    ghost predicate Fits(items: Agenda) {
      && m <= n && c + m <= |items| && items != []
      && (forall i :: c <= i < c + m ==> items[i].IsSong())
      && (m < n && c + m < |items| ==> !items[c + m].IsSong())
    }

    /** Nothing in its window was claimed, and nothing stands after the last item. */
    ghost predicate Free(items: Agenda, reserved: set<Id>, gaps: seq<seq<Id>>) {
      && |gaps| == |items| + 1
      && (forall q :: Covers(q) && q < |items| ==> items[q].id !in reserved)
      && (Covers(|items|) ==> gaps[|items|] == [])
    }
  }

  /** The gaps once the placement with drafts from `b` on has placed k songs. */
  function Grown(gaps: seq<seq<Id>>, span: Span, newIds: seq<Id>, b: nat, k: nat): seq<seq<Id>>
    requires span.End() < |gaps| && b + k <= |newIds|
  {
    if k <= span.m then gaps else gaps[span.End() := gaps[span.End()] + newIds[b + span.m..b + k]]
  }

  /** Draft b + j claims the j-th slot, or inserts. */
  ghost predicate PlacesAt(items: Agenda, drafts: seq<Draft>, b: nat, span: Span, j: nat) {
    && b + j < |drafts| && span.c + span.m <= |items|
    && if j < span.m then ClaimsSlot(drafts[b + j].body) && drafts[b + j].body.itemId == items[span.c + j].id
       else drafts[b + j].body.InsertItem?
  }

  ghost predicate Reserves(items: Agenda, before: set<Id>, reserved: set<Id>, lo: nat, hi: nat) {
    forall q :: 0 <= q < |items| ==> (items[q].id in reserved <==> items[q].id in before || lo <= q < hi)
  }

  /** The neighbour for the next insert, after k songs. */
  ghost predicate Neighbours(job: Job, p: Planning, d: Cursor, span: Span, k: nat) {
    if k <= span.m then
      d.lastKey == None && d.lastId == (if 0 < d.at <= |job.items| then Some(job.items[d.at - 1].id) else None)
    else
      p.drafts != [] && p.drafts[|p.drafts| - 1].body.InsertItem?
      && d.lastKey == Some(p.drafts[|p.drafts| - 1].body.resourceKey)
  }

  /** What holds inside the placement, between two songs. */
  ghost predicate Placing(job: Job, p: Planning, d: Cursor, newIds: seq<Id>, s: Setting, b: nat, span: Span,
                          gaps: seq<seq<Id>>, before: set<Id>)
  {
    && Setup(job, newIds, s) && Placed(job, p) && Steady(job, p, d)
    && b <= |p.drafts| <= |newIds| && |p.drafts| - b <= span.n && |gaps| == |job.items| + 1 && span.End() <= |job.items|
    && var k := |p.drafts| - b;
       && d.at == span.c + Least(k, span.m)
       && Weaves(job, p.drafts, newIds, s, Grown(gaps, span, newIds, b, k))
       && Reserves(job.items, before, p.reserved, span.c, span.c + Least(k, span.m))
       && Neighbours(job, p, d, span, k)
       && forall j :: 0 <= j < k ==> PlacesAt(job.items, p.drafts, b, span, j)
  }

  lemma PlacesAtLonger(items: Agenda, drafts: seq<Draft>, longer: seq<Draft>, b: nat, span: Span, k: nat)
    requires drafts <= longer && forall j :: 0 <= j < k ==> PlacesAt(items, drafts, b, span, j)
    ensures forall j :: 0 <= j < k ==> PlacesAt(items, longer, b, span, j)
  {
    forall j | 0 <= j < k ensures PlacesAt(items, longer, b, span, j) {
      assert PlacesAt(items, drafts, b, span, j);
      assert longer[b + j] == drafts[b + j];
    }
  }

  lemma SlotPlaces(job: Job, rule: PlacementRule, i: nat, p: Planning, d: Cursor, newIds: seq<Id>, s: Setting, b: nat,
                   span: Span, gaps: seq<seq<Id>>, before: set<Id>)
    requires Placing(job, p, d, newIds, s, b, span, gaps, before) && !d.blocked && i < |job.songIds|
    requires span.Fits(job.items) && span.Free(job.items, before, gaps)
    requires |p.drafts| - b < span.m && |p.drafts| < |newIds|
    ensures var (p', d') := PlaceSong(job, rule, i, p, d);
            !d'.blocked ==> Placing(job, p', d', newIds, s, b, span, gaps, before)
  {
    hide After, Runs, Weaves, Placed, Steady, PlaceSong, Woven;
    var (p', d') := PlaceSong(job, rule, i, p, d);
    var k := |p.drafts| - b;
    assert d.at == span.c + k && job.items[d.at].IsSong() && job.items[d.at].id !in p.reserved;
    if OwnedByOther(job, job.items[d.at].id) {
      SlotBlocks(job, rule, i, p, d);
    } else {
      Window.SlotClaimed(job, rule, i, p, d);
      var draft := p'.drafts[|p.drafts|];
      assert p'.drafts == p.drafts + [draft];
      SongKeeps(job, rule, i, p, d, newIds, s);
      ClaimWeaves(job, p.drafts, draft, newIds, s, gaps);
      PlacesAtLonger(job.items, p.drafts, p'.drafts, b, span, k);
      OneReserved(job, before, p.reserved, span.c, d.at);
    }
  }

  lemma OneReserved(job: Job, before: set<Id>, reserved: set<Id>, lo: nat, at: nat)
    requires job.Valid() && lo <= at < |job.items| && Reserves(job.items, before, reserved, lo, at)
    ensures Reserves(job.items, before, reserved + {job.items[at].id}, lo, at + 1)
  {
  }

  lemma SlotBlocks(job: Job, rule: PlacementRule, i: nat, p: Planning, d: Cursor)
    requires i < |job.songIds| && job.songIds[i] in job.resources && !d.blocked
    requires d.at < |job.items| && job.items[d.at].id !in p.reserved
    requires job.items[d.at].IsSong() && OwnedByOther(job, job.items[d.at].id)
    ensures PlaceSong(job, rule, i, p, d).1.blocked
  {
    assert SkipReserved(job.items, d.at, p.reserved) == d.at;
  }

  lemma SongKeeps(job: Job, rule: PlacementRule, i: nat, p: Planning, d: Cursor, newIds: seq<Id>, s: Setting)
    requires Setup(job, newIds, s) && Placed(job, p) && Steady(job, p, d) && i < |job.songIds| && !d.blocked
    requires |PlaceSong(job, rule, i, p, d).0.drafts| <= |newIds|
    ensures var (p', d') := PlaceSong(job, rule, i, p, d);
            Placed(job, p') && (!d'.blocked ==> Steady(job, p', d')) && Runs(job, p'.drafts, newIds, s)
  {
    hide PlaceSong, Placed, Steady;
    PlaceSongKeeps(job, rule, i, p, d);
    Window.SongRuns(job, rule, i, p, d, newIds, s);
  }

  /** The neighbour that an insert of the placement names stands right before its place. */
  lemma InsertGoesTo(job: Job, p: Planning, d: Cursor, newIds: seq<Id>, s: Setting, b: nat, span: Span,
                     gaps: seq<seq<Id>>, before: set<Id>)
    requires Placing(job, p, d, newIds, s, b, span, gaps, before)
    requires span.Fits(job.items) && span.Free(job.items, before, gaps)
    requires span.m <= |p.drafts| - b < span.n
    ensures GoesTo(PlaceFor(job.items, d.at, d.lastId, d.lastKey), After(job, p.drafts, newIds, s), job.items,
                   Grown(gaps, span, newIds, b, |p.drafts| - b), span.End())
  {
    hide After, Runs, Weaves, Placed, Steady, Woven, GoesTo, Ids, PlacesAt, Reserves;
    var k, now := |p.drafts| - b, Grown(gaps, span, newIds, b, |p.drafts| - b);
    if d.at < |job.items| {
      BeforeGoes(job, p.drafts, newIds, s, now, d.at);
    } else if k > span.m {
      NextGoes(job, p, newIds, s, now, d.lastKey.value, newIds[b + span.m..b + k]);
    } else {
      FirstGoes(job, p, newIds, s, now);
    }
  }

  /** Another insert at the very end goes after the one before. */
  lemma NextGoes(job: Job, p: Planning, newIds: seq<Id>, s: Setting, gaps: seq<seq<Id>>, key: Key, placed: seq<Id>)
    requires Weaves(job, p.drafts, newIds, s, gaps) && p.drafts != [] && |p.drafts| <= |newIds|
    requires p.drafts[|p.drafts| - 1].body.InsertItem? && p.drafts[|p.drafts| - 1].body.resourceKey == key
    requires gaps[|job.items|] == placed && placed != [] && placed[|placed| - 1] == newIds[|p.drafts| - 1]
    ensures GoesTo(AfterKey(key), After(job, p.drafts, newIds, s), job.items, gaps, |job.items|)
  {
    hide After, Runs, Woven, GoesTo, Ids, NeighbourOf;
    IdsSize(job.items);
    LastOfGap(Ids(job.items), gaps);
    KeyNames(job, p, newIds, s, key);
    AfterGoes(job, p.drafts, newIds, s, gaps, AfterKey(key), newIds[|p.drafts| - 1]);
  }

  /** The first insert at the very end goes after the last item. */
  lemma FirstGoes(job: Job, p: Planning, newIds: seq<Id>, s: Setting, gaps: seq<seq<Id>>)
    requires Weaves(job, p.drafts, newIds, s, gaps) && job.items != [] && gaps[|job.items|] == []
    ensures GoesTo(AfterId(job.items[|job.items| - 1].id), After(job, p.drafts, newIds, s), job.items, gaps, |job.items|)
  {
    hide After, Runs, Woven, GoesTo, Ids;
    IdsSize(job.items);
    LastOfGap(Ids(job.items), gaps);
    AfterGoes(job, p.drafts, newIds, s, gaps, AfterId(job.items[|job.items| - 1].id), job.items[|job.items| - 1].id);
  }

  lemma IdsSize(items: Agenda)
    ensures |Ids(items)| == |items|
    ensures items != [] ==> Ids(items)[|items| - 1] == items[|items| - 1].id
  {
  }

  lemma KeyNames(job: Job, p: Planning, newIds: seq<Id>, s: Setting, key: Key)
    requires Runs(job, p.drafts, newIds, s) && p.drafts != [] && |p.drafts| <= |newIds|
    requires p.drafts[|p.drafts| - 1].body.InsertItem? && p.drafts[|p.drafts| - 1].body.resourceKey == key
    ensures NeighbourOf(AfterKey(key), After(job, p.drafts, newIds, s).resources) == Some(AfterItem(newIds[|p.drafts| - 1]))
  {
    hide After, Runs;
    KeyOfLast(job, p, newIds, s, key);
  }

  lemma InsertPlaces(job: Job, rule: PlacementRule, i: nat, p: Planning, d: Cursor, newIds: seq<Id>, s: Setting, b: nat,
                     span: Span, gaps: seq<seq<Id>>, before: set<Id>)
    requires Placing(job, p, d, newIds, s, b, span, gaps, before) && !d.blocked && i < |job.songIds|
    requires span.Fits(job.items) && span.Free(job.items, before, gaps)
    requires span.m <= |p.drafts| - b < span.n && |p.drafts| < |newIds|
    ensures var (p', d') := PlaceSong(job, rule, i, p, d);
            !d'.blocked && Placing(job, p', d', newIds, s, b, span, gaps, before)
  {
    hide After, Runs, Weaves, Placed, Steady, PlaceSong, Woven, GoesTo;
    var (p', d') := PlaceSong(job, rule, i, p, d);
    var k := |p.drafts| - b;
    InsertGoesTo(job, p, d, newIds, s, b, span, gaps, before);
    Window.SongInserted(job, rule, i, p, d);
    var draft := p'.drafts[|p.drafts|];
    assert p'.drafts == p.drafts + [draft];
    SongKeeps(job, rule, i, p, d, newIds, s);
    WeavesSize(job, p.drafts, newIds, s, Grown(gaps, span, newIds, b, k));
    InsertWeaves(job, p.drafts, draft, newIds, s, Grown(gaps, span, newIds, b, k), span.End());
    GrownNext(gaps, span, newIds, b, k);
    PlacesAtLonger(job.items, p.drafts, p'.drafts, b, span, k);
  }

  lemma WeavesSize(job: Job, drafts: seq<Draft>, newIds: seq<Id>, s: Setting, gaps: seq<seq<Id>>)
    requires Weaves(job, drafts, newIds, s, gaps)
    ensures |gaps| == |job.items| + 1 && Runs(job, drafts, newIds, s)
  {
  }

  lemma GrownNext(gaps: seq<seq<Id>>, span: Span, newIds: seq<Id>, b: nat, k: nat)
    requires span.End() < |gaps| && b + k < |newIds| && k >= span.m
    ensures var now := Grown(gaps, span, newIds, b, k);
            now[span.End() := now[span.End()] + [newIds[b + k]]] == Grown(gaps, span, newIds, b, k + 1)
  {
    var e, x := span.End(), newIds[b + k];
    var placed := newIds[b + span.m..b + k];
    assert newIds[b + span.m..b + k + 1] == placed + [x];
    if k == span.m {
      assert placed + [x] == [x];
    } else {
      assert (gaps[e] + placed) + [x] == gaps[e] + (placed + [x]);
    }
  }

  lemma SongPlaces(job: Job, rule: PlacementRule, i: nat, p: Planning, d: Cursor, newIds: seq<Id>, s: Setting, b: nat,
                   span: Span, gaps: seq<seq<Id>>, before: set<Id>)
    requires Placing(job, p, d, newIds, s, b, span, gaps, before) && !d.blocked && i < |job.songIds|
    requires span.Fits(job.items) && span.Free(job.items, before, gaps)
    requires |p.drafts| - b < span.n && |p.drafts| < |newIds|
    ensures var (p', d') := PlaceSong(job, rule, i, p, d);
            !d'.blocked ==> Placing(job, p', d', newIds, s, b, span, gaps, before)
  {
    hide Placing, PlaceSong;
    Counted(job, p, d, newIds, s, b, span, gaps, before);
    if |p.drafts| - b < span.m {
      SlotPlaces(job, rule, i, p, d, newIds, s, b, span, gaps, before);
    } else {
      InsertPlaces(job, rule, i, p, d, newIds, s, b, span, gaps, before);
    }
  }

  lemma Counted(job: Job, p: Planning, d: Cursor, newIds: seq<Id>, s: Setting, b: nat, span: Span, gaps: seq<seq<Id>>, before: set<Id>)
    requires Placing(job, p, d, newIds, s, b, span, gaps, before)
    ensures b <= |p.drafts| && job.Valid()
  {
  }

  lemma SongsPlace(job: Job, rule: PlacementRule, lo: nat, hi: nat, p: Planning, d: Cursor, newIds: seq<Id>, s: Setting,
                   span: Span, gaps: seq<seq<Id>>, before: set<Id>)
    requires lo <= hi <= |job.songIds| && !d.blocked && span.n == hi - lo && |p.drafts| + span.n <= |newIds|
    requires Placing(job, p, d, newIds, s, |p.drafts|, span, gaps, before)
    requires span.Fits(job.items) && span.Free(job.items, before, gaps)
    ensures var (p', d') := PlaceSongs(job, rule, lo, hi, p, d);
            !d'.blocked ==> Placing(job, p', d', newIds, s, |p.drafts|, span, gaps, before)
  {
    ghost var inv := (q, e) => Placing(job, q, e, newIds, s, |p.drafts|, span, gaps, before);
    forall i, q, e | lo <= i < hi && inv(q, e) && !e.blocked && |q.drafts| == |p.drafts| + (i - lo)
      ensures Kept(PlaceSong(job, rule, i, q, e), inv)
    {
      SongPlaces(job, rule, i, q, e, newIds, s, |p.drafts|, span, gaps, before);
    }
    SongsKeep(job, rule, lo, hi, p, d, inv);
  }
}
