/** Planning again after a run: on the agenda and with the ownership rows the run
    left, AFTER placements have nothing left to do, and a BEFORE or AT placement
    inserts its songs once more. */
module Replan {
  import opened Prelude
  import opened Agendas
  import opened Actions
  import opened Layout
  import opened LayoutProofs
  import opened Sorting
  import opened Placements
  import opened PlanShape
  import opened PlanTheorems
  import opened PlanOrder
  import opened Setlist
  import opened Weaving
  import opened Slices
  import opened Window
  import opened RunRows
  import opened StandingSongs
  import opened Anchors

  /** `again` is the planning input after the plan of `job` was carried out: the
      agenda and the rows it left, and every song known to the target by now.  No
      anchor matches a song, neither before nor after. */
  ghost predicate Replanning(job: Job, rules: seq<PlacementRule>, newIds: seq<Id>, s: Setting, again: Job) {
    && Executable(job, rules, newIds, s) && Apart(job, rules) && Unbound(newIds, job.ownerships)
    && again.profileId == job.profileId && again.songIds == job.songIds && again.normalize == job.normalize
    && again.items == Final(job, rules, newIds, s)
    && (forall r :: 0 <= r < |rules| ==>
          NoSongMatches(rules[r].anchor, job.items, job.normalize) && NoSongMatches(rules[r].anchor, again.items, job.normalize))
    && |Drafted(job, rules).drafts| <= |newIds|
    && Some(again.ownerships) == RowsAfter(job, Drafted(job, rules).drafts, newIds, s)
    && forall i :: 0 <= i < |job.songIds| ==>
         && job.songIds[i] in again.resources
         && again.resources[job.songIds[i]] == Resolved(job.resources[job.songIds[i]], s)
  }

  ghost function Resolved(song: SongRef, s: Setting): SongRef {
    SongRef(SongOf(song, s.resources), None, ArrangementOf(song, s.resources), None)
  }

  lemma ShownLiterally(item: AgendaItem, song: SongRef, s: Setting)
    requires ShownAs(item, song, s)
    ensures item.IsSong() && SlotShows(Resolved(song, s), item)
  {
  }

  // The anchors.

  /** Deletes hit only songs. */
  lemma DeletedIsSong(job: Job, rules: seq<PlacementRule>, newIds: seq<Id>, s: Setting, n: nat)
    requires Executable(job, rules, newIds, s)
    ensures DeletesSongs(job.items, Drafted(job, rules).drafts, n)
  {
    var all := Drafted(job, rules).drafts;
    forall q | 0 <= q < |job.items| && Deleted(all, n, job.items[q].id) ensures job.items[q].IsSong() {
      var j :| n <= j < |all| && Deletes(all[j].body, job.items[q].id);
      assert Planned(job, rules)[j] == all[j].body;
      DeletesAreAuthorized(job, rules, j);
    }
  }

  /** What cleanup deletes of the rebuilt agenda are songs. */
  lemma RebuiltDeletesSongs(items: Agenda, own: Agenda, inserted: seq<Agenda>, drafts: seq<Draft>, n: nat)
    requires |own| == |items| && |inserted| == |own| + 1 && DeletesSongs(items, drafts, n)
    requires forall q :: 0 <= q < |own| ==> own[q].id == items[q].id && SongOrSame(items[q], own[q])
    requires forall q :: 0 <= q <= |own| ==> OnlySongs(inserted[q])
    ensures DeletesSongs(Woven(own, inserted), drafts, n)
  {
    hide Deleted, Woven;
    var now := Woven(own, inserted);
    forall k | 0 <= k < |now| && Deleted(drafts, n, now[k].id) ensures now[k].IsSong() {
      WovenComes(own, inserted, k);
    }
  }

  lemma {:induction false} WovenComes<T>(items: seq<T>, gaps: seq<seq<T>>, k: nat)
    requires |gaps| == |items| + 1 && k < |Woven(items, gaps)|
    ensures (exists q :: 0 <= q < |items| && Woven(items, gaps)[k] == items[q])
            || exists q :: 0 <= q <= |items| && Woven(items, gaps)[k] in gaps[q]
  {
    var n := |items|;
    var x := Woven(items, gaps)[k];
    if n == 0 {
      assert x in gaps[0];
    } else {
      var rest := Woven(items[..n - 1], gaps[..n]);
      if k < |rest| {
        var front, before := items[..n - 1], gaps[..n];
        WovenComes(front, before, k);
        if q :| 0 <= q < |front| && rest[k] == front[q] {
          assert x == items[q];
        } else {
          var q :| 0 <= q <= |front| && rest[k] in before[q];
          assert x in gaps[q];
        }
      } else if k == |rest| {
        assert x == items[n - 1];
      } else {
        assert x == gaps[n][k - |rest| - 1];
        assert x in gaps[n];
      }
    }
  }

  /** Only songs come, go or change. */
  lemma RebuiltSongs(job: Job, rules: seq<PlacementRule>, newIds: seq<Id>, s: Setting, own: Agenda, inserted: seq<Agenda>)
    requires job.Valid() && Rebuilt(job, rules, newIds, s, own, inserted)
    ensures forall q :: 0 <= q < |own| ==> own[q].id == job.items[q].id && SongOrSame(job.items[q], own[q])
    ensures forall q :: 0 <= q <= |own| ==> OnlySongs(inserted[q])
  {
    hide SpanOf, Size, ShowsSlice, Claims, SongOrSame, OnlySongs;
    forall q | 0 <= q < |own| ensures SongOrSame(job.items[q], own[q]) {
      if ClaimedBy(job, rules, q) {
        var r :| 0 <= r < |rules| && Claims(job, rules[r], q);
        SlotIsSong(job, rules, newIds, s, own, inserted, r, q);
      } else {
        SameItem(own[q]);
      }
    }
    forall q | 0 <= q <= |own| ensures OnlySongs(inserted[q]) {
      if !NoneInserts(job, rules, q) {
        var r :| 0 <= r < |rules| && InsertsAt(job, rules[r], q);
        InsertedAreSongs(job, rules, newIds, s, own, inserted, r);
      } else {
        EmptyHasSongs(inserted[q]);
      }
    }
  }

  lemma EmptyHasSongs(items: Agenda)
    requires items == []
    ensures OnlySongs(items)
  {
  }

  lemma SameItem(item: AgendaItem)
    ensures SongOrSame(item, item)
  {
  }

  lemma SlotIsSong(job: Job, rules: seq<PlacementRule>, newIds: seq<Id>, s: Setting, own: Agenda, inserted: seq<Agenda>,
                   r: nat, q: nat)
    requires job.Valid() && Rebuilt(job, rules, newIds, s, own, inserted) && r < |rules| && q < |own|
    requires Claims(job, rules[r], q)
    ensures SongOrSame(job.items[q], own[q])
  {
    hide SpanOf, Size;
    ClaimedIsSong(job, rules[r], q);
    var span := SpanOf(job, rules[r]);
    var block := Slices.Block(span, own, inserted);
    assert block[q - span.c] == own[q];
    assert ShowsAt(job, rules, newIds, s, r, block, q - span.c);
  }

  lemma ClaimedIsSong(job: Job, rule: PlacementRule, q: nat)
    requires Claims(job, rule, q) && q < |job.items|
    ensures job.items[q].IsSong()
  {
  }

  lemma InsertedAreSongs(job: Job, rules: seq<PlacementRule>, newIds: seq<Id>, s: Setting, own: Agenda, inserted: seq<Agenda>, r: nat)
    requires job.Valid() && Rebuilt(job, rules, newIds, s, own, inserted) && r < |rules|
    requires SpanOf(job, rules[r]).m < SpanOf(job, rules[r]).n
    ensures SpanOf(job, rules[r]).End() < |inserted| && OnlySongs(inserted[SpanOf(job, rules[r]).End()])
  {
    hide SpanOf, Size;
    var span := SpanOf(job, rules[r]);
    var block := Slices.Block(span, own, inserted);
    forall i | 0 <= i < |inserted[span.End()]| ensures inserted[span.End()][i].IsSong() {
      assert block[span.m + i] == inserted[span.End()][i];
      assert ShowsAt(job, rules, newIds, s, r, block, span.m + i);
    }
  }

  /** Every anchor matches the same items again. */
  lemma AnchorsStay(job: Job, rules: seq<PlacementRule>, newIds: seq<Id>, s: Setting, again: Job, own: Agenda,
                    inserted: seq<Agenda>, r: nat)
    requires Replanning(job, rules, newIds, s, again) && job.Valid() && r < |rules|
    requires Rebuilt(job, rules, newIds, s, own, inserted)
    requires again.items == Spared(Woven(own, inserted), Drafted(job, rules).drafts, |PlaceRules(job, rules).drafts|)
    ensures Matching(rules[r].anchor, again.items, again.normalize) == Matching(rules[r].anchor, job.items, job.normalize)
  {
    hide Executable, Apart, Rebuilt, Woven, Spared, NonSongs, Matching, Drafted, PlaceRules, OnlySongs, SongOrSame;
    var all, k := Drafted(job, rules).drafts, |PlaceRules(job, rules).drafts|;
    RebuiltSizes(job, rules, newIds, s, own, inserted);
    RebuiltSongs(job, rules, newIds, s, own, inserted);
    DeletedIsSong(job, rules, newIds, s, k);
    RebuiltDeletesSongs(job.items, own, inserted, all, k);
    NonSongsSpared(Woven(own, inserted), all, k);
    NonSongsWoven(job.items, own, inserted);
    MatchNonSongs(rules[r].anchor, again.items, job.normalize);
    MatchNonSongs(rules[r].anchor, job.items, job.normalize);
  }

  lemma RebuiltSizes(job: Job, rules: seq<PlacementRule>, newIds: seq<Id>, s: Setting, own: Agenda, inserted: seq<Agenda>)
    requires job.Valid() && Rebuilt(job, rules, newIds, s, own, inserted)
    ensures |own| == |job.items| && |inserted| == |own| + 1
  {
  }

  // Where a placement starts again.

  /** The anchor itself: not a song, still there, and as it was. */
  lemma AnchorRemains(job: Job, rules: seq<PlacementRule>, newIds: seq<Id>, s: Setting, again: Job, own: Agenda,
                      inserted: seq<Agenda>, r: nat)
    requires Replanning(job, rules, newIds, s, again) && job.Valid() && r < |rules|
    requires Rebuilt(job, rules, newIds, s, own, inserted) && Matching(rules[r].anchor, job.items, job.normalize) != []
    ensures var anchors := Matching(rules[r].anchor, job.items, job.normalize);
            var j := AnchorIndex(job.items, anchors);
            && j < |job.items| == |own| && own[j] == job.items[j] == anchors[0] && !anchors[0].IsSong()
            && !Deleted(Drafted(job, rules).drafts, |PlaceRules(job, rules).drafts|, anchors[0].id)
  {
    hide Executable, Apart, Rebuilt, Drafted, PlaceRules, Final, Deleted;
    var anchors := Matching(rules[r].anchor, job.items, job.normalize);
    AnchorFound(rules[r].anchor, job.items, job.normalize);
    var j := AnchorIndex(job.items, anchors);
    FilterMember(job.items, (item: AgendaItem) => AnchorMatches(rules[r].anchor, item, job.normalize), anchors[0]);
    RebuiltSizes(job, rules, newIds, s, own, inserted);
    RebuiltSongs(job, rules, newIds, s, own, inserted);
    DeletedIsSong(job, rules, newIds, s, |PlaceRules(job, rules).drafts|);
  }

  /** The second planning finds its cursor right before the songs of an AFTER placement,
      and right behind those of another one, on the anchor. */
  lemma AgainAt(job: Job, rules: seq<PlacementRule>, newIds: seq<Id>, s: Setting, again: Job, own: Agenda,
                inserted: seq<Agenda>, r: nat) returns (at: nat, block: Agenda)
    requires Replanning(job, rules, newIds, s, again) && job.Valid() && again.Valid() && r < |rules|
    requires Rebuilt(job, rules, newIds, s, own, inserted)
    requires again.items == Spared(Woven(own, inserted), Drafted(job, rules).drafts, |PlaceRules(job, rules).drafts|)
    requires Matching(rules[r].anchor, job.items, job.normalize) != [] && Size(job, rules[r]) > 0
    ensures Matching(rules[r].anchor, again.items, again.normalize) == Matching(rules[r].anchor, job.items, job.normalize)
    ensures ShowsSlice(job, rules, newIds, s, r, block)
    ensures at + |block| <= |again.items| && again.items[at..at + |block|] == block
    ensures RuleStart(again, rules[r]).at == if rules[r].relation == AFTER then at else at + |block|
    ensures rules[r].relation != AFTER ==> at + |block| < |again.items| && !again.items[at + |block|].IsSong()
  {
    hide Executable, Apart, Rebuilt, Woven, Rest, Spared, Matching, Drafted, PlaceRules, Final, Deleted, ShowsSlice, AnchorIndex, Slices.Block;
    var front, back;
    front, block, back := SliceAround(job, rules, newIds, s, own, inserted, r);
    AnchorsStay(job, rules, newIds, s, again, own, inserted, r);
    AnchorRemains(job, rules, newIds, s, again, own, inserted, r);
    var all, k, anchors := Drafted(job, rules).drafts, |PlaceRules(job, rules).drafts|, Matching(rules[r].anchor, job.items, job.normalize);
    var j, span := AnchorIndex(job.items, anchors), SpanOf(job, rules[r]);
    SpanStart(job, rules[r]);
    AroundAnchor(own, inserted, front, back, span.c, j, all, k);
    at := |Spared(front, all, k)|;
    BlockAt(again.items, Spared(front, all, k), block, Spared(back, all, k));
    AnchorAt(again, rules[r], anchors, if rules[r].relation == AFTER then at - 1 else at + |block|);
  }

  lemma SpanStart(job: Job, rule: PlacementRule)
    requires Matching(rule.anchor, job.items, job.normalize) != [] && Size(job, rule) > 0
    requires var j := AnchorIndex(job.items, Matching(rule.anchor, job.items, job.normalize));
             j < |job.items| && !job.items[j].IsSong()
    ensures var span, j := SpanOf(job, rule), AnchorIndex(job.items, Matching(rule.anchor, job.items, job.normalize));
            if rule.relation == AFTER then span.c == j + 1 else span.c == j == span.End() && span.m < span.n
  {
  }

  lemma BlockAt<T>(now: seq<T>, front: seq<T>, block: seq<T>, back: seq<T>)
    requires now == front + block + back
    ensures |front| + |block| <= |now| && now[|front|..|front| + |block|] == block
    ensures front != [] ==> now[|front| - 1] == front[|front| - 1]
    ensures back != [] ==> |front| + |block| < |now| && now[|front| + |block|] == back[0]
  {
  }

  lemma AnchorAt(job: Job, rule: PlacementRule, anchors: Agenda, k: nat)
    requires job.Valid() && Matching(rule.anchor, job.items, job.normalize) == anchors != []
    requires k < |job.items| && job.items[k] == anchors[0]
    ensures RuleStart(job, rule).at == if rule.relation == AFTER then k + 1 else k
  {
    ItemStandsAt(job.items, k);
  }

  // What the second planning finds there.

  /** The items that the first n drafts are about. */
  ghost function IdsTo(drafts: seq<Draft>, newIds: seq<Id>, n: nat): set<Id>
    requires n <= |drafts| <= |newIds|
  {
    set j | 0 <= j < n :: TargetIds(drafts, newIds)[j]
  }

  ghost predicate ClaimItems(job: Job, drafts: seq<Draft>) {
    forall j :: 0 <= j < |drafts| && ClaimsSlot(drafts[j].body) ==> InAgenda(job.items, drafts[j].body.itemId)
  }

  lemma {:induction false} SongsClaimItems(job: Job, rule: PlacementRule, lo: nat, k: nat, p: Planning, c: Cursor)
    requires job.Valid() && lo <= k <= |job.songIds| && ClaimItems(job, p.drafts)
    ensures ClaimItems(job, PlaceSongs(job, rule, lo, k, p, c).0.drafts)
  {
    if k > lo {
      SongsClaimItems(job, rule, lo, k - 1, p, c);
    }
  }

  lemma {:induction false} RulesClaimItems(job: Job, rules: seq<PlacementRule>)
    requires job.Valid()
    ensures ClaimItems(job, PlaceRules(job, rules).drafts)
  {
    if rules != [] {
      var earlier, rule := rules[..|rules| - 1], rules[|rules| - 1];
      var p := PlaceRules(job, earlier);
      RulesClaimItems(job, earlier);
      if Admitted(job, rule, p) {
        RuleIs(job, rule, p);
        SongsClaimItems(job, rule, SliceStart(rule, |job.songIds|), SliceEnd(rule, |job.songIds|), StartOf(job, rule, p), RuleStart(job, rule));
      }
    }
  }

  /** No two drafts of placements are about the same item. */
  lemma TargetIdsDistinct(job: Job, p: Planning, newIds: seq<Id>, i: nat, j: nat)
    requires Placed(job, p) && ClaimItems(job, p.drafts) && Fresh(newIds, job.items) && i < j < |p.drafts| <= |newIds|
    ensures TargetIds(p.drafts, newIds)[i] != TargetIds(p.drafts, newIds)[j]
  {
    var bodies := Bodies(p.drafts);
    assert bodies[i] == p.drafts[i].body && bodies[j] == p.drafts[j].body;
  }

  /** A row for an item the run placed is the profile's own. */
  lemma PlacedIsOwn(job: Job, rules: seq<PlacementRule>, newIds: seq<Id>, s: Setting, again: Job, j: nat)
    requires Replanning(job, rules, newIds, s, again) && j < |PlaceRules(job, rules).drafts| <= |newIds|
    ensures !OwnedByOther(again, TargetIds(PlaceRules(job, rules).drafts, newIds)[j])
  {
    var all, placed := Drafted(job, rules).drafts, PlaceRules(job, rules).drafts;
    var id := TargetIds(placed, newIds)[j];
    PlanIsClaimable(job, rules, newIds, s);
    RowsFromRun(job, all, newIds, s);
    OwnershipIsRow(again.ownerships, id);
    DraftedIsCleaned(job, rules);
    assert all[j] == placed[j];
    if OwnershipOf(again.ownerships, id).Some? {
      var o := OwnershipOf(again.ownerships, id).value;
      assert FromRun(job, all, newIds, o);
    }
  }

  /** The songs of a block stand where the second planning looks for them. */
  lemma BlockStandsAgain(job: Job, rules: seq<PlacementRule>, newIds: seq<Id>, s: Setting, again: Job, r: nat, at: nat, block: Agenda)
    requires Replanning(job, rules, newIds, s, again) && job.Valid() && r < |rules|
    requires ShowsSlice(job, rules, newIds, s, r, block)
    requires at + |block| <= |again.items| && again.items[at..at + |block|] == block
    ensures Standing(again, SliceStart(rules[r], |job.songIds|), SliceEnd(rules[r], |job.songIds|), at)
    ensures var b, placed := Offset(job, rules, r), PlaceRules(job, rules).drafts;
            && b + |block| <= |placed| <= |newIds|
            && forall i :: 0 <= i < |block| ==> IsTarget(again.items, at, placed, newIds, b, i)
  {
    hide Executable, Apart, PlaceRules, Drafted, Places, Stands, ShowsAt, Final, NoSongMatches, RowsAfter, TargetIds, Size, Offset;
    RulePlaces(job, rules, newIds, s, r);
    SizeIs(job, rules[r]);
    var lo, b, placed := SliceStart(rules[r], |job.songIds|), Offset(job, rules, r), PlaceRules(job, rules).drafts;
    forall i | 0 <= i < |block|
      ensures Stands(again, lo, at, i)
      ensures IsTarget(again.items, at, placed, newIds, b, i)
    {
      assert again.items[at + i] == again.items[at..at + |block|][i] == block[i];
      SongStandsAgain(job, rules, newIds, s, again, r, at, block, i);
    }
    SliceFits(job, rules, newIds, s, r);
  }

  /** Item at + i is the one that draft b + i is about. */
  ghost predicate IsTarget(items: Agenda, at: nat, drafts: seq<Draft>, newIds: seq<Id>, b: nat, i: nat) {
    && b + i < |drafts| <= |newIds| && at + i < |items| && items[at + i].id == TargetIds(drafts, newIds)[b + i]
  }

  lemma SliceFits(job: Job, rules: seq<PlacementRule>, newIds: seq<Id>, s: Setting, r: nat)
    requires Executable(job, rules, newIds, s) && job.Valid() && r < |rules|
    ensures Offset(job, rules, r) + Size(job, rules[r]) <= |PlaceRules(job, rules).drafts| <= |newIds|
    ensures Offset(job, rules, r) + Size(job, rules[r]) == |PlaceRules(job, rules[..r + 1]).drafts|
  {
    RuleSpan(job, rules, r);
    PlacedWithoutErrors(job, rules, newIds, s);
  }

  lemma SongStandsAgain(job: Job, rules: seq<PlacementRule>, newIds: seq<Id>, s: Setting, again: Job, r: nat, at: nat,
                        block: Agenda, i: nat)
    requires Replanning(job, rules, newIds, s, again) && job.Valid() && r < |rules| && i < |block| == Size(job, rules[r])
    requires ShowsAt(job, rules, newIds, s, r, block, i) && Places(job, rules, PlaceRules(job, rules).drafts, r)
    requires at + i < |again.items| && again.items[at + i] == block[i] && |PlaceRules(job, rules).drafts| <= |newIds|
    ensures Stands(again, SliceStart(rules[r], |job.songIds|), at, i)
    ensures var j := Offset(job, rules, r) + i;
            j < |PlaceRules(job, rules).drafts| && block[i].id == TargetIds(PlaceRules(job, rules).drafts, newIds)[j]
  {
    hide Executable, Apart, PlaceRules, Drafted, Places, Final, NoSongMatches, RowsAfter, TargetIds, OwnedByOther, SlotShows,
         ShownAs, SpanOf;
    var lo := SliceStart(rules[r], |job.songIds|);
    SizeIs(job, rules[r]);
    BlockTarget(job, rules, newIds, s, r, block, i);
    PlacedIsOwn(job, rules, newIds, s, again, Offset(job, rules, r) + i);
    ShownLiterally(block[i], job.resources[job.songIds[lo + i]], s);
    assert again.resources[job.songIds[lo + i]] == Resolved(job.resources[job.songIds[lo + i]], s);
  }

  // One placement after the other.

  /** The second planning so far: NOOPs only, for the same songs and items. */
  ghost predicate Resting(job: Job, rules: seq<PlacementRule>, newIds: seq<Id>, again: Job, r: nat)
    requires job.Valid() && again.Valid() && r <= |rules| && |PlaceRules(job, rules).drafts| <= |newIds|
    requires Offset(job, rules, r) <= |PlaceRules(job, rules).drafts|
  {
    var p, q := PlaceRules(job, rules[..r]), PlaceRules(again, rules[..r]);
    && !HasErrors(q.issues) && |q.drafts| == |p.drafts| && (forall j :: 0 <= j < |q.drafts| ==> q.drafts[j].body.Noop?)
    && q.used == p.used && q.desired == p.desired
    && q.reserved == IdsTo(PlaceRules(job, rules).drafts, newIds, |p.drafts|)
  }

  /** The rule has nothing to do again. */
  predicate Quiet(job: Job, rule: PlacementRule) { rule.relation == AFTER || Size(job, rule) == 0 }

  lemma MoreIds(job: Job, rules: seq<PlacementRule>, newIds: seq<Id>, s: Setting, again: Job, at: nat, b: nat, n: nat)
    requires Executable(job, rules, newIds, s) && job.Valid()
    requires var placed := PlaceRules(job, rules).drafts;
             && b + n <= |placed| <= |newIds| && at + n <= |again.items|
             && forall i :: 0 <= i < n ==> IsTarget(again.items, at, placed, newIds, b, i)
    ensures var placed := PlaceRules(job, rules).drafts;
            && IdsTo(placed, newIds, b) + SpanIds(again.items, at, n) == IdsTo(placed, newIds, b + n)
            && forall q :: at <= q < at + n ==> again.items[q].id !in IdsTo(placed, newIds, b)
  {
    hide PlaceRules, TargetIds, Executable;
    var p := PlaceRules(job, rules);
    TargetsDiffer(job, rules, newIds, s);
    forall q | at <= q < at + n
      ensures again.items[q].id == TargetIds(p.drafts, newIds)[b + (q - at)] && again.items[q].id !in IdsTo(p.drafts, newIds, b)
    {
      assert IsTarget(again.items, at, p.drafts, newIds, b, q - at);
    }
    MoreMembers(again.items, at, p.drafts, newIds, b, n);
  }

  lemma MoreMembers(items: Agenda, at: nat, drafts: seq<Draft>, newIds: seq<Id>, b: nat, n: nat)
    requires b + n <= |drafts| <= |newIds| && at + n <= |items|
    requires forall i :: 0 <= i < n ==> IsTarget(items, at, drafts, newIds, b, i)
    ensures IdsTo(drafts, newIds, b) + SpanIds(items, at, n) == IdsTo(drafts, newIds, b + n)
  {
    hide TargetIds;
    forall x ensures x in IdsTo(drafts, newIds, b) + SpanIds(items, at, n) <==> x in IdsTo(drafts, newIds, b + n) {
      if x in SpanIds(items, at, n) {
        var q :| at <= q < at + n && items[q].id == x;
        assert IsTarget(items, at, drafts, newIds, b, q - at);
      }
      if x in IdsTo(drafts, newIds, b + n) {
        var j :| 0 <= j < b + n && TargetIds(drafts, newIds)[j] == x;
        if j >= b {
          assert IsTarget(items, at, drafts, newIds, b, j - b);
        }
      }
    }
  }

  lemma TargetsDiffer(job: Job, rules: seq<PlacementRule>, newIds: seq<Id>, s: Setting)
    requires Executable(job, rules, newIds, s) && job.Valid() && |PlaceRules(job, rules).drafts| <= |newIds|
    ensures var ids := TargetIds(PlaceRules(job, rules).drafts, newIds);
            forall i, j :: 0 <= i < j < |ids| ==> ids[i] != ids[j]
  {
    var p := PlaceRules(job, rules);
    PlaceRulesKeep(job, rules);
    RulesClaimItems(job, rules);
    forall i, j | 0 <= i < j < |p.drafts| ensures TargetIds(p.drafts, newIds)[i] != TargetIds(p.drafts, newIds)[j] {
      TargetIdsDistinct(job, p, newIds, i, j);
    }
  }

  /** The agenda and the plan that the second planning starts from. */
  ghost predicate Remade(job: Job, rules: seq<PlacementRule>, newIds: seq<Id>, s: Setting, again: Job, own: Agenda,
                         inserted: seq<Agenda>)
  {
    && Replanning(job, rules, newIds, s, again) && job.Valid() && again.Valid()
    && Rebuilt(job, rules, newIds, s, own, inserted) && |PlaceRules(job, rules).drafts| <= |newIds|
    && again.items == Spared(Woven(own, inserted), Drafted(job, rules).drafts, |PlaceRules(job, rules).drafts|)
  }

  /** The rule is admitted again. */
  lemma AdmittedAgain(job: Job, rules: seq<PlacementRule>, newIds: seq<Id>, s: Setting, again: Job, own: Agenda,
                      inserted: seq<Agenda>, r: nat)
    requires Remade(job, rules, newIds, s, again, own, inserted) && r < |rules|
    requires PlaceRules(again, rules[..r]).used == PlaceRules(job, rules[..r]).used
    ensures var rule, p, q := rules[r], PlaceRules(job, rules[..r]), PlaceRules(again, rules[..r]);
            var lo, hi := SliceStart(rule, |job.songIds|), SliceEnd(rule, |job.songIds|);
            && Matching(rule.anchor, job.items, job.normalize) != [] && Admitted(again, rule, q)
            && PlaceRules(job, rules[..r + 1]).used == p.used + Indexes(rule, |job.songIds|)
            && PlaceRules(job, rules[..r + 1]).desired == p.desired + KeysOf(rule, job.songIds, lo, hi)
            && PlaceRules(again, rules[..r + 1]) == PlaceRule(again, rule, q)
            && RuleStart(again, rule).at <= |again.items|
  {
    hide Rebuilt, Apart, Indexes, KeysOf, Spared, Woven, Matching, AnchorMatches, PlaceRule, HasErrors, Final, RowsAfter,
         NoSongMatches, Unbound;
    var rule, p := rules[r], PlaceRules(job, rules[..r]);
    assert rules[..r + 1] == rules[..r] + [rule];
    LastRule(job, rules[..r], rule);
    LastRule(again, rules[..r], rule);
    NoEarlierErrors(job, rules, r + 1);
    RuleDesires(job, rule, p);
    AnchorsStay(job, rules, newIds, s, again, own, inserted, r);
    AnchorFound(rule.anchor, again.items, again.normalize);
  }

  /** The songs of a quiet rule stand where the second planning starts. */
  lemma QuietStands(job: Job, rules: seq<PlacementRule>, newIds: seq<Id>, s: Setting, again: Job, own: Agenda,
                    inserted: seq<Agenda>, r: nat)
    requires Remade(job, rules, newIds, s, again, own, inserted) && r < |rules| && Quiet(job, rules[r])
    requires Matching(rules[r].anchor, job.items, job.normalize) != []
    requires Matching(rules[r].anchor, again.items, again.normalize) != [] && RuleStart(again, rules[r]).at <= |again.items|
    ensures var rule, at, b, n := rules[r], RuleStart(again, rules[r]).at, Offset(job, rules, r), Size(job, rules[r]);
            var placed := PlaceRules(job, rules).drafts;
            && Standing(again, SliceStart(rule, |job.songIds|), SliceEnd(rule, |job.songIds|), at)
            && b + n <= |placed| && at + n <= |again.items|
            && forall i :: 0 <= i < n ==> IsTarget(again.items, at, placed, newIds, b, i)
  {
    hide Rebuilt, Apart, Spared, Woven, Matching, PlaceRules, Drafted, Executable, Final, RowsAfter, Stands, IsTarget, Size, Offset,
         RuleStart, ShowsSlice;
    SizeIs(job, rules[r]);
    SliceFits(job, rules, newIds, s, r);
    if Size(job, rules[r]) > 0 {
      var at, block := AgainAt(job, rules, newIds, s, again, own, inserted, r);
      BlockStandsAgain(job, rules, newIds, s, again, r, at, block);
      SliceSize(job, rules, newIds, s, r, block);
    }
  }

  lemma SliceSize(job: Job, rules: seq<PlacementRule>, newIds: seq<Id>, s: Setting, r: nat, block: Agenda)
    requires job.Valid() && r < |rules| && ShowsSlice(job, rules, newIds, s, r, block)
    ensures |block| == Size(job, rules[r])
  {
  }

  lemma RestingNext(job: Job, rules: seq<PlacementRule>, newIds: seq<Id>, s: Setting, again: Job, own: Agenda,
                    inserted: seq<Agenda>, r: nat)
    requires Remade(job, rules, newIds, s, again, own, inserted) && r < |rules| && Quiet(job, rules[r])
    requires Offset(job, rules, r) <= |PlaceRules(job, rules).drafts| && Resting(job, rules, newIds, again, r)
    ensures Offset(job, rules, r + 1) <= |PlaceRules(job, rules).drafts| && Resting(job, rules, newIds, again, r + 1)
  {
    hide Rebuilt, Apart, Spared, Woven, Matching, PlaceRules, PlaceRule, Drafted, Executable, Final, RowsAfter, Standing, IsTarget, Size,
         RuleStart, Indexes, KeysOf, IdsTo, SpanIds, HasErrors, Unbound, NoSongMatches, Quiet, Admitted;
    var rule, q := rules[r], PlaceRules(again, rules[..r]);
    AdmittedAgain(job, rules, newIds, s, again, own, inserted, r);
    AdmittedMatches(again, rule, q);
    QuietStands(job, rules, newIds, s, again, own, inserted, r);
    var at, b, n := RuleStart(again, rule).at, Offset(job, rules, r), Size(job, rule);
    SizeIs(job, rule);
    SliceFits(job, rules, newIds, s, r);
    MoreIds(job, rules, newIds, s, again, at, b, n);
    RuleIdles(again, rule, q);
  }

  lemma AdmittedMatches(job: Job, rule: PlacementRule, p: Planning)
    requires Admitted(job, rule, p)
    ensures Matching(rule.anchor, job.items, job.normalize) != []
  {
  }

  lemma Remaking(job: Job, rules: seq<PlacementRule>, newIds: seq<Id>, s: Setting, again: Job)
    returns (own: Agenda, inserted: seq<Agenda>)
    requires Replanning(job, rules, newIds, s, again)
    ensures Remade(job, rules, newIds, s, again, own, inserted)
  {
    hide Executable, Apart, Rebuilt, Final, Drafted, PlaceRules, Spared, Woven, RowsAfter, NoSongMatches, Unbound;
    PlacedWithoutErrors(job, rules, newIds, s);
    own, inserted := SlicesAreWoven(job, rules, newIds, s);
    FinalHoldsExactly(job, rules, newIds, s, "");
  }

  lemma {:induction false} RestsUpTo(job: Job, rules: seq<PlacementRule>, newIds: seq<Id>, s: Setting, again: Job, own: Agenda,
                                     inserted: seq<Agenda>, r: nat)
    requires Remade(job, rules, newIds, s, again, own, inserted) && r <= |rules|
    requires forall i :: 0 <= i < r ==> Quiet(job, rules[i])
    ensures Offset(job, rules, r) <= |PlaceRules(job, rules).drafts| && Resting(job, rules, newIds, again, r)
  {
    hide Replanning, Rebuilt, Spared, Woven, Drafted, Quiet;
    if r == 0 {
      assert rules[..0] == [];
    } else {
      RestsUpTo(job, rules, newIds, s, again, own, inserted, r - 1);
      RestingNext(job, rules, newIds, s, again, own, inserted, r - 1);
    }
  }

  // Cleanup has nothing to do either.

  /** Every row of the run is still wanted by the second plan. */
  lemma RowIsWanted(job: Job, rules: seq<PlacementRule>, newIds: seq<Id>, s: Setting, again: Job, wanted: Planning, o: Ownership)
    requires Replanning(job, rules, newIds, s, again) && job.Valid() && |PlaceRules(job, rules).drafts| <= |newIds|
    requires wanted.desired == PlaceRules(job, rules).desired
    requires wanted.reserved == IdsTo(PlaceRules(job, rules).drafts, newIds, |PlaceRules(job, rules).drafts|)
    requires o in again.ownerships
    ensures !Surplus(again, o, wanted)
  {
    hide Executable, Apart, Final, NoSongMatches, PlaceRules, TargetIds;
    var all, placed := Drafted(job, rules).drafts, PlaceRules(job, rules).drafts;
    PlanIsClaimable(job, rules, newIds, s);
    RowsFromRun(job, all, newIds, s);
    assert FromRun(job, all, newIds, o);
    if o.profileId == job.profileId {
      if PlacedAt(all, newIds, o.agendaItemId) {
        CleanedUp(job, rules, newIds, s);
        var j := PlacedIsTarget(placed, all, newIds, o.agendaItemId);
        assert o.agendaItemId in IdsTo(placed, newIds, |placed|);
      } else {
        OldRowIsWanted(job, rules, newIds, s, wanted, o);
      }
    }
  }

  lemma CleanedUp(job: Job, rules: seq<PlacementRule>, newIds: seq<Id>, s: Setting)
    requires Executable(job, rules, newIds, s)
    ensures var all, placed := Drafted(job, rules).drafts, PlaceRules(job, rules).drafts;
            placed <= all && forall i :: |placed| <= i < |all| ==> TidiesUp(all[i].body)
  {
    DraftedIsCleaned(job, rules);
  }

  lemma OldRowIsWanted(job: Job, rules: seq<PlacementRule>, newIds: seq<Id>, s: Setting, wanted: Planning, o: Ownership)
    requires Executable(job, rules, newIds, s) && job.Valid() && |PlaceRules(job, rules).drafts| <= |newIds|
    requires wanted.desired == PlaceRules(job, rules).desired
    requires wanted.reserved == IdsTo(PlaceRules(job, rules).drafts, newIds, |PlaceRules(job, rules).drafts|)
    requires o in job.ownerships && o.profileId == job.profileId
    requires !Released(Drafted(job, rules).drafts, o.agendaItemId)
    ensures o.sourceKey in wanted.desired || o.agendaItemId in wanted.reserved
  {
    hide PlaceRules, Executable;
    var first, rows := PlaceRules(job, rules), Sort(job.ownerships, OwnershipLeq);
    SortPermutes(job.ownerships, OwnershipLeq);
    assert o in multiset(rows);
    if Surplus(job, o, first) {
      SurplusIsReleased(job, rows, first, o);
    }
    if o.agendaItemId in first.reserved {
      RulesReserveClaimed(job, rules, o.agendaItemId);
      var j :| 0 <= j < |first.drafts| && ClaimsSlot(first.drafts[j].body) && first.drafts[j].body.itemId == o.agendaItemId;
      assert TargetIds(first.drafts, newIds)[j] == o.agendaItemId;
    }
  }

  // The theorem.

  /** All actions of a plan are NOOPs that place songs: nothing is to be written. */
  ghost predicate AllIdle(bodies: seq<Body>, n: nat) {
    |bodies| == n && forall j :: 0 <= j < n ==> bodies[j].Noop?
  }

  lemma AgainIsIdle(job: Job, rules: seq<PlacementRule>, newIds: seq<Id>, s: Setting, again: Job, own: Agenda, inserted: seq<Agenda>)
    requires Remade(job, rules, newIds, s, again, own, inserted) && forall r :: 0 <= r < |rules| ==> Quiet(job, rules[r])
    ensures AllIdle(Planned(again, rules), |PlaceRules(job, rules).drafts|)
  {
    hide Replanning, Rebuilt, Spared, Woven, PlaceRules, Quiet, IdsTo;
    RestsUpTo(job, rules, newIds, s, again, own, inserted, |rules|);
    assert rules[..|rules|] == rules;
    var rows, wanted := Sort(again.ownerships, OwnershipLeq), PlaceRules(again, rules);
    SortPermutes(again.ownerships, OwnershipLeq);
    forall o | o in rows ensures !Surplus(again, o, wanted) {
      assert o in multiset(rows);
      RowIsWanted(job, rules, newIds, s, again, wanted, o);
    }
    NothingToCleanUp(again, rows, wanted);
  }

  /** A BEFORE or AT placement puts its cursor on the anchor, behind the songs it
      placed the first time, and inserts again. */
  lemma RuleInserts(job: Job, rules: seq<PlacementRule>, newIds: seq<Id>, s: Setting, again: Job, own: Agenda,
                    inserted: seq<Agenda>, r: nat)
    requires Remade(job, rules, newIds, s, again, own, inserted) && r < |rules| && !Quiet(job, rules[r])
    requires PlaceRules(again, rules[..r]).used == PlaceRules(job, rules[..r]).used
    ensures var k, drafts := |PlaceRules(again, rules[..r]).drafts|, PlaceRules(again, rules[..r + 1]).drafts;
            k < |drafts| && drafts[k].body.InsertItem?
  {
    hide Rebuilt, Spared, Woven, PlaceRules, Apart, Executable, Final, Drafted, RowsAfter, NoSongMatches, Matching, KeysOf, Indexes, Unbound;
    var rule, q := rules[r], PlaceRules(again, rules[..r]);
    AdmittedAgain(job, rules, newIds, s, again, own, inserted, r);
    var at, block := AgainAt(job, rules, newIds, s, again, own, inserted, r);
    SliceSize(job, rules, newIds, s, r, block);
    PlaceRulesKeep(again, rules[..r]);
    var lo, hi := SliceStart(rule, |job.songIds|), SliceEnd(rule, |job.songIds|);
    SizeIs(job, rule);
    StartKeeps(again, rule, q);
    NonSongIsFree(again, q, at + |block|);
    FirstInserts(again, rule, lo, StartOf(again, rule, q), RuleStart(again, rule));
    SongsPrefix(again, rule, lo, lo + 1, hi, StartOf(again, rule, q), RuleStart(again, rule));
    RuleIs(again, rule, q);
  }

  lemma NonSongIsFree(job: Job, p: Planning, k: nat)
    requires Placed(job, p) && k < |job.items| && !job.items[k].IsSong()
    ensures job.items[k].id !in p.reserved
  {
  }

  lemma InsertRemains(job: Job, rules: seq<PlacementRule>, r: nat, k: nat)
    requires job.Valid() && r <= |rules|
    requires k < |PlaceRules(job, rules[..r]).drafts| && PlaceRules(job, rules[..r]).drafts[k].body.InsertItem?
    ensures Planned(job, rules) == [] || (k < |Planned(job, rules)| && !Planned(job, rules)[k].Noop?)
  {
    RulesGrow(job, rules, r);
    CleanUpExtends(job, Sort(job.ownerships, OwnershipLeq), PlaceRules(job, rules));
    PrefixOf(PlaceRules(job, rules[..r]).drafts, PlaceRules(job, rules).drafts, Drafted(job, rules).drafts);
    assert Drafted(job, rules).drafts[k] == PlaceRules(job, rules[..r]).drafts[k];
  }

  lemma AgainInserts(job: Job, rules: seq<PlacementRule>, newIds: seq<Id>, s: Setting, again: Job, own: Agenda,
                     inserted: seq<Agenda>, r: nat)
    requires Remade(job, rules, newIds, s, again, own, inserted) && r < |rules| && !Quiet(job, rules[r])
    requires forall i :: 0 <= i < r ==> Quiet(job, rules[i])
    ensures !AllIdle(Planned(again, rules), |PlaceRules(job, rules).drafts|)
  {
    hide Rebuilt, Spared, Woven, PlaceRules, Apart, Executable, Final, Drafted, RowsAfter, NoSongMatches, Planned, IdsTo;
    RestsUpTo(job, rules, newIds, s, again, own, inserted, r);
    RuleInserts(job, rules, newIds, s, again, own, inserted, r);
    InsertRemains(again, rules, r + 1, |PlaceRules(again, rules[..r]).drafts|);
    SliceFits(job, rules, newIds, s, r);
  }

  lemma {:induction false} FirstLoud(job: Job, rules: seq<PlacementRule>, r: nat) returns (first: nat)
    requires r < |rules| && !Quiet(job, rules[r])
    ensures first < |rules| && !Quiet(job, rules[first]) && forall i :: 0 <= i < first ==> Quiet(job, rules[i])
  {
    hide Quiet;
    if i :| 0 <= i < r && !Quiet(job, rules[i]) {
      first := FirstLoud(job, rules, i);
    } else {
      first := r;
    }
  }

  /** Replanning is idempotent exactly for AFTER placements and empty slices: for any
      list of placements whose windows are apart and whose anchors match no songs, the
      second plan consists of one NOOP per placed song, and no cleanup, if and only if
      every placement is AFTER its anchor or places nothing. */
  lemma ReplanIsIdle(job: Job, rules: seq<PlacementRule>, newIds: seq<Id>, s: Setting, again: Job)
    requires Replanning(job, rules, newIds, s, again)
    ensures job.Valid() && again.Valid()
    ensures AllIdle(Planned(again, rules), |PlaceRules(job, rules).drafts|)
            <==> forall r :: 0 <= r < |rules| ==> rules[r].relation == AFTER || Size(job, rules[r]) == 0
  {
    hide Replanning, Rebuilt, Spared, Woven, PlaceRules, AllIdle, Planned;
    var own, inserted := Remaking(job, rules, newIds, s, again);
    if forall r :: 0 <= r < |rules| ==> Quiet(job, rules[r]) {
      AgainIsIdle(job, rules, newIds, s, again, own, inserted);
    } else {
      var r :| 0 <= r < |rules| && !Quiet(job, rules[r]);
      var first := FirstLoud(job, rules, r);
      AgainInserts(job, rules, newIds, s, again, own, inserted, first);
    }
  }

  // A concrete agenda on which a BEFORE placement is not idempotent.

  function HeaderItem(): AgendaItem { AgendaItem("7", "header", Some("Praise"), None, None) }

  function KnownSong(): SongRef { SongRef(Some("s"), None, Some("a"), None) }

  function BeforeHeader(): PlacementRule {
    PlacementRule("p", AgendaAnchor(None, Some("header"), None), BEFORE, 0, None, FAIL)
  }

  function ExampleJob(items: Agenda, ownerships: seq<Ownership>): Job {
    Job("profile", "event", ["w"], "Song", items, ownerships, map["w" := KnownSong()], (t: string) => t)
  }

  lemma HeaderMatches(front: Agenda, items: Agenda)
    requires items == front + [HeaderItem()] && |front| <= 1 && (front == [] || front[0].IsSong())
    ensures Matching(BeforeHeader().anchor, items, (t: string) => t) == [HeaderItem()]
    ensures AnchorIndex(items, [HeaderItem()]) == |front|
  {
    var anchor, normalize := BeforeHeader().anchor, (t: string) => t;
    var hit := (item: AgendaItem) => AnchorMatches(anchor, item, normalize);
    FilterConcat(front, [HeaderItem()], hit);
    FilterNone(front, hit);
    assert Filter([HeaderItem()], hit) == [HeaderItem()];
  }

  /** The plan for one agenda with the header last. */
  lemma HeaderPlan(front: Agenda, items: Agenda, rows: seq<Ownership>)
    requires items == front + [HeaderItem()] && |front| <= 1 && (front == [] || front[0].IsSong())
    requires forall o :: o in rows ==> o.sourceKey == SourceKey("p", 0, "w")
    ensures var job := ExampleJob(items, rows);
            Planned(job, [BeforeHeader()])
            == [InsertDraft(job, BeforeHeader(), SourceKey("p", 0, "w"), KnownSong(), |front|,
                            if front == [] then None else Some(front[0].id), None).body]
  {
    var job, rule := ExampleJob(items, rows), BeforeHeader();
    HeaderMatches(front, items);
    assert [rule][..0] == [];
    var p := PlaceRules(job, [rule]);
    var start := StartOf(job, rule, PlaceRules(job, []));
    assert p == PlaceSongs(job, rule, 0, 1, start, RuleStart(job, rule)).0;
    SongInserted(job, rule, 0, start, RuleStart(job, rule));
    DesiredStep(job, rule, 0, start, RuleStart(job, rule));
    var sorted := Sort(rows, OwnershipLeq);
    SortPermutes(rows, OwnershipLeq);
    forall o | o in sorted ensures !Surplus(job, o, p) {
      assert o in multiset(sorted);
    }
    NothingToCleanUp(job, sorted, p);
  }

  function ExampleSong(): AgendaItem { AgendaItem("8", SONG, Some("Song"), Some("s"), Some("a")) }

  lemma PerformBeforeHeader(body: Body)
    requires body.InsertItem? && body.place == Before("7") && body.song == KnownSong() && body.title == "Song"
    ensures var done := Perform(body, Effect([HeaderItem()], map[]), map["a" := "s"], "8");
            done.Some? && done.value.items == [ExampleSong(), HeaderItem()]
  {
    InsertBeforeAt([], HeaderItem(), [], ExampleSong());
    assert [] + [HeaderItem()] + [] == [HeaderItem()];
    assert [] + [ExampleSong()] + [HeaderItem()] + [] == [ExampleSong(), HeaderItem()];
  }

  /** Planned before the header "Praise", the song is inserted; planned again on the
      agenda and the row that result, it is inserted a second time. */
  lemma BeforeInsertsAgain(row: Ownership)
    requires row == Ownership("profile", "8", SourceKey("p", 0, "w"), "p", Some("s"), Some("a"))
    ensures var first := Planned(ExampleJob([HeaderItem()], []), [BeforeHeader()]);
            && |first| == 1 && first[0].InsertItem? && first[0].sourceKey == row.sourceKey
            && var done := Perform(first[0], Effect([HeaderItem()], map[]), map["a" := "s"], "8");
               done.Some? && done.value.items == [ExampleSong(), HeaderItem()]
    ensures var second := Planned(ExampleJob([ExampleSong(), HeaderItem()], [row]), [BeforeHeader()]);
            |second| == 1 && second[0].InsertItem? && second[0].place == Before("7")
  {
    hide PerformAll, Perform, Planned;
    HeaderPlan([], [HeaderItem()], []);
    HeaderPlan([ExampleSong()], [ExampleSong(), HeaderItem()], [row]);
    PerformBeforeHeader(Planned(ExampleJob([HeaderItem()], []), [BeforeHeader()])[0]);
  }

  // A concrete agenda on which an AFTER placement behind a song is not idempotent.

  function OldSong(): AgendaItem { AgendaItem("7", SONG, Some("Old"), Some("x"), Some("y")) }

  function AfterSong(): PlacementRule {
    PlacementRule("p", AgendaAnchor(None, Some(SONG), None), AFTER, 0, None, FAIL)
  }

  lemma SongsMatch(items: Agenda)
    requires items == [OldSong()] || items == [OldSong(), ExampleSong()]
    ensures Matching(AfterSong().anchor, items, (t: string) => t) == items
  {
    FilterAll(items, (item: AgendaItem) => AnchorMatches(AfterSong().anchor, item, (t: string) => t));
  }

  /** The song is placed after the only song of the agenda.  Now the anchor matches two
      items, and the second plan is refused. */
  lemma SongAnchorStops(rows: seq<Ownership>)
    ensures var first := Planned(ExampleJob([OldSong()], []), [AfterSong()]);
            && |first| == 1 && first[0].InsertItem?
            && var done := Perform(first[0], Effect([OldSong()], map[]), map["a" := "s"], "8");
               done.Some? && done.value.items == [OldSong(), ExampleSong()]
    ensures var again := Drafted(ExampleJob([OldSong(), ExampleSong()], rows), [AfterSong()]);
            |again.issues| > 0 && again.issues[0] == AnchorNotUnique("p", ["7", "8"])
    ensures Planned(ExampleJob([OldSong(), ExampleSong()], rows), [AfterSong()]) == []
  {
    FirstPlanAfterSong();
    PerformAfterSong(Planned(ExampleJob([OldSong()], []), [AfterSong()])[0]);
    SecondPlanAfterSong(rows);
  }

  lemma FirstPlanAfterSong()
    ensures var job := ExampleJob([OldSong()], []);
            Planned(job, [AfterSong()])
            == [InsertDraft(job, AfterSong(), SourceKey("p", 0, "w"), KnownSong(), 1, Some("7"), None).body]
  {
    var job, rule := ExampleJob([OldSong()], []), AfterSong();
    SongsMatch(job.items);
    assert [rule][..0] == [];
    var start := StartOf(job, rule, PlaceRules(job, []));
    var c := RuleStart(job, rule);
    assert c == Cursor(1, Some("7"), None, false) && start.drafts == [] && start.issues == [];
    assert PlaceRules(job, [rule]) == PlaceSongs(job, rule, 0, 1, start, c).0;
    assert PlaceSongs(job, rule, 0, 0, start, c) == (start, c);
    assert PlaceSongs(job, rule, 0, 1, start, c) == PlaceSong(job, rule, 0, start, c);
    SongInserted(job, rule, 0, start, c);
    SongAdds(job, rule, 0, start, c);
    var p := PlaceRules(job, [rule]);
    assert p.issues == [] && |p.drafts| == 1;
    assert Sort(job.ownerships, OwnershipLeq) == [];
    NothingToCleanUp(job, [], p);
    assert Drafted(job, [rule]) == p;
  }

  lemma PerformAfterSong(body: Body)
    requires body.InsertItem? && body.place == AfterId("7") && body.song == KnownSong() && body.title == "Song"
    ensures var done := Perform(body, Effect([OldSong()], map[]), map["a" := "s"], "8");
            done.Some? && done.value.items == [OldSong(), ExampleSong()]
  {
  }

  lemma SecondPlanAfterSong(rows: seq<Ownership>)
    ensures var again := Drafted(ExampleJob([OldSong(), ExampleSong()], rows), [AfterSong()]);
            |again.issues| > 0 && again.issues[0] == AnchorNotUnique("p", ["7", "8"])
    ensures Planned(ExampleJob([OldSong(), ExampleSong()], rows), [AfterSong()]) == []
  {
    var job, rule := ExampleJob([OldSong(), ExampleSong()], rows), AfterSong();
    SongsMatch(job.items);
    assert [rule][..0] == [];
    var p := PlaceRules(job, [rule]);
    assert Matching(rule.anchor, job.items, job.normalize) == job.items;
    assert PlaceRules(job, []).used * Indexes(rule, |job.songIds|) == {};
    assert Ids(job.items) == ["7", "8"];
    assert PlaceRules(job, [rule]) == PlaceRule(job, rule, PlaceRules(job, []));
    assert p.issues == [AnchorNotUnique("p", ["7", "8"])];
    CleanUpGrows(job, Sort(job.ownerships, OwnershipLeq), p);
    assert Drafted(job, [rule]).issues[0].IsError();
  }
}
