/** Planning over an agenda in which the songs of a placement already stand side by
    side: there is nothing left to write. */
module StandingSongs {
  import opened Prelude
  import opened Agendas
  import opened Actions
  import opened Placements
  import opened PlanShape
  import opened PlanOrder
  import opened Setlist
  import opened Window
  import opened RunRows
  import opened Weaving

  /** Song `lo + j` stands at position `c + j`, in an item that is not another profile's. */
  ghost predicate Stands(job: Job, lo: nat, c: nat, j: nat) {
    && lo + j < |job.songIds| && job.songIds[lo + j] in job.resources && c + j < |job.items|
    && job.items[c + j].IsSong() && !OwnedByOther(job, job.items[c + j].id)
    && SlotShows(job.resources[job.songIds[lo + j]], job.items[c + j])
  }

  /** The songs [lo, k) already stand from position `c` on, in order. */
  ghost predicate Standing(job: Job, lo: nat, k: nat, c: nat) {
    && lo <= k <= |job.songIds| && c + (k - lo) <= |job.items|
    && forall j :: 0 <= j < k - lo ==> Stands(job, lo, c, j)
  }

  ghost function SpanIds(items: Agenda, c: nat, n: nat): set<Id>
    requires c + n <= |items|
  {
    set q | c <= q < c + n :: items[q].id
  }

  ghost function KeysOf(rule: PlacementRule, songIds: seq<Id>, lo: nat, k: nat): set<Key>
    requires k <= |songIds|
  {
    set i | lo <= i < k :: SourceKey(rule.id, i, songIds[i])
  }

  lemma DesiredStep(job: Job, rule: PlacementRule, i: nat, p: Planning, c: Cursor)
    requires i < |job.songIds| && job.songIds[i] in job.resources && !c.blocked
    ensures PlaceSong(job, rule, i, p, c).0.desired == p.desired + {SourceKey(rule.id, i, job.songIds[i])}
  {
  }

  lemma KeysStep(rule: PlacementRule, songIds: seq<Id>, lo: nat, k: nat)
    requires lo < k <= |songIds|
    ensures KeysOf(rule, songIds, lo, k) == KeysOf(rule, songIds, lo, k - 1) + {SourceKey(rule.id, k - 1, songIds[k - 1])}
  {
  }

  lemma NoKeys(rule: PlacementRule, songIds: seq<Id>, lo: nat)
    requires lo <= |songIds|
    ensures KeysOf(rule, songIds, lo, lo) == {}
  {
  }

  /** The wanted keys depend on the slice only. */
  lemma {:induction false} DesiredKeys(job: Job, rule: PlacementRule, lo: nat, k: nat, p: Planning, c: Cursor)
    requires job.Valid() && lo <= k <= |job.songIds| && !c.blocked
    ensures var (p', c') := PlaceSongs(job, rule, lo, k, p, c);
            !c'.blocked ==> p'.desired == p.desired + KeysOf(rule, job.songIds, lo, k)
  {
    hide KeysOf, SourceKey, PlaceSong;
    if k == lo {
      NoKeys(rule, job.songIds, lo);
    } else {
      var (p1, c1) := PlaceSongs(job, rule, lo, k - 1, p, c);
      DesiredKeys(job, rule, lo, k - 1, p, c);
      KeysStep(rule, job.songIds, lo, k);
      if c1.blocked {
        BlockedSkips(job, rule, k - 1, p1, c1);
      } else {
        DesiredStep(job, rule, k - 1, p1, c1);
      }
    }
  }

  /** What is left to do where the songs already stand. */
  ghost predicate Idle(p: Planning, p': Planning, c': Cursor, items: Agenda, c: nat, n: nat) {
    && c + n <= |items| && !c'.blocked && c'.at == c + n
    && p'.issues == p.issues && |p'.drafts| == |p.drafts| + n && p.drafts <= p'.drafts
    && (forall j :: |p.drafts| <= j < |p'.drafts| ==> p'.drafts[j].body.Noop?)
    && p'.reserved == p.reserved + SpanIds(items, c, n)
  }

  lemma IdleStep(job: Job, rule: PlacementRule, i: nat, p: Planning, p1: Planning, c1: Cursor, c: nat, n: nat)
    requires Idle(p, p1, c1, job.items, c, n) && DistinctIds(job.items) && n <= i
    requires Stands(job, i - n, c, n) && job.items[c + n].id !in p.reserved
    ensures var (p', c') := PlaceSong(job, rule, i, p1, c1);
            Idle(p, p', c', job.items, c, n + 1)
  {
    assert job.items[c + n].id !in SpanIds(job.items, c, n);
    SlotClaimed(job, rule, i, p1, c1);
    assert SpanIds(job.items, c, n + 1) == SpanIds(job.items, c, n) + {job.items[c + n].id};
  }

  lemma {:induction false} StandingIsIdle(job: Job, rule: PlacementRule, lo: nat, k: nat, p: Planning, c: Cursor)
    requires job.Valid() && Standing(job, lo, k, c.at) && !c.blocked
    requires forall q :: c.at <= q < c.at + (k - lo) ==> job.items[q].id !in p.reserved
    ensures var (p', c') := PlaceSongs(job, rule, lo, k, p, c);
            Idle(p, p', c', job.items, c.at, k - lo)
  {
    hide PlaceSong, SlotShows, OwnedByOther;
    if k == lo {
      assert SpanIds(job.items, c.at, 0) == {};
    } else {
      assert Stands(job, lo, c.at, k - 1 - lo);
      StandingIsIdle(job, rule, lo, k - 1, p, c);
      var (p1, c1) := PlaceSongs(job, rule, lo, k - 1, p, c);
      IdleStep(job, rule, k - 1, p, p1, c1, c.at, k - 1 - lo);
    }
  }

  /** A rule whose songs all stand where it starts drafts NOOPs only. */
  lemma RuleIdles(job: Job, rule: PlacementRule, p: Planning)
    requires job.Valid() && Admitted(job, rule, p) && !HasErrors(p.issues)
    requires var lo, hi := SliceStart(rule, |job.songIds|), SliceEnd(rule, |job.songIds|);
             Standing(job, lo, hi, RuleStart(job, rule).at)
    requires var at, n := RuleStart(job, rule).at, SliceEnd(rule, |job.songIds|) - SliceStart(rule, |job.songIds|);
             forall q :: at <= q < at + n ==> job.items[q].id !in p.reserved
    ensures var p' := PlaceRule(job, rule, p);
            var lo, hi, at := SliceStart(rule, |job.songIds|), SliceEnd(rule, |job.songIds|), RuleStart(job, rule).at;
            && !HasErrors(p'.issues) && p.drafts <= p'.drafts && |p'.drafts| == |p.drafts| + (hi - lo)
            && (forall j :: |p.drafts| <= j < |p'.drafts| ==> p'.drafts[j].body.Noop?)
            && at + (hi - lo) <= |job.items| && p'.reserved == p.reserved + SpanIds(job.items, at, hi - lo)
            && p'.desired == p.desired + KeysOf(rule, job.songIds, lo, hi)
            && p'.used == p.used + Indexes(rule, |job.songIds|)
  {
    hide Standing, SpanIds, KeysOf, Indexes, SourceKey, PlaceSongs;
    var lo, hi := SliceStart(rule, |job.songIds|), SliceEnd(rule, |job.songIds|);
    StartKeeps(job, rule, p);
    StandingIsIdle(job, rule, lo, hi, StartOf(job, rule, p), RuleStart(job, rule));
    DesiredKeys(job, rule, lo, hi, StartOf(job, rule, p), RuleStart(job, rule));
    SongsAdd(job, rule, lo, hi, StartOf(job, rule, p), RuleStart(job, rule));
    RuleIs(job, rule, p);
  }

  lemma RuleIs(job: Job, rule: PlacementRule, p: Planning)
    requires job.Valid() && Admitted(job, rule, p)
    ensures PlaceRule(job, rule, p)
            == PlaceSongs(job, rule, SliceStart(rule, |job.songIds|), SliceEnd(rule, |job.songIds|), StartOf(job, rule, p),
                          RuleStart(job, rule)).0
  {
  }

  lemma StartKeeps(job: Job, rule: PlacementRule, p: Planning)
    ensures var start := StartOf(job, rule, p);
            && start.drafts == p.drafts && start.reserved == p.reserved && start.desired == p.desired
            && start.used == p.used + Indexes(rule, |job.songIds|)
            && (HasErrors(start.issues) <==> HasErrors(p.issues))
  {
    var start := StartOf(job, rule, p);
    if HasErrors(p.issues) {
      ErrorsStay(p.issues, start.issues);
    }
    if HasErrors(start.issues) {
      var i :| 0 <= i < |start.issues| && start.issues[i].IsError();
      assert p.issues[i].IsError();
    }
  }

  /** What a rule without errors adds to the wanted keys and the used songs. */
  lemma RuleDesires(job: Job, rule: PlacementRule, p: Planning)
    requires job.Valid() && !HasErrors(PlaceRule(job, rule, p).issues)
    ensures var p' := PlaceRule(job, rule, p);
            && Admitted(job, rule, p) && p'.used == p.used + Indexes(rule, |job.songIds|)
            && p'.desired == p.desired + KeysOf(rule, job.songIds, SliceStart(rule, |job.songIds|), SliceEnd(rule, |job.songIds|))
  {
    hide KeysOf, Indexes, SourceKey, PlaceSongs, HasErrors;
    var lo, hi := SliceStart(rule, |job.songIds|), SliceEnd(rule, |job.songIds|);
    RuleAdds(job, rule, p);
    StartKeeps(job, rule, p);
    DesiredKeys(job, rule, lo, hi, StartOf(job, rule, p), RuleStart(job, rule));
    SongsAdd(job, rule, lo, hi, StartOf(job, rule, p), RuleStart(job, rule));
  }

  /** What is reserved has been claimed. */
  lemma {:induction false} RulesReserveClaimed(job: Job, rules: seq<PlacementRule>, id: Id)
    requires job.Valid() && id in PlaceRules(job, rules).reserved
    ensures var drafts := PlaceRules(job, rules).drafts;
            exists j :: 0 <= j < |drafts| && ClaimsSlot(drafts[j].body) && drafts[j].body.itemId == id
  {
    if rules != [] {
      var earlier, rule := rules[..|rules| - 1], rules[|rules| - 1];
      var p := PlaceRules(job, earlier);
      RuleAdds(job, rule, p);
      if id in p.reserved {
        RulesReserveClaimed(job, earlier, id);
        var j :| 0 <= j < |p.drafts| && ClaimsSlot(p.drafts[j].body) && p.drafts[j].body.itemId == id;
        assert PlaceRules(job, rules).drafts[j] == p.drafts[j];
      } else if Admitted(job, rule, p) {
        RuleIs(job, rule, p);
        StartKeeps(job, rule, p);
        ReservedAreClaimed(job, rule, SliceStart(rule, |job.songIds|), SliceEnd(rule, |job.songIds|), StartOf(job, rule, p),
                           RuleStart(job, rule), id);
      }
    }
  }

  lemma {:induction false} NothingToCleanUp(job: Job, rows: seq<Ownership>, p: Planning)
    requires forall o :: o in rows ==> !Surplus(job, o, p)
    ensures CleanUpAll(job, rows, p) == p
  {
    if rows != [] {
      var earlier := rows[..|rows| - 1];
      assert forall o :: o in earlier ==> o in rows;
      NothingToCleanUp(job, earlier, p);
      assert rows[|rows| - 1] in rows;
    }
  }

  /** Every surplus binding gets a cleanup action. */
  lemma {:induction false} SurplusIsReleased(job: Job, rows: seq<Ownership>, p: Planning, o: Ownership)
    requires o in rows && Surplus(job, o, p)
    ensures Released(CleanUpAll(job, rows, p).drafts, o.agendaItemId)
  {
    var earlier, last := rows[..|rows| - 1], rows[|rows| - 1];
    var p1 := CleanUpAll(job, earlier, p);
    CleanUpKeepsSets(job, earlier, p);
    var p2 := CleanUp(job, last, p1);
    if o == last {
      assert TidiesUp(p2.drafts[|p1.drafts|].body);
    } else {
      assert o in earlier;
      SurplusIsReleased(job, earlier, p, o);
      var j :| 0 <= j < |p1.drafts| && TidiesUp(p1.drafts[j].body) && p1.drafts[j].body.itemId == o.agendaItemId;
      assert p2.drafts[j] == p1.drafts[j];
    }
  }

  lemma {:induction false} CleanUpKeepsSets(job: Job, rows: seq<Ownership>, p: Planning)
    ensures CleanUpAll(job, rows, p).desired == p.desired && CleanUpAll(job, rows, p).reserved == p.reserved
  {
    if rows != [] {
      CleanUpKeepsSets(job, rows[..|rows| - 1], p);
    }
  }

  lemma {:induction false} ReservedAreClaimed(job: Job, rule: PlacementRule, lo: nat, k: nat, p: Planning, c: Cursor, id: Id)
    requires job.Valid() && lo <= k <= |job.songIds| && !c.blocked
    requires id in PlaceSongs(job, rule, lo, k, p, c).0.reserved && id !in p.reserved
    ensures var drafts := PlaceSongs(job, rule, lo, k, p, c).0.drafts;
            exists j :: 0 <= j < |drafts| && ClaimsSlot(drafts[j].body) && drafts[j].body.itemId == id
  {
    var (p1, c1) := PlaceSongs(job, rule, lo, k - 1, p, c);
    var (p2, c2) := PlaceSong(job, rule, k - 1, p1, c1);
    if id in p1.reserved {
      ReservedAreClaimed(job, rule, lo, k - 1, p, c, id);
      var j :| 0 <= j < |p1.drafts| && ClaimsSlot(p1.drafts[j].body) && p1.drafts[j].body.itemId == id;
      assert p2.drafts[j] == p1.drafts[j];
    } else {
      assert ClaimsSlot(p2.drafts[|p1.drafts|].body);
    }
  }

  lemma {:induction false} SongsPrefix(job: Job, rule: PlacementRule, lo: nat, j: nat, k: nat, p: Planning, c: Cursor)
    requires job.Valid() && lo <= j <= k <= |job.songIds|
    ensures PlaceSongs(job, rule, lo, j, p, c).0.drafts <= PlaceSongs(job, rule, lo, k, p, c).0.drafts
  {
    if j < k {
      SongsPrefix(job, rule, lo, j, k - 1, p, c);
      var (p1, c1) := PlaceSongs(job, rule, lo, k - 1, p, c);
      if !c1.blocked {
        SongAdds(job, rule, k - 1, p1, c1);
      }
      PrefixOf(PlaceSongs(job, rule, lo, j, p, c).0.drafts, p1.drafts, PlaceSongs(job, rule, lo, k, p, c).0.drafts);
    }
  }

  lemma FirstInserts(job: Job, rule: PlacementRule, lo: nat, p: Planning, c: Cursor)
    requires job.Valid() && lo < |job.songIds| && !c.blocked
    requires c.at < |job.items| && !job.items[c.at].IsSong() && job.items[c.at].id !in p.reserved
    ensures var p' := PlaceSongs(job, rule, lo, lo + 1, p, c).0;
            |p'.drafts| == |p.drafts| + 1 && p'.drafts[|p.drafts|].body.InsertItem?
  {
    SongInserted(job, rule, lo, p, c);
  }

  lemma {:induction false} CleanUpExtends(job: Job, rows: seq<Ownership>, p: Planning)
    ensures p.drafts <= CleanUpAll(job, rows, p).drafts
  {
    if rows != [] {
      CleanUpExtends(job, rows[..|rows| - 1], p);
    }
  }

  // Anchors that match no songs see only what is not a song.

  function NonSongs(items: Agenda): Agenda { Filter(items, (item: AgendaItem) => !item.IsSong()) }

  ghost predicate NoSongMatches(anchor: AgendaAnchor, items: Agenda, normalize: string -> string) {
    forall q :: 0 <= q < |items| && AnchorMatches(anchor, items[q], normalize) ==> !items[q].IsSong()
  }

  lemma {:induction false} MatchNonSongs(anchor: AgendaAnchor, items: Agenda, normalize: string -> string)
    requires NoSongMatches(anchor, items, normalize)
    ensures Matching(anchor, items, normalize) == Matching(anchor, NonSongs(items), normalize)
  {
    if items != [] {
      var hit := (item: AgendaItem) => AnchorMatches(anchor, item, normalize);
      assert forall q :: 0 <= q < |items[1..]| ==> items[1..][q] == items[q + 1];
      MatchNonSongs(anchor, items[1..], normalize);
      if items[0].IsSong() {
        assert !hit(items[0]);
      } else {
        FilterConcat([items[0]], NonSongs(items[1..]), hit);
      }
    }
  }

  ghost predicate DeletesSongs(items: Agenda, drafts: seq<Draft>, n: nat) {
    forall q :: 0 <= q < |items| && Deleted(drafts, n, items[q].id) ==> items[q].IsSong()
  }

  lemma {:induction false} NonSongsSpared(items: Agenda, drafts: seq<Draft>, n: nat)
    requires DeletesSongs(items, drafts, n)
    ensures NonSongs(Spared(items, drafts, n)) == NonSongs(items)
  {
    if items != [] {
      var plain := (item: AgendaItem) => !item.IsSong();
      assert forall q :: 0 <= q < |items[1..]| ==> items[1..][q] == items[q + 1];
      NonSongsSpared(items[1..], drafts, n);
      if !Deleted(drafts, n, items[0].id) {
        FilterConcat([items[0]], Spared(items[1..], drafts, n), plain);
      }
    }
  }

  lemma NonSongsConcat(a: Agenda, b: Agenda)
    ensures NonSongs(a + b) == NonSongs(a) + NonSongs(b)
  {
    FilterConcat(a, b, (item: AgendaItem) => !item.IsSong());
  }

  ghost predicate OnlySongs(items: Agenda) {
    forall i :: 0 <= i < |items| ==> items[i].IsSong()
  }

  lemma NoNonSongs(items: Agenda)
    requires OnlySongs(items)
    ensures NonSongs(items) == []
  {
    FilterNone(items, (item: AgendaItem) => !item.IsSong());
  }

  /** An item is the same, or both are songs. */
  predicate SongOrSame(before: AgendaItem, after: AgendaItem) {
    before == after || (before.IsSong() && after.IsSong())
  }

  lemma NonSongsSame(before: AgendaItem, after: AgendaItem)
    requires SongOrSame(before, after)
    ensures NonSongs([before]) == NonSongs([after])
  {
  }

  lemma {:induction false} NonSongsWoven(items: Agenda, own: Agenda, inserted: seq<Agenda>)
    requires |own| == |items| && |inserted| == |own| + 1
    requires forall q :: 0 <= q < |own| ==> SongOrSame(items[q], own[q])
    requires forall q :: 0 <= q <= |own| ==> OnlySongs(inserted[q])
    ensures NonSongs(Woven(own, inserted)) == NonSongs(items)
  {
    hide NonSongs, OnlySongs, SongOrSame;
    var n := |own|;
    NoNonSongs(inserted[n]);
    if n == 0 {
      NoNonSongsAtAll(items);
    } else {
      var rest := Woven(own[..n - 1], inserted[..n]);
      NonSongsWoven(items[..n - 1], own[..n - 1], inserted[..n]);
      NonSongsConcat(rest + [own[n - 1]], inserted[n]);
      NonSongsConcat(rest, [own[n - 1]]);
      NonSongsConcat(items[..n - 1], [items[n - 1]]);
      NonSongsSame(items[n - 1], own[n - 1]);
      assert items == items[..n - 1] + [items[n - 1]];
    }
  }

  lemma NoNonSongsAtAll(items: Agenda)
    requires items == []
    ensures NonSongs(items) == []
  {
  }

  /** Where a given item stands. */
  lemma ItemStandsAt(now: Agenda, k: nat)
    requires DistinctIds(now) && k < |now|
    ensures FirstIndex(now, (item: AgendaItem) => item == now[k]) == k
  {
  }

  lemma SparedLast(front: Agenda, item: AgendaItem, drafts: seq<Draft>, n: nat)
    requires !Deleted(drafts, n, item.id)
    ensures Spared(front + [item], drafts, n) == Spared(front, drafts, n) + [item]
  {
    ghost var keep := (i: AgendaItem) => !Deleted(drafts, n, i.id);
    FilterConcat(front, [item], keep);
  }

  lemma SparedFirst(item: AgendaItem, back: Agenda, drafts: seq<Draft>, n: nat)
    requires !Deleted(drafts, n, item.id)
    ensures Spared([item] + back, drafts, n) == [item] + Spared(back, drafts, n)
  {
    ghost var keep := (i: AgendaItem) => !Deleted(drafts, n, i.id);
    FilterConcat([item], back, keep);
  }
}
