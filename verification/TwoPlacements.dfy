/** Two placements that insert at the same position: their songs come out in the
    order of the placements if the position is before an item, and in the opposite
    order if it is the end of the agenda. */
module TwoPlacements {
  import opened Prelude
  import opened Agendas
  import opened Actions
  import opened Layout
  import opened LayoutProofs
  import opened Order
  import opened Placements
  import opened PlanShape
  import opened PlanTheorems
  import opened PlanOrder
  import opened Setlist
  import Window

  // What a placement plans whose cursor starts where no song stands.

  /** Draft `j` of a placement with drafts from `b` on inserts at position `c`: before
      the item there, or at the end in one chain after the last item. */
  ghost predicate InsertsAt(job: Job, drafts: seq<Draft>, b: nat, c: nat, j: nat) {
    && b <= j < |drafts| && drafts[j].body.InsertItem? && job.items != []
    && if c < |job.items| then drafts[j].body.place == Before(job.items[c].id)
       else if j == b then drafts[j].body.place == AfterId(job.items[|job.items| - 1].id)
       else drafts[j - 1].body.InsertItem? && drafts[j].body.place == AfterKey(drafts[j - 1].body.resourceKey)
  }

  ghost predicate Inserted(job: Job, p: Planning, d: Cursor, b: nat, c: nat, reserved: set<Id>) {
    && job.Valid() && job.items != [] && b <= |p.drafts| && d.at == c <= |job.items| && p.reserved == reserved
    && (forall j :: b <= j < |p.drafts| ==> InsertsAt(job, p.drafts, b, c, j))
    && if |p.drafts| == b then
         d.lastKey == None && (c == |job.items| ==> d.lastId == Some(job.items[c - 1].id))
       else
         p.drafts[|p.drafts| - 1].body.InsertItem? && d.lastKey == Some(p.drafts[|p.drafts| - 1].body.resourceKey)
  }

  predicate NoSlotAt(items: Agenda, c: nat, reserved: set<Id>) {
    c < |items| ==> !items[c].IsSong() && items[c].id !in reserved
  }

  lemma SongInserts(job: Job, rule: PlacementRule, i: nat, p: Planning, d: Cursor, b: nat, c: nat, reserved: set<Id>)
    requires Inserted(job, p, d, b, c, reserved) && NoSlotAt(job.items, c, reserved) && !d.blocked && i < |job.songIds|
    ensures var (p', d') := PlaceSong(job, rule, i, p, d);
            !d'.blocked && Inserted(job, p', d', b, c, reserved)
  {
    hide PlaceSong;
    var (p', d') := PlaceSong(job, rule, i, p, d);
    Window.SongInserted(job, rule, i, p, d);
    forall j | b <= j < |p'.drafts| ensures InsertsAt(job, p'.drafts, b, c, j) {
      assert j < |p.drafts| ==> InsertsAt(job, p.drafts, b, c, j);
    }
  }

  lemma SongsInsert(job: Job, rule: PlacementRule, lo: nat, k: nat, p: Planning, d: Cursor, b: nat, c: nat)
    requires Inserted(job, p, d, b, c, p.reserved) && NoSlotAt(job.items, c, p.reserved) && !d.blocked
    requires lo <= k <= |job.songIds|
    ensures var (p', d') := PlaceSongs(job, rule, lo, k, p, d);
            !d'.blocked ==> Inserted(job, p', d', b, c, p.reserved)
  {
    ghost var inv := (q, e) => Inserted(job, q, e, b, c, p.reserved);
    forall i, q, e | lo <= i < k && inv(q, e) && !e.blocked && |q.drafts| == |p.drafts| + (i - lo)
      ensures Kept(PlaceSong(job, rule, i, q, e), inv)
    {
      SongInserts(job, rule, i, q, e, b, c, p.reserved);
    }
    SongsKeep(job, rule, lo, k, p, d, inv);
  }

  /** Rule `r` starts where no song stands. */
  ghost predicate StartsFree(job: Job, rules: seq<PlacementRule>, r: nat, c: nat) {
    && r < |rules| && Matching(rules[r].anchor, job.items, job.normalize) != []
    && RuleStart(job, rules[r]).at == c && (c < |job.items| ==> !job.items[c].IsSong())
  }

  lemma RuleInserts(job: Job, rules: seq<PlacementRule>, newIds: seq<Id>, s: Setting, r: nat, c: nat, i: nat)
    requires Executable(job, rules, newIds, s) && StartsFree(job, rules, r, c)
    requires SliceStart(rules[r], |job.songIds|) <= i < SliceEnd(rules[r], |job.songIds|)
    ensures ActionIndex(job, rules, r, i) < |Planned(job, rules)| == |Drafted(job, rules).drafts|
    ensures InsertsAt(job, Drafted(job, rules).drafts, Offset(job, rules, r), c, ActionIndex(job, rules, r, i))
  {
    var p, rule := PlaceRules(job, rules[..r]), rules[r];
    RuleIsPlaced(job, rules, r);
    AnchorFound(rule.anchor, job.items, job.normalize);
    SongsInsert(job, rule, SliceStart(rule, |job.songIds|), SliceEnd(rule, |job.songIds|), StartOf(job, rule, p),
                RuleStart(job, rule), |p.drafts|, c);
    SegmentOf(job, rules, newIds, s, r, i);
    RuleSpan(job, rules, r);
    InsertsAtLonger(job, PlaceRules(job, rules[..r + 1]).drafts, PlaceRules(job, rules).drafts, Drafted(job, rules).drafts,
                    |p.drafts|, c, ActionIndex(job, rules, r, i));
  }

  lemma RuleIsPlaced(job: Job, rules: seq<PlacementRule>, r: nat)
    requires job.Valid() && r < |rules| && !HasErrors(Drafted(job, rules).issues)
    ensures Placed(job, PlaceRules(job, rules[..r]))
    ensures Matching(rules[r].anchor, job.items, job.normalize) != []
    ensures var placed := PlaceSongs(job, rules[r], SliceStart(rules[r], |job.songIds|), SliceEnd(rules[r], |job.songIds|),
                                     StartOf(job, rules[r], PlaceRules(job, rules[..r])), RuleStart(job, rules[r]));
            PlaceRules(job, rules[..r + 1]) == placed.0 && !placed.1.blocked
  {
    assert rules[..r + 1][..r] == rules[..r];
    PlaceRulesKeep(job, rules[..r]);
    NoEarlierErrors(job, rules, r + 1);
    RuleAdds(job, rules[r], PlaceRules(job, rules[..r]));
  }

  lemma InsertsAtLonger(job: Job, drafts: seq<Draft>, placed: seq<Draft>, all: seq<Draft>, b: nat, c: nat, j: nat)
    requires drafts <= placed <= all && InsertsAt(job, drafts, b, c, j)
    ensures InsertsAt(job, all, b, c, j)
  {
  }

  // Performing such inserts.

  lemma Performed(job: Job, all: seq<Draft>, newIds: seq<Id>, s: Setting, k: nat)
    requires Runs(job, all, newIds, s) && k < |all|
    ensures Runs(job, all[..k], newIds, s) && Runs(job, all[..k + 1], newIds, s)
    ensures var on := After(job, all[..k], newIds, s);
            && Absent(on.items, newIds[k])
            && Perform(all[k].body, on, s.catalogue, newIds[k]) == Some(After(job, all[..k + 1], newIds, s))
  {
    assert all[..k + 1] == all[..k] + [all[k]];
    RunsPrefix(job, all, newIds, s, k + 1);
    AfterStep(job, all[..k], all[k], newIds, s);
  }

  /** The new item of insert `k`. */
  ghost predicate InsertedBy(job: Job, all: seq<Draft>, newIds: seq<Id>, s: Setting, k: nat, neighbour: Neighbour, item: AgendaItem)
    requires k < |all| && Runs(job, all[..k], newIds, s) && Runs(job, all[..k + 1], newIds, s)
  {
    && k < |newIds| && item.id == newIds[k] && Absent(After(job, all[..k], newIds, s).items, newIds[k])
    && InsertSong(After(job, all[..k], newIds, s).items, neighbour, item)
       == Some(After(job, all[..k + 1], newIds, s).items)
  }

  lemma InsertOf(job: Job, all: seq<Draft>, newIds: seq<Id>, s: Setting, k: nat) returns (neighbour: Neighbour, item: AgendaItem)
    requires Runs(job, all, newIds, s) && k < |all| && all[k].body.InsertItem?
    ensures Runs(job, all[..k], newIds, s) && Runs(job, all[..k + 1], newIds, s)
    ensures NeighbourOf(all[k].body.place, After(job, all[..k], newIds, s).resources) == Some(neighbour)
    ensures InsertedBy(job, all, newIds, s, k, neighbour, item)
  {
    Performed(job, all, newIds, s, k);
    var body, on := all[k].body, After(job, all[..k], newIds, s);
    neighbour := NeighbourOf(body.place, on.resources).value;
    item := SongItem(newIds[k], body.title, ArrangementOf(body.song, on.resources).value, s.catalogue);
  }

  /** An insert directly after `y` stands before everything that `y` stood before. */
  lemma FollowsOnly(items: Agenda, y: Id, z: Id, item: AgendaItem)
    requires InsertSong(items, AfterItem(y), item).Some? && Absent(items, item.id) && Precedes(items, y, z)
    ensures Precedes(InsertSong(items, AfterItem(y), item).value, item.id, z)
  {
    InsertIsAt(items, AfterItem(y), item);
    IndexOfInserted(items, IndexOf(items, y) + 1, item);
    IndexAfterInsert(items, IndexOf(items, y) + 1, item, z);
  }

  lemma InsertedStays(job: Job, drafts: seq<Draft>, newIds: seq<Id>, s: Setting, k: nat, n: nat)
    requires Runs(job, drafts, newIds, s) && k < |drafts| && drafts[k].body.InsertItem?
    ensures !Deleted(drafts, n, newIds[k])
  {
    assert InsertedAs(drafts, newIds, newIds[k]);
    InsertNotDeleted(job, drafts, newIds, s, newIds[k]);
    SpareFrom(drafts, n, newIds[k]);
  }

  /** The item an insert names has not been deleted before. */
  lemma NamedStays(job: Job, all: seq<Draft>, newIds: seq<Id>, s: Setting, b: nat, n: nat, x: Id)
    requires Runs(job, all, newIds, s) && b < |all| && all[b].body.InsertItem?
    requires all[b].body.place == Before(x) || all[b].body.place == AfterId(x)
    ensures !Deleted(all[..b], n, x)
  {
    var bodies := Bodies(all);
    assert RefersToPresent(bodies[..b], bodies[b], job.items);
    forall j | 0 <= j < b ensures !Deletes(all[..b][j].body, x) {
      assert bodies[..b][j] == all[j].body;
    }
  }

  lemma Survives(job: Job, all: seq<Draft>, newIds: seq<Id>, s: Setting, n: nat, m: nat, x: Id, y: Id)
    requires Runs(job, all, newIds, s) && n <= m <= |all| && Runs(job, all[..n], newIds, s)
    requires !Deleted(all[..m], n, x) && !Deleted(all[..m], n, y)
    requires Precedes(After(job, all[..n], newIds, s).items, x, y)
    ensures Runs(job, all[..m], newIds, s) && Precedes(After(job, all[..m], newIds, s).items, x, y)
  {
    RunsPrefix(job, all, newIds, s, m);
    assert all[..m][..n] == all[..n];
    OrderSurvives(job, all[..m], newIds, s, n, x, y);
  }

  /** Two inserts before the same item stand in the order of their actions. */
  lemma BothBefore(job: Job, all: seq<Draft>, newIds: seq<Id>, s: Setting, a: nat, b: nat, h: Id)
    requires Runs(job, all, newIds, s) && a < b < |all|
    requires all[a].body.InsertItem? && all[a].body.place == Before(h)
    requires all[b].body.InsertItem? && all[b].body.place == Before(h)
    ensures Precedes(After(job, all, newIds, s).items, newIds[a], newIds[b])
  {
    hide After, Runs, Precedes, Deleted, InsertSong, IndexOf;
    var _, first := InsertOf(job, all, newIds, s, a);
    InsertedStands(After(job, all[..a], newIds, s).items, BeforeItem(h), first);
    RunsPrefix(job, all, newIds, s, b);
    InsertedStays(job, all[..b], newIds, s, a, a + 1);
    NamedStays(job, all, newIds, s, b, a + 1, h);
    Survives(job, all, newIds, s, a + 1, b, newIds[a], h);
    var _, second := InsertOf(job, all, newIds, s, b);
    IdsDiffer(job, newIds, s, a, b);
    InsertedFollows(After(job, all[..b], newIds, s).items, BeforeItem(h), second, newIds[a]);
    ToTheEnd(job, all, newIds, s, b, newIds[a], newIds[b], a, b);
  }

  lemma IdsDiffer(job: Job, newIds: seq<Id>, s: Setting, a: nat, b: nat)
    requires Setup(job, newIds, s) && a < b < |newIds|
    ensures newIds[a] != newIds[b]
  {
  }

  lemma ToTheEnd(job: Job, all: seq<Draft>, newIds: seq<Id>, s: Setting, k: nat, x: Id, y: Id, a: nat, b: nat)
    requires Runs(job, all, newIds, s) && k < |all| && a < |all| && b < |all| && Runs(job, all[..k + 1], newIds, s)
    requires all[a].body.InsertItem? && all[b].body.InsertItem? && x == newIds[a] && y == newIds[b]
    requires Precedes(After(job, all[..k + 1], newIds, s).items, x, y)
    ensures Precedes(After(job, all, newIds, s).items, x, y)
  {
    hide After, Runs, Precedes, Deleted;
    assert all[..|all|] == all;
    InsertedStays(job, all, newIds, s, a, k + 1);
    InsertedStays(job, all, newIds, s, b, k + 1);
    Survives(job, all, newIds, s, k + 1, |all|, x, y);
  }

  /** A chain of inserts after `x` that starts later stands before an earlier one. */
  lemma {:induction false} LaterChainFirst(job: Job, all: seq<Draft>, newIds: seq<Id>, s: Setting, a: nat, b0: nat, b: nat, x: Id)
    requires Runs(job, all, newIds, s) && a < b0 <= b < |all|
    requires all[a].body.InsertItem? && all[a].body.place == AfterId(x)
    requires all[b0].body.InsertItem? && all[b0].body.place == AfterId(x)
    requires forall j :: b0 < j <= b ==> Continues(all, j)
    ensures Runs(job, all[..b + 1], newIds, s)
    ensures Precedes(After(job, all[..b + 1], newIds, s).items, newIds[b], newIds[a])
  {
    hide After, Runs, Precedes, Deleted, InsertSong, IndexOf;
    RunsPrefix(job, all, newIds, s, b);
    var y: Id;
    if b == b0 {
      y := x;
      var _, first := InsertOf(job, all, newIds, s, a);
      InsertedStands(After(job, all[..a], newIds, s).items, AfterItem(x), first);
      InsertedStays(job, all[..b], newIds, s, a, a + 1);
      NamedStays(job, all, newIds, s, b, a + 1, x);
      Survives(job, all, newIds, s, a + 1, b, x, newIds[a]);
    } else {
      y := newIds[b - 1];
      LaterChainFirst(job, all, newIds, s, a, b0, b - 1, x);
      assert Continues(all, b);
      KeyOfLast(job, Planning(all[..b], [], {}, {}, {}), newIds, s, all[b - 1].body.resourceKey);
    }
    var neighbour, item := InsertOf(job, all, newIds, s, b);
    FollowsOnly(After(job, all[..b], newIds, s).items, y, newIds[a], item);
  }

  /** Insert `j` is chained to the insert before it. */
  ghost predicate Continues(all: seq<Draft>, j: nat) {
    && 1 <= j < |all| && all[j].body.InsertItem? && all[j - 1].body.InsertItem?
    && all[j].body.place == AfterKey(all[j - 1].body.resourceKey)
  }

  // The theorem.

  /** The item of an inserted song is the new id of its action. */
  lemma ShowingIsNew(job: Job, rules: seq<PlacementRule>, newIds: seq<Id>, s: Setting, r: nat, c: nat, i: nat)
    requires Executable(job, rules, newIds, s) && StartsFree(job, rules, r, c)
    requires SliceStart(rules[r], |job.songIds|) <= i < SliceEnd(rules[r], |job.songIds|)
    ensures ActionIndex(job, rules, r, i) < |Planned(job, rules)|
    ensures Showing(job, rules, newIds, r, i) == newIds[ActionIndex(job, rules, r, i)]
  {
    RuleInserts(job, rules, newIds, s, r, c, i);
    assert Planned(job, rules)[ActionIndex(job, rules, r, i)]
           == Drafted(job, rules).drafts[ActionIndex(job, rules, r, i)].body;
  }

  lemma LaterActions(job: Job, rules: seq<PlacementRule>, newIds: seq<Id>, s: Setting, r: nat, r': nat, i: nat)
    requires Executable(job, rules, newIds, s) && r < r' < |rules|
    requires SliceStart(rules[r], |job.songIds|) <= i < SliceEnd(rules[r], |job.songIds|)
    ensures ActionIndex(job, rules, r, i) < Offset(job, rules, r')
  {
    RuleSpan(job, rules, r);
    NoEarlierErrors(job, rules, r');
    RulesGrow(job, rules[..r'], r + 1);
    assert rules[..r'][..r + 1] == rules[..r + 1];
  }

  /** At the end: every song of the later placement stands before the first song of
      the earlier one. */
  lemma BothAtEnd(job: Job, rules: seq<PlacementRule>, newIds: seq<Id>, s: Setting, r: nat, r': nat, j: nat)
    requires Executable(job, rules, newIds, s) && r < r' < |rules|
    requires StartsFree(job, rules, r, |job.items|) && StartsFree(job, rules, r', |job.items|)
    requires SliceStart(rules[r], |job.songIds|) < SliceEnd(rules[r], |job.songIds|)
    requires SliceStart(rules[r'], |job.songIds|) <= j < SliceEnd(rules[r'], |job.songIds|)
    ensures ActionIndex(job, rules, r', j) < |newIds|
    ensures Offset(job, rules, r) < |newIds|
    ensures Precedes(Final(job, rules, newIds, s), newIds[ActionIndex(job, rules, r', j)], newIds[Offset(job, rules, r)])
  {
    hide After, Runs, Precedes, Offset, Drafted, SliceStart, SliceEnd, Placed, StartsFree, Final, Planned;
    var all, n := Drafted(job, rules).drafts, |job.items|;
    var lo, lo' := SliceStart(rules[r], |job.songIds|), SliceStart(rules[r'], |job.songIds|);
    var a, b0, b := Offset(job, rules, r), Offset(job, rules, r'), ActionIndex(job, rules, r', j);
    FinalIsAfter(job, rules, newIds, s);
    LaterActions(job, rules, newIds, s, r, r', lo);
    RuleInserts(job, rules, newIds, s, r, n, lo);
    RuleInserts(job, rules, newIds, s, r', n, lo');
    RuleInserts(job, rules, newIds, s, r', n, j);
    forall k | b0 <= k <= b ensures InsertsAt(job, all, b0, n, k) {
      RuleInserts(job, rules, newIds, s, r', n, lo' + (k - b0));
    }
    forall k | b0 < k <= b ensures Continues(all, k) {
      assert InsertsAt(job, all, b0, n, k);
    }
    LaterChainFirst(job, all, newIds, s, a, b0, b, job.items[n - 1].id);
    ToTheEnd(job, all, newIds, s, b, newIds[b], newIds[a], b, a);
  }

  /** Two placements that insert at the same position come out in their own order if
      and only if the position is before an item.  At the end of the agenda the later
      placement stands first. */
  lemma OrderOfPlacements(job: Job, rules: seq<PlacementRule>, newIds: seq<Id>, s: Setting, r: nat, r': nat, c: nat, i: nat, j: nat)
    requires Executable(job, rules, newIds, s) && r < r' < |rules|
    requires StartsFree(job, rules, r, c) && StartsFree(job, rules, r', c)
    requires SliceStart(rules[r], |job.songIds|) <= i < SliceEnd(rules[r], |job.songIds|)
    requires SliceStart(rules[r'], |job.songIds|) <= j < SliceEnd(rules[r'], |job.songIds|)
    ensures ActionIndex(job, rules, r, i) < |Planned(job, rules)| && ActionIndex(job, rules, r', j) < |Planned(job, rules)|
    ensures var first, second := Showing(job, rules, newIds, r, i), Showing(job, rules, newIds, r', j);
            && (Precedes(Final(job, rules, newIds, s), first, second) <==> c < |job.items|)
            && (c >= |job.items| ==> Precedes(Final(job, rules, newIds, s), second, first))
  {
    hide After, Runs, Offset, Drafted, SliceStart, SliceEnd, Placed, Final, Showing, IndexOf;
    var a, b, lo := ActionIndex(job, rules, r, i), ActionIndex(job, rules, r', j), SliceStart(rules[r], |job.songIds|);
    ShowingIsNew(job, rules, newIds, s, r, c, i);
    ShowingIsNew(job, rules, newIds, s, r', c, j);
    if c < |job.items| {
      FinalIsAfter(job, rules, newIds, s);
      RuleInserts(job, rules, newIds, s, r, c, i);
      RuleInserts(job, rules, newIds, s, r', c, j);
      LaterActions(job, rules, newIds, s, r, r', i);
      BothBefore(job, Drafted(job, rules).drafts, newIds, s, a, b, job.items[c].id);
    } else {
      EndOfAgenda(job, rules, r, c);
      BothAtEnd(job, rules, newIds, s, r, r', j);
      if i > lo {
        SetlistIsInOrder(job, rules, newIds, s, r, lo, i);
        ShowingIsNew(job, rules, newIds, s, r, c, lo);
      }
    }
  }

  lemma EndOfAgenda(job: Job, rules: seq<PlacementRule>, r: nat, c: nat)
    requires job.Valid() && StartsFree(job, rules, r, c)
    ensures c <= |job.items|
  {
    AnchorFound(rules[r].anchor, job.items, job.normalize);
  }
}
