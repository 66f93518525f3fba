/** The plan realizes the setlist: in the agenda that performing an error-free plan
    leaves, every placement shows exactly its slice of the setlist, in order, and
    everything that the plan does not delete keeps its relative order. */
module Setlist {
  import opened Agendas
  import opened Actions
  import opened Layout
  import opened LayoutProofs
  import opened Order
  import opened Sorting
  import opened Placements
  import opened PlanShape
  import opened PlanTheorems
  import opened PlanOrder

  lemma ErrorsStay(a: seq<Issue>, b: seq<Issue>)
    requires a <= b && HasErrors(a)
    ensures HasErrors(b)
  {
    var i :| 0 <= i < |a| && a[i].IsError();
    assert b[i].IsError();
  }

  /** The situation in which a rule's songs are placed. */
  function StartOf(job: Job, rule: PlacementRule, p: Planning): Planning {
    var claimed := p.(used := p.used + Indexes(rule, |job.songIds|));
    var anchors := Matching(rule.anchor, job.items, job.normalize);
    if |anchors| > 1
    then claimed.(issues := p.issues + [AnchorMultipleFirstSelected(rule.id, Ids(anchors), anchors[0].id)])
    else claimed
  }

  /** No overlap with earlier slices, and an anchor that may be used. */
  predicate Admitted(job: Job, rule: PlacementRule, p: Planning) {
    var anchors := Matching(rule.anchor, job.items, job.normalize);
    && p.used * Indexes(rule, |job.songIds|) == {}
    && anchors != [] && (|anchors| > 1 ==> rule.policy == FIRST)
  }

  function RuleStart(job: Job, rule: PlacementRule): Cursor
    requires Matching(rule.anchor, job.items, job.normalize) != []
  {
    StartCursor(rule, job.items, AnchorIndex(job.items, Matching(rule.anchor, job.items, job.normalize)))
  }

  /** A rule without errors was admitted and none of its songs was refused. */
  lemma RuleAdds(job: Job, rule: PlacementRule, p: Planning)
    requires job.Valid()
    ensures var n := |job.songIds|;
            var p' := PlaceRule(job, rule, p);
            && p.drafts <= p'.drafts && p.issues <= p'.issues
            && (!HasErrors(p'.issues) ==>
                  && Admitted(job, rule, p)
                  && p' == PlaceSongs(job, rule, SliceStart(rule, n), SliceEnd(rule, n), StartOf(job, rule, p),
                                      RuleStart(job, rule)).0
                  && !PlaceSongs(job, rule, SliceStart(rule, n), SliceEnd(rule, n), StartOf(job, rule, p),
                                 RuleStart(job, rule)).1.blocked
                  && |p'.drafts| == |p.drafts| + (SliceEnd(rule, n) - SliceStart(rule, n))
                  && ForSongs(job, p'.drafts, |p.drafts|, SliceStart(rule, n), SliceEnd(rule, n)))
  {
    var p' := PlaceRule(job, rule, p);
    if Admitted(job, rule, p) {
      SongsAdd(job, rule, SliceStart(rule, |job.songIds|), SliceEnd(rule, |job.songIds|), StartOf(job, rule, p),
               RuleStart(job, rule));
    } else {
      assert p'.issues[|p.issues|].IsError();
    }
  }

  lemma PrefixOf<T>(a: seq<T>, b: seq<T>, c: seq<T>)
    requires a <= b <= c
    ensures a <= c
  {
  }

  lemma {:induction false} RulesGrow(job: Job, rules: seq<PlacementRule>, k: nat)
    requires job.Valid() && k <= |rules|
    ensures PlaceRules(job, rules[..k]).drafts <= PlaceRules(job, rules).drafts
    ensures PlaceRules(job, rules[..k]).issues <= PlaceRules(job, rules).issues
  {
    var n := |rules|;
    if k == n {
      assert rules[..k] == rules;
    } else {
      var earlier := PlaceRules(job, rules[..n - 1]);
      assert rules[..n - 1][..k] == rules[..k];
      RulesGrow(job, rules[..n - 1], k);
      RuleAdds(job, rules[n - 1], earlier);
      PrefixOf(PlaceRules(job, rules[..k]).drafts, earlier.drafts, PlaceRules(job, rules).drafts);
      PrefixOf(PlaceRules(job, rules[..k]).issues, earlier.issues, PlaceRules(job, rules).issues);
    }
  }

  lemma {:induction false} CleanUpGrows(job: Job, rows: seq<Ownership>, p: Planning)
    ensures p.issues <= CleanUpAll(job, rows, p).issues
  {
    if rows != [] {
      CleanUpGrows(job, rows[..|rows| - 1], p);
    }
  }

  /** A plan without errors has none at any earlier point. */
  lemma NoEarlierErrors(job: Job, rules: seq<PlacementRule>, k: nat)
    requires job.Valid() && k <= |rules| && !HasErrors(Drafted(job, rules).issues)
    ensures !HasErrors(PlaceRules(job, rules[..k]).issues)
  {
    RulesGrow(job, rules, k);
    CleanUpGrows(job, Sort(job.ownerships, OwnershipLeq), PlaceRules(job, rules));
    if HasErrors(PlaceRules(job, rules[..k]).issues) {
      ErrorsStay(PlaceRules(job, rules[..k]).issues, Drafted(job, rules).issues);
    }
  }

  // One rule.

  lemma GoingStarts(job: Job, rule: PlacementRule, p: Planning, newIds: seq<Id>, s: Setting)
    requires Tidy(job, p, newIds, s) && Admitted(job, rule, p)
    ensures Going(job, StartOf(job, rule, p), newIds, s, |p.drafts|, RuleStart(job, rule))
  {
    AnchorFound(rule.anchor, job.items, job.normalize);
  }

  /** Every rule without errors leaves its songs in order, and the agenda tidy. */
  lemma RuleGoes(job: Job, rule: PlacementRule, p: Planning, newIds: seq<Id>, s: Setting)
    requires Tidy(job, p, newIds, s)
    requires !HasErrors(PlaceRule(job, rule, p).issues) && |PlaceRule(job, rule, p).drafts| <= |newIds|
    ensures var p' := PlaceRule(job, rule, p);
            && Tidy(job, p', newIds, s)
            && InOrder(p'.drafts, newIds, |p.drafts|, |p'.drafts|, After(job, p'.drafts, newIds, s).items)
  {
    RuleAdds(job, rule, p);
    GoingStarts(job, rule, p, newIds, s);
    SongsGo(job, rule, SliceStart(rule, |job.songIds|), SliceEnd(rule, |job.songIds|), StartOf(job, rule, p),
            RuleStart(job, rule), newIds, s, |p.drafts|);
  }

  lemma TidyAtFirst(job: Job, newIds: seq<Id>, s: Setting)
    requires Setup(job, newIds, s)
    ensures Tidy(job, PlaceRules(job, []), newIds, s)
  {
    NothingAfter(job, newIds, s);
    PlaceRulesKeep(job, []);
    forall q | 0 <= q < |job.items| ensures IndexOf(job.items, job.items[q].id) == q {
      IndexIs(job.items, job.items[q].id, q);
    }
  }

  lemma {:induction false} RulesGo(job: Job, rules: seq<PlacementRule>, newIds: seq<Id>, s: Setting)
    requires Setup(job, newIds, s)
    requires !HasErrors(PlaceRules(job, rules).issues) && |PlaceRules(job, rules).drafts| <= |newIds|
    ensures Tidy(job, PlaceRules(job, rules), newIds, s)
  {
    if rules == [] {
      TidyAtFirst(job, newIds, s);
    } else {
      var earlier, rule := rules[..|rules| - 1], rules[|rules| - 1];
      RuleAdds(job, rule, PlaceRules(job, earlier));
      if HasErrors(PlaceRules(job, earlier).issues) {
        ErrorsStay(PlaceRules(job, earlier).issues, PlaceRules(job, rules).issues);
      }
      RulesGo(job, earlier, newIds, s);
      RuleGoes(job, rule, PlaceRules(job, earlier), newIds, s);
    }
  }

  /** The ids of the agenda stay distinct. */
  lemma {:induction false} AfterDistinct(job: Job, drafts: seq<Draft>, newIds: seq<Id>, s: Setting)
    requires Runs(job, drafts, newIds, s)
    ensures DistinctIds(After(job, drafts, newIds, s).items)
  {
    if drafts == [] {
      NothingAfter(job, newIds, s);
    } else {
      var k := |drafts| - 1;
      assert drafts == drafts[..k] + [drafts[k]];
      RunsPrefix(job, drafts, newIds, s, k);
      AfterDistinct(job, drafts[..k], newIds, s);
      AfterStep(job, drafts[..k], drafts[k], newIds, s);
      PerformDistinct(drafts[k].body, After(job, drafts[..k], newIds, s), s.catalogue, newIds[k]);
    }
  }

  // From the end of a placement to the end of the plan.

  lemma RunsPrefix(job: Job, drafts: seq<Draft>, newIds: seq<Id>, s: Setting, k: nat)
    requires Runs(job, drafts, newIds, s) && k <= |drafts|
    ensures Runs(job, drafts[..k], newIds, s)
  {
    assert Bodies(drafts[..k]) == Bodies(drafts)[..k];
    WellPlannedPrefix(Bodies(drafts), job.items, k);
  }

  ghost predicate Deleted(drafts: seq<Draft>, from: nat, id: Id) {
    exists j :: from <= j < |drafts| && Deletes(drafts[j].body, id)
  }

  ghost predicate Rewritten(drafts: seq<Draft>, from: nat, id: Id) {
    exists j :: from <= j < |drafts| && drafts[j].body.ReplaceItem? && drafts[j].body.itemId == id
  }

  /** An order once reached survives every later action that spares both items. */
  lemma {:induction false} OrderSurvives(job: Job, drafts: seq<Draft>, newIds: seq<Id>, s: Setting, n: nat, x: Id, y: Id)
    requires Runs(job, drafts, newIds, s) && n <= |drafts| && Runs(job, drafts[..n], newIds, s)
    requires !Deleted(drafts, n, x) && !Deleted(drafts, n, y)
    requires Precedes(After(job, drafts[..n], newIds, s).items, x, y)
    ensures Precedes(After(job, drafts, newIds, s).items, x, y)
  {
    var k := |drafts| - 1;
    if n == |drafts| {
      assert drafts[..n] == drafts;
    } else {
      var shorter, draft := drafts[..k], drafts[k];
      assert shorter[..n] == drafts[..n] && drafts == shorter + [draft];
      RunsPrefix(job, drafts, newIds, s, k);
      OrderSurvives(job, shorter, newIds, s, n, x, y);
      AfterStep(job, shorter, draft, newIds, s);
      PerformKeepsOrder(draft.body, After(job, shorter, newIds, s), s.catalogue, newIds[k], x, y);
    }
  }

  /** An item survives, unchanged, every later action that spares it. */
  lemma {:induction false} ItemSurvives(job: Job, drafts: seq<Draft>, newIds: seq<Id>, s: Setting, n: nat, x: Id)
    requires Runs(job, drafts, newIds, s) && n <= |drafts| && Runs(job, drafts[..n], newIds, s)
    requires !Deleted(drafts, n, x) && !Rewritten(drafts, n, x)
    requires !Absent(After(job, drafts[..n], newIds, s).items, x)
    ensures var before, after := After(job, drafts[..n], newIds, s).items, After(job, drafts, newIds, s).items;
            !Absent(after, x) && after[IndexOf(after, x)] == before[IndexOf(before, x)]
  {
    hide After, Perform;
    var k := |drafts| - 1;
    if n == |drafts| {
      assert drafts[..n] == drafts;
    } else {
      var shorter, draft := drafts[..k], drafts[k];
      assert shorter[..n] == drafts[..n] && drafts == shorter + [draft];
      RunsPrefix(job, drafts, newIds, s, k);
      ItemSurvives(job, shorter, newIds, s, n, x);
      AfterStep(job, shorter, draft, newIds, s);
      PerformKeepsItem(draft.body, After(job, shorter, newIds, s), s.catalogue, newIds[k], x);
    }
  }

  // The theorems.

  /** A plan without errors, new ids for its inserts, and all its songs available. */
  ghost predicate Executable(job: Job, rules: seq<PlacementRule>, newIds: seq<Id>, s: Setting) {
    && Setup(job, newIds, s) && !HasErrors(Drafted(job, rules).issues)
    && |newIds| == |Planned(job, rules)|
  }

  /** The agenda the plan leaves. */
  ghost function Final(job: Job, rules: seq<PlacementRule>, newIds: seq<Id>, s: Setting): Agenda
    requires Executable(job, rules, newIds, s)
  {
    var done := PerformAll(Planned(job, rules), Effect(job.items, s.resources), s.catalogue, newIds);
    if done.Some? then done.value.items else []
  }

  lemma FinalIsAfter(job: Job, rules: seq<PlacementRule>, newIds: seq<Id>, s: Setting)
    requires Executable(job, rules, newIds, s)
    ensures Runs(job, Drafted(job, rules).drafts, newIds, s)
    ensures Final(job, rules, newIds, s) == After(job, Drafted(job, rules).drafts, newIds, s).items
    ensures PerformAll(Planned(job, rules), Effect(job.items, s.resources), s.catalogue, newIds).Some?
  {
    PlansAreWellPlanned(job, rules);
    PlansArePlaceable(job, rules, s);
    PlanIsRealized(job, rules, newIds, s);
    assert newIds[..|Drafted(job, rules).drafts|] == newIds;
  }

  /** The number of drafts the rules before `r` make. */
  function Offset(job: Job, rules: seq<PlacementRule>, r: nat): nat
    requires job.Valid() && r <= |rules|
  {
    |PlaceRules(job, rules[..r]).drafts|
  }

  /** The number of the action that places song `i` of the setlist for rule `r`. */
  function ActionIndex(job: Job, rules: seq<PlacementRule>, r: nat, i: nat): nat
    requires job.Valid() && r < |rules| && i >= SliceStart(rules[r], |job.songIds|)
  {
    Offset(job, rules, r) + (i - SliceStart(rules[r], |job.songIds|))
  }

  /** The agenda item in which rule `r` shows song `i` of the setlist. */
  ghost function Showing(job: Job, rules: seq<PlacementRule>, newIds: seq<Id>, r: nat, i: nat): Id
    requires job.Valid() && r < |rules| && i >= SliceStart(rules[r], |job.songIds|)
    requires ActionIndex(job, rules, r, i) < |Planned(job, rules)| == |newIds|
  {
    var action := Planned(job, rules)[ActionIndex(job, rules, r, i)];
    if ClaimsSlot(action) then action.itemId else newIds[ActionIndex(job, rules, r, i)]
  }

  /** Cleanup spares every item that a placement shows. */
  lemma CleanupSpares(job: Job, rules: seq<PlacementRule>, newIds: seq<Id>, s: Setting, j: nat)
    requires Executable(job, rules, newIds, s) && j < |PlaceRules(job, rules).drafts|
    ensures PlaceRules(job, rules).drafts <= Drafted(job, rules).drafts
    ensures Placed(job, PlaceRules(job, rules))
    ensures !Deleted(Drafted(job, rules).drafts, 0, Target(PlaceRules(job, rules).drafts, newIds, j))
    ensures !Rewritten(Drafted(job, rules).drafts, |PlaceRules(job, rules).drafts|,
                       Target(PlaceRules(job, rules).drafts, newIds, j))
  {
    DraftedIsCleaned(job, rules);
    var p0, p := PlaceRules(job, rules), Drafted(job, rules);
    assert Bodies(p0.drafts)[j] == p0.drafts[j].body;
    forall i | 0 <= i < |p.drafts|
      ensures !Deletes(p.drafts[i].body, Target(p0.drafts, newIds, j))
    {
      if i >= |p0.drafts| {
        var o := CleanupOwner(job, job.ownerships, p0, p, i);
        if DeleteAuthorized(job, o) {
          assert job.items[IndexOf(job.items, o.agendaItemId)].id == o.agendaItemId;
        }
      } else {
        assert Bodies(p0.drafts)[i] == p.drafts[i].body;
      }
    }
  }

  /** Where rule `r` stands among the drafts. */
  lemma SegmentOf(job: Job, rules: seq<PlacementRule>, newIds: seq<Id>, s: Setting, r: nat, i: nat)
    requires Executable(job, rules, newIds, s) && r < |rules|
    requires SliceStart(rules[r], |job.songIds|) <= i < SliceEnd(rules[r], |job.songIds|)
    ensures var j, placed := ActionIndex(job, rules, r, i), PlaceRules(job, rules).drafts;
            && j < |placed| && placed <= Drafted(job, rules).drafts
            && placed[j].body.PlacesSong()
            && placed[j].body.song == job.resources[job.songIds[i]]
  {
    hide PlaceRules, Drafted, SliceStart, SliceEnd, ForSongs, Placed, HasErrors, Fresh, DistinctOwners;
    DraftedIsCleaned(job, rules);
    RuleSpan(job, rules, r);
    var lo, hi := SliceStart(rules[r], |job.songIds|), SliceEnd(rules[r], |job.songIds|);
    SegmentSong(job, PlaceRules(job, rules[..r + 1]).drafts, PlaceRules(job, rules).drafts, Offset(job, rules, r),
                lo, hi, i);
    assert ActionIndex(job, rules, r, i) == Offset(job, rules, r) + (i - lo);
  }

  lemma ShowingTarget(job: Job, rules: seq<PlacementRule>, newIds: seq<Id>, s: Setting, r: nat, i: nat)
    requires Executable(job, rules, newIds, s) && r < |rules| && i >= SliceStart(rules[r], |job.songIds|)
    requires var j, placed := ActionIndex(job, rules, r, i), PlaceRules(job, rules).drafts;
             j < |placed| && placed <= Drafted(job, rules).drafts && placed[j].body.PlacesSong()
    ensures ActionIndex(job, rules, r, i) < |Planned(job, rules)|
    ensures Showing(job, rules, newIds, r, i)
            == Target(PlaceRules(job, rules).drafts, newIds, ActionIndex(job, rules, r, i))
  {
    var j, placed, all := ActionIndex(job, rules, r, i), PlaceRules(job, rules).drafts, Drafted(job, rules).drafts;
    assert Planned(job, rules) == Bodies(all);
    assert all[j] == placed[j];
    assert Planned(job, rules)[j] == placed[j].body;
  }

  lemma SegmentSong(job: Job, prefix: seq<Draft>, drafts: seq<Draft>, b: nat, lo: nat, hi: nat, i: nat)
    requires job.Valid() && prefix <= drafts && ForSongs(job, prefix, b, lo, hi) && lo <= i < hi
    ensures var j := b + (i - lo);
            j < |drafts| && drafts[j].body.PlacesSong() && drafts[j].body.song == job.resources[job.songIds[i]]
  {
    var j := b + (i - lo);
    assert drafts[j] == prefix[j];
    assert lo + (j - b) == i;
  }

  /** Every song of every slice is shown: the item of its action is in the final
      agenda and shows the song and arrangement that the setlist entry maps to. */
  lemma SetlistIsShown(job: Job, rules: seq<PlacementRule>, newIds: seq<Id>, s: Setting, r: nat, i: nat)
    requires Executable(job, rules, newIds, s) && r < |rules|
    requires SliceStart(rules[r], |job.songIds|) <= i < SliceEnd(rules[r], |job.songIds|)
    ensures ActionIndex(job, rules, r, i) < |Planned(job, rules)|
    ensures ShowsSong(Final(job, rules, newIds, s), Showing(job, rules, newIds, r, i),
                      job.resources[job.songIds[i]], s)
  {
    SegmentOf(job, rules, newIds, s, r, i);
    ShowingTarget(job, rules, newIds, s, r, i);
    DraftIsShown(job, rules, newIds, s, ActionIndex(job, rules, r, i));
  }

  lemma DraftIsShown(job: Job, rules: seq<PlacementRule>, newIds: seq<Id>, s: Setting, j: nat)
    requires Executable(job, rules, newIds, s) && j < |PlaceRules(job, rules).drafts| <= |newIds|
    requires PlaceRules(job, rules).drafts[j].body.PlacesSong()
    ensures var placed := PlaceRules(job, rules).drafts;
            ShowsSong(Final(job, rules, newIds, s), Target(placed, newIds, j), placed[j].body.song, s)
  {
    hide After, Deleted, Rewritten, IndexOf, Drafted, PlaceRules, Final;
    var all, placed := Drafted(job, rules).drafts, PlaceRules(job, rules).drafts;
    ShownBeforeCleanup(job, rules, newIds, s, j);
    FinalIsAfter(job, rules, newIds, s);
    CleanupSpares(job, rules, newIds, s, j);
    SpareFrom(all, |placed|, Target(placed, newIds, j));
    assert all[..|placed|] == placed;
    ItemSurvives(job, all, newIds, s, |placed|, Target(placed, newIds, j));
  }

  lemma ShownBeforeCleanup(job: Job, rules: seq<PlacementRule>, newIds: seq<Id>, s: Setting, j: nat)
    requires Executable(job, rules, newIds, s) && j < |PlaceRules(job, rules).drafts| <= |newIds|
    requires PlaceRules(job, rules).drafts[j].body.PlacesSong()
    ensures var placed := PlaceRules(job, rules).drafts;
            && Runs(job, placed, newIds, s)
            && ShowsSong(After(job, placed, newIds, s).items, Target(placed, newIds, j), placed[j].body.song, s)
  {
    NoEarlierErrors(job, rules, |rules|);
    assert rules[..|rules|] == rules;
    RulesGo(job, rules, newIds, s);
  }

  lemma SpareFrom(drafts: seq<Draft>, from: nat, id: Id)
    requires !Deleted(drafts, 0, id)
    ensures !Deleted(drafts, from, id)
  {
  }

  /** The drafts of rule `r` are in order as soon as the rule is done. */
  lemma RuleEndsInOrder(job: Job, rules: seq<PlacementRule>, newIds: seq<Id>, s: Setting, r: nat, i: nat, j: nat)
    requires Executable(job, rules, newIds, s) && r < |rules|
    requires var drafts := PlaceRules(job, rules[..r + 1]).drafts;
             Offset(job, rules, r) <= i < j < |drafts| <= |newIds|
    ensures var drafts := PlaceRules(job, rules[..r + 1]).drafts;
            && Runs(job, drafts, newIds, s)
            && drafts[i].body.PlacesSong() && drafts[j].body.PlacesSong()
            && Precedes(After(job, drafts, newIds, s).items, Target(drafts, newIds, i), Target(drafts, newIds, j))
  {
    var earlier := rules[..r];
    assert rules[..r + 1] == earlier + [rules[r]];
    NoEarlierErrors(job, rules, r);
    NoEarlierErrors(job, rules, r + 1);
    RuleAdds(job, rules[r], PlaceRules(job, earlier));
    RulesGo(job, earlier, newIds, s);
    RuleGoes(job, rules[r], PlaceRules(job, earlier), newIds, s);
  }

  /** The songs of a slice stand in setlist order in the final agenda. */
  lemma SetlistIsInOrder(job: Job, rules: seq<PlacementRule>, newIds: seq<Id>, s: Setting, r: nat, i: nat, j: nat)
    requires Executable(job, rules, newIds, s) && r < |rules|
    requires SliceStart(rules[r], |job.songIds|) <= i < j < SliceEnd(rules[r], |job.songIds|)
    ensures ActionIndex(job, rules, r, j) < |Planned(job, rules)|
    ensures Precedes(Final(job, rules, newIds, s), Showing(job, rules, newIds, r, i), Showing(job, rules, newIds, r, j))
  {
    var drafts := PlaceRules(job, rules[..r + 1]).drafts;
    var x, y := ActionIndex(job, rules, r, i), ActionIndex(job, rules, r, j);
    ShowingIs(job, rules, newIds, s, r, i);
    ShowingIs(job, rules, newIds, s, r, j);
    DraftsStayInOrder(job, rules, newIds, s, r, x, y);
    assert Precedes(Final(job, rules, newIds, s), Target(drafts, newIds, x), Target(drafts, newIds, y));
  }

  lemma DraftsStayInOrder(job: Job, rules: seq<PlacementRule>, newIds: seq<Id>, s: Setting, r: nat, i: nat, j: nat)
    requires Executable(job, rules, newIds, s) && r < |rules|
    requires Offset(job, rules, r) <= i < j < |PlaceRules(job, rules[..r + 1]).drafts| <= |newIds|
    ensures var drafts := PlaceRules(job, rules[..r + 1]).drafts;
            && drafts[i].body.PlacesSong() && drafts[j].body.PlacesSong()
            && Precedes(Final(job, rules, newIds, s), Target(drafts, newIds, i), Target(drafts, newIds, j))
  {
    RuleSpan(job, rules, r);
    RuleEndsInOrder(job, rules, newIds, s, r, i, j);
    OrderReachesEnd(job, rules, newIds, s, r, i, j);
  }

  /** The item shown for a song, as the target of a draft of its rule. */
  lemma ShowingIs(job: Job, rules: seq<PlacementRule>, newIds: seq<Id>, s: Setting, r: nat, i: nat)
    requires Executable(job, rules, newIds, s) && r < |rules|
    requires SliceStart(rules[r], |job.songIds|) <= i < SliceEnd(rules[r], |job.songIds|)
    ensures var j := ActionIndex(job, rules, r, i);
            var drafts := PlaceRules(job, rules[..r + 1]).drafts;
            && j < |drafts| <= |newIds| && j < |Planned(job, rules)| && drafts[j].body.PlacesSong()
            && Showing(job, rules, newIds, r, i) == Target(drafts, newIds, j)
  {
    SegmentOf(job, rules, newIds, s, r, i);
    ShowingTarget(job, rules, newIds, s, r, i);
    RuleSpan(job, rules, r);
    var j := ActionIndex(job, rules, r, i);
    assert PlaceRules(job, rules[..r + 1]).drafts[j] == PlaceRules(job, rules).drafts[j];
  }

  /** Rule `r` makes one draft per song of its slice. */
  lemma RuleSpan(job: Job, rules: seq<PlacementRule>, r: nat)
    requires job.Valid() && r < |rules| && !HasErrors(Drafted(job, rules).issues)
    ensures var drafts := PlaceRules(job, rules[..r + 1]).drafts;
            var lo, hi := SliceStart(rules[r], |job.songIds|), SliceEnd(rules[r], |job.songIds|);
            && |drafts| == Offset(job, rules, r) + (hi - lo)
            && drafts <= PlaceRules(job, rules).drafts
            && ForSongs(job, drafts, Offset(job, rules, r), lo, hi)
  {
    assert rules[..r + 1][..r] == rules[..r];
    NoEarlierErrors(job, rules, r + 1);
    RulesGrow(job, rules, r + 1);
    RuleAdds(job, rules[r], PlaceRules(job, rules[..r]));
  }

  lemma OrderReachesEnd(job: Job, rules: seq<PlacementRule>, newIds: seq<Id>, s: Setting, r: nat, i: nat, j: nat)
    requires Executable(job, rules, newIds, s) && r < |rules|
    requires var drafts := PlaceRules(job, rules[..r + 1]).drafts;
             && i < j < |drafts| && Runs(job, drafts, newIds, s) && drafts <= PlaceRules(job, rules).drafts
             && drafts[i].body.PlacesSong() && drafts[j].body.PlacesSong()
             && Precedes(After(job, drafts, newIds, s).items, Target(drafts, newIds, i), Target(drafts, newIds, j))
    ensures var drafts := PlaceRules(job, rules[..r + 1]).drafts;
            Precedes(Final(job, rules, newIds, s), Target(drafts, newIds, i), Target(drafts, newIds, j))
  {
    var all, drafts := Drafted(job, rules).drafts, PlaceRules(job, rules[..r + 1]).drafts;
    var n, x, y := |drafts|, Target(drafts, newIds, i), Target(drafts, newIds, j);
    FinalIsAfter(job, rules, newIds, s);
    SegmentSpared(job, rules, newIds, s, drafts, i);
    SegmentSpared(job, rules, newIds, s, drafts, j);
    assert all[..n] == drafts;
    OrderSurvives(job, all, newIds, s, n, x, y);
  }

  lemma SegmentSpared(job: Job, rules: seq<PlacementRule>, newIds: seq<Id>, s: Setting, drafts: seq<Draft>, j: nat)
    requires Executable(job, rules, newIds, s)
    requires drafts <= PlaceRules(job, rules).drafts && j < |drafts| <= |newIds| && drafts[j].body.PlacesSong()
    ensures !Deleted(Drafted(job, rules).drafts, |drafts|, Target(drafts, newIds, j))
    ensures drafts <= Drafted(job, rules).drafts
  {
    var placed := PlaceRules(job, rules).drafts;
    assert placed[j] == drafts[j];
    CleanupSpares(job, rules, newIds, s, j);
    assert Target(placed, newIds, j) == Target(drafts, newIds, j);
    SpareFrom(Drafted(job, rules).drafts, |drafts|, Target(drafts, newIds, j));
    PrefixOf(drafts, placed, Drafted(job, rules).drafts);
  }

  /** What the plan does not delete keeps its relative order. */
  lemma OriginalsKeepOrder(job: Job, rules: seq<PlacementRule>, newIds: seq<Id>, s: Setting, q: nat, q': nat)
    requires Executable(job, rules, newIds, s) && q < q' < |job.items|
    requires !Deleted(Drafted(job, rules).drafts, 0, job.items[q].id)
    requires !Deleted(Drafted(job, rules).drafts, 0, job.items[q'].id)
    ensures Precedes(Final(job, rules, newIds, s), job.items[q].id, job.items[q'].id)
  {
    var all := Drafted(job, rules).drafts;
    FinalIsAfter(job, rules, newIds, s);
    NothingAfter(job, newIds, s);
    assert all[..0] == [];
    IndexIs(job.items, job.items[q].id, q);
    IndexIs(job.items, job.items[q'].id, q');
    OrderSurvives(job, all, newIds, s, 0, job.items[q].id, job.items[q'].id);
  }

  /** An item that the plan neither deletes nor replaces is left exactly as it was. */
  lemma OthersAreUntouched(job: Job, rules: seq<PlacementRule>, newIds: seq<Id>, s: Setting, q: nat)
    requires Executable(job, rules, newIds, s) && q < |job.items|
    requires !Deleted(Drafted(job, rules).drafts, 0, job.items[q].id)
    requires !Rewritten(Drafted(job, rules).drafts, 0, job.items[q].id)
    ensures job.items[q] in Final(job, rules, newIds, s)
  {
    var all := Drafted(job, rules).drafts;
    FinalIsAfter(job, rules, newIds, s);
    NothingAfter(job, newIds, s);
    assert all[..0] == [];
    IndexIs(job.items, job.items[q].id, q);
    ItemSurvives(job, all, newIds, s, 0, job.items[q].id);
  }

  ghost predicate InsertedAs(drafts: seq<Draft>, newIds: seq<Id>, id: Id)
    requires |drafts| <= |newIds|
  {
    exists j :: 0 <= j < |drafts| && drafts[j].body.InsertItem? && newIds[j] == id
  }

  lemma {:induction false} IdsAfter(job: Job, drafts: seq<Draft>, newIds: seq<Id>, s: Setting, x: Id)
    requires Runs(job, drafts, newIds, s)
    ensures !Absent(After(job, drafts, newIds, s).items, x)
            <==> InsertedAs(drafts, newIds, x) || (!Absent(job.items, x) && !Deleted(drafts, 0, x))
  {
    if drafts == [] {
      NothingAfter(job, newIds, s);
    } else {
      var k := |drafts| - 1;
      var shorter, draft := drafts[..k], drafts[k];
      assert drafts == shorter + [draft];
      RunsPrefix(job, drafts, newIds, s, k);
      IdsAfter(job, shorter, newIds, s, x);
      AfterStep(job, shorter, draft, newIds, s);
      PerformIds(draft.body, After(job, shorter, newIds, s), s.catalogue, newIds[k], x);
      InsertNotDeleted(job, drafts, newIds, s, x);
      InsertedDeletedStep(shorter, draft, newIds, x);
    }
  }

  lemma InsertedDeletedStep(drafts: seq<Draft>, draft: Draft, newIds: seq<Id>, x: Id)
    requires |drafts| < |newIds|
    ensures InsertedAs(drafts + [draft], newIds, x)
            <==> InsertedAs(drafts, newIds, x) || (draft.body.InsertItem? && newIds[|drafts|] == x)
    ensures Deleted(drafts + [draft], 0, x) <==> Deleted(drafts, 0, x) || Deletes(draft.body, x)
  {
    var all := drafts + [draft];
    assert all[|drafts|] == draft;
    assert forall j :: 0 <= j < |drafts| ==> all[j] == drafts[j];
  }

  /** A DELETE names an original item, so it never hits an inserted one. */
  lemma InsertNotDeleted(job: Job, drafts: seq<Draft>, newIds: seq<Id>, s: Setting, x: Id)
    requires Runs(job, drafts, newIds, s)
    ensures !(InsertedAs(drafts, newIds, x) && Deleted(drafts, 0, x))
  {
    if Deleted(drafts, 0, x) {
      var j :| 0 <= j < |drafts| && Deletes(drafts[j].body, x);
      assert Bodies(drafts)[j] == drafts[j].body;
      assert RefersToPresent(Bodies(drafts)[..j], Bodies(drafts)[j], job.items);
    }
  }

  /** Nothing appears or disappears besides: the final agenda holds exactly the
      original items that were not deleted and the items that were inserted. */
  lemma FinalHoldsExactly(job: Job, rules: seq<PlacementRule>, newIds: seq<Id>, s: Setting, x: Id)
    requires Executable(job, rules, newIds, s)
    ensures |Drafted(job, rules).drafts| == |newIds|
    ensures DistinctIds(Final(job, rules, newIds, s))
    ensures !Absent(Final(job, rules, newIds, s), x)
            <==> InsertedAs(Drafted(job, rules).drafts, newIds, x)
                 || (!Absent(job.items, x) && !Deleted(Drafted(job, rules).drafts, 0, x))
  {
    FinalIsAfter(job, rules, newIds, s);
    AfterDistinct(job, Drafted(job, rules).drafts, newIds, s);
    IdsAfter(job, Drafted(job, rules).drafts, newIds, s, x);
  }
}
