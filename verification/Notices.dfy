/** What a plan warns of, exactly, and in which order it tidies up. */
module Notices {
  import opened Prelude
  import opened Agendas
  import opened Actions
  import opened Sorting
  import opened Placements
  import opened PlanShape
  import opened PlanTheorems
  import opened PlanOrder
  import opened Setlist
  import opened StandingSongs
  import opened Anchors
  import opened Deletions

  // Rows whose item somebody has changed.

  predicate InAgenda(job: Job, id: Id) { exists k :: 0 <= k < |job.items| && job.items[k].id == id }

  predicate IsChanged(job: Job, o: Ownership) {
    IndexOf(job.items, o.agendaItemId) < |job.items| && !DeleteAuthorized(job, o)
  }

  lemma {:induction false} CleanupWarns(job: Job, rows: seq<Ownership>, p: Planning, issue: Issue)
    ensures issue in CleanUpAll(job, rows, p).issues
            <==> issue in p.issues
                 || exists o :: o in rows && Surplus(job, o, p) && IsChanged(job, o) && issue == OwnedAgendaItemChanged(o.agendaItemId)
  {
    hide DeleteAuthorized;
    if rows != [] {
      var earlier, last := rows[..|rows| - 1], rows[|rows| - 1];
      assert rows == earlier + [last];
      CleanupWarns(job, earlier, p, issue);
      CleanUpKeepsSets(job, earlier, p);
    }
  }

  lemma {:induction false} SongsNeverWarn(job: Job, rule: PlacementRule, lo: nat, k: nat, p: Planning, c: Cursor, issue: Issue)
    requires job.Valid() && lo <= k <= |job.songIds| && !issue.IsError()
    ensures issue in PlaceSongs(job, rule, lo, k, p, c).0.issues <==> issue in p.issues
  {
    if k > lo {
      SongsNeverWarn(job, rule, lo, k - 1, p, c, issue);
    }
  }

  /** Several items are described, and the first is taken. */
  ghost predicate Picks(job: Job, rule: PlacementRule, issue: Issue) {
    var matches := Matching(rule.anchor, job.items, job.normalize);
    |matches| > 1 && issue == AnchorMultipleFirstSelected(rule.id, Ids(matches), matches[0].id)
  }

  lemma RuleWarns(job: Job, rule: PlacementRule, p: Planning, issue: Issue)
    requires job.Valid() && !issue.IsError() && !HasErrors(PlaceRule(job, rule, p).issues)
    ensures issue in PlaceRule(job, rule, p).issues <==> issue in p.issues || Picks(job, rule, issue)
  {
    hide PlaceRule, PlaceSongs, ForSongs, HasErrors;
    RuleAdds(job, rule, p);
    SongsNeverWarn(job, rule, SliceStart(rule, |job.songIds|), SliceEnd(rule, |job.songIds|), StartOf(job, rule, p),
                   RuleStart(job, rule), issue);
  }

  lemma {:induction false} RulesWarn(job: Job, rules: seq<PlacementRule>, issue: Issue)
    requires job.Valid() && !issue.IsError() && !HasErrors(PlaceRules(job, rules).issues)
    ensures issue in PlaceRules(job, rules).issues <==> exists r :: 0 <= r < |rules| && Picks(job, rules[r], issue)
  {
    hide PlaceRule, Picks;
    if rules != [] {
      var n := |rules| - 1;
      RuleAdds(job, rules[n], PlaceRules(job, rules[..n]));
      if HasErrors(PlaceRules(job, rules[..n]).issues) {
        ErrorsStay(PlaceRules(job, rules[..n]).issues, PlaceRules(job, rules).issues);
      }
      RulesWarn(job, rules[..n], issue);
      RuleWarns(job, rules[n], PlaceRules(job, rules[..n]), issue);
      if r :| 0 <= r < n && Picks(job, rules[..n][r], issue) {
        assert Picks(job, rules[r], issue);
      }
      if r :| 0 <= r < |rules| && Picks(job, rules[r], issue) {
        assert r < n ==> Picks(job, rules[..n][r], issue);
      }
    }
  }

  lemma IssuesOf(job: Job, rules: seq<PlacementRule>, issue: Issue)
    requires Sound(job) && !HasErrors(Drafted(job, rules).issues) && !issue.IsError()
    ensures issue in Drafted(job, rules).issues <==>
              || (exists r :: 0 <= r < |rules| && Picks(job, rules[r], issue))
              || exists o :: Dropped(job, rules, o) && InAgenda(job, o.agendaItemId) && !StillShows(job, o)
                             && issue == OwnedAgendaItemChanged(o.agendaItemId)
  {
    hide Picks, Dropped, StillShows, DeleteAuthorized, Surplus, PlaceRules, HasErrors;
    var rows, p := Sort(job.ownerships, OwnershipLeq), PlaceRules(job, rules);
    NoEarlierErrors(job, rules, |rules|);
    assert rules[..|rules|] == rules;
    RulesWarn(job, rules, issue);
    CleanupWarns(job, rows, p, issue);
    SortedStayDistinct(job.ownerships);
    forall o ensures o in rows && Surplus(job, o, p) && IsChanged(job, o)
                     <==> Dropped(job, rules, o) && InAgenda(job, o.agendaItemId) && !StillShows(job, o)
    {
      DroppedIsRow(job, rules, o);
      if o in job.ownerships {
        SurplusIsDropped(job, rules, o);
        AuthorizedShows(job, o);
      }
    }
  }

  lemma DroppedIsRow(job: Job, rules: seq<PlacementRule>, o: Ownership)
    requires job.Valid()
    ensures Dropped(job, rules, o) ==> o in job.ownerships
  {
  }

  /** A plan that is not refused warns of an item if and only if a row of the profile that
      is of no use any more is for it, and somebody has changed it since. */
  lemma ChangesAreToldExactly(job: Job, rules: seq<PlacementRule>, id: Id)
    requires Sound(job) && !HasErrors(Drafted(job, rules).issues)
    ensures OwnedAgendaItemChanged(id) in Drafted(job, rules).issues <==>
              exists o :: Dropped(job, rules, o) && o.agendaItemId == id && InAgenda(job, id) && !StillShows(job, o)
  {
    hide Dropped, StillShows, Drafted, InAgenda;
    IssuesOf(job, rules, OwnedAgendaItemChanged(id));
  }

  /** It warns of a placement if and only if its anchor describes several items; the
      warning names them, and the first of them as the one that was taken. */
  lemma ChoicesAreToldExactly(job: Job, rules: seq<PlacementRule>, id: Id, ids: seq<Id>, taken: Id)
    requires Sound(job) && !HasErrors(Drafted(job, rules).issues)
    ensures AnchorMultipleFirstSelected(id, ids, taken) in Drafted(job, rules).issues <==>
              exists r :: 0 <= r < |rules| && rules[r].id == id && |ids| > 1 && taken == ids[0]
                          && ids == Ids(Filter(job.items, (item: AgendaItem) => Describes(rules[r].anchor, item, job.normalize)))
  {
    hide Drafted, Dropped, AnchorMatches, Describes;
    var issue := AnchorMultipleFirstSelected(id, ids, taken);
    IssuesOf(job, rules, issue);
    forall r | 0 <= r < |rules|
      ensures Picks(job, rules[r], issue) <==>
                rules[r].id == id && |ids| > 1 && taken == ids[0]
                && ids == Ids(Filter(job.items, (item: AgendaItem) => Describes(rules[r].anchor, item, job.normalize)))
    {
      MatchingDescribes(job, rules[r]);
    }
  }

  lemma MatchingDescribes(job: Job, rule: PlacementRule)
    ensures Matching(rule.anchor, job.items, job.normalize)
            == Filter(job.items, (item: AgendaItem) => Describes(rule.anchor, item, job.normalize))
  {
    hide AnchorMatches, Describes;
    forall item ensures AnchorMatches(rule.anchor, item, job.normalize) <==> Describes(rule.anchor, item, job.normalize) {
      MatchDescribes(rule.anchor, item, job.normalize);
    }
    FilterAlike(job.items, (item: AgendaItem) => AnchorMatches(rule.anchor, item, job.normalize),
                (item: AgendaItem) => Describes(rule.anchor, item, job.normalize));
  }

  // The order of tidying up.

  predicate Ranks(a: Body, b: Body)
    requires TidiesUp(a) && TidiesUp(b)
  {
    if a.placementId != b.placementId then StringLeq(a.placementId, b.placementId)
    else if a.sourceKey != b.sourceKey then StringLeq(a.sourceKey, b.sourceKey)
    else StringLeq(a.itemId, b.itemId)
  }

  lemma RowOrder()
    ensures Preorder(OwnershipLeq)
  {
    StringOrder();
  }

  /** The rows that two cleanup actions are for come in the order of the actions. */
  lemma {:induction false} CleanupRow(job: Job, rows: seq<Ownership>, p: Planning, j: nat) returns (i: nat)
    requires |p.drafts| <= j < |CleanUpAll(job, rows, p).drafts|
    ensures i < |rows| && CleanUpAll(job, rows, p).drafts[j] == CleanupDraft(job, rows[i])
  {
    hide CleanupDraft, Surplus;
    var n := |rows| - 1;
    if j < |CleanUpAll(job, rows[..n], p).drafts| {
      i := CleanupRow(job, rows[..n], p, j);
    } else {
      i := n;
    }
  }

  lemma {:induction false} CleanupRows(job: Job, rows: seq<Ownership>, p: Planning, j: nat, k: nat) returns (a: nat, b: nat)
    requires |p.drafts| <= j < k < |CleanUpAll(job, rows, p).drafts|
    ensures a < b < |rows|
    ensures CleanUpAll(job, rows, p).drafts[j] == CleanupDraft(job, rows[a])
    ensures CleanUpAll(job, rows, p).drafts[k] == CleanupDraft(job, rows[b])
  {
    hide CleanupDraft, Surplus;
    var n := |rows| - 1;
    if k < |CleanUpAll(job, rows[..n], p).drafts| {
      a, b := CleanupRows(job, rows[..n], p, j, k);
    } else {
      a := CleanupRow(job, rows[..n], p, j);
      b := n;
    }
  }

  /** A plan places its songs first and tidies up after that, in order of placement, key
      and item. */
  lemma TidiesInOrder(job: Job, rules: seq<PlacementRule>, j: nat, k: nat)
    requires Sound(job) && !HasErrors(Drafted(job, rules).issues)
    requires j < k < |Planned(job, rules)| && TidiesUp(Planned(job, rules)[j])
    ensures TidiesUp(Planned(job, rules)[k]) && Ranks(Planned(job, rules)[j], Planned(job, rules)[k])
  {
    hide PlaceRules, Surplus, Sort, OwnershipLeq;
    var rows, p, all := Sort(job.ownerships, OwnershipLeq), PlaceRules(job, rules), Drafted(job, rules).drafts;
    DraftedIsCleaned(job, rules);
    CleanUpExtends(job, rows, p);
    assert all[j].body == Planned(job, rules)[j] && all[k].body == Planned(job, rules)[k];
    var a, b := CleanupRows(job, rows, p, j, k);
    RowOrder();
    SortSorts(job.ownerships, OwnershipLeq);
    OrderedRows(rows[a], rows[b], CleanupDraft(job, rows[a]).body, CleanupDraft(job, rows[b]).body);
  }

  lemma OrderedRows(o: Ownership, q: Ownership, a: Body, b: Body)
    requires OwnershipLeq(o, q) && TidiesUp(a) && TidiesUp(b)
    requires a.placementId == o.placementId && a.sourceKey == o.sourceKey && a.itemId == o.agendaItemId
    requires b.placementId == q.placementId && b.sourceKey == q.sourceKey && b.itemId == q.agendaItemId
    ensures Ranks(a, b)
  {
  }
}
