/** What a plan deletes, exactly: the items of rows that no placement wants any more,
    as long as they still show what the row recorded -- and nothing else. */
module Deletions {
  import opened Prelude
  import opened Agendas
  import opened Actions
  import opened Layout
  import opened Order
  import opened Sorting
  import opened Placements
  import opened PlanShape
  import opened PlanTheorems
  import opened Setlist
  import opened StandingSongs
  import opened RunRows
  import opened SongSlices

  /** The key under which some placement places some song that it selects. */
  ghost predicate Wanted(job: Job, rules: seq<PlacementRule>, key: Key) {
    exists r, i :: 0 <= r < |rules| && WantedBy(job, rules[r], i, key)
  }

  predicate WantedBy(job: Job, rule: PlacementRule, i: nat, key: Key) {
    Selects(rule, |job.songIds|, i) && key == rule.id + ":" + Decimal(i) + ":" + job.songIds[i]
  }

  /** Some action places a song in the item. */
  ghost predicate Claimed(bodies: seq<Body>, id: Id) {
    exists j :: 0 <= j < |bodies| && (bodies[j].Noop? || bodies[j].ReplaceItem?) && bodies[j].itemId == id
  }

  ghost predicate PlansDelete(bodies: seq<Body>, id: Id) {
    exists j :: 0 <= j < |bodies| && bodies[j].DeleteOwnedItem? && bodies[j].itemId == id
  }

  ghost predicate PlansRelease(bodies: seq<Body>, id: Id) {
    exists j :: 0 <= j < |bodies| && bodies[j].CleanupNoop? && bodies[j].itemId == id
  }

  /** The item is in the agenda and shows what the row recorded. */
  ghost predicate StillShows(job: Job, o: Ownership) {
    exists k :: 0 <= k < |job.items| && job.items[k].id == o.agendaItemId
                && o.songId.Some? && o.arrangementId.Some? && job.items[k].Shows(o.songId.value, o.arrangementId.value)
  }

  /** A row of the profile that is of no use any more. */
  ghost predicate Dropped(job: Job, rules: seq<PlacementRule>, o: Ownership)
    requires job.Valid()
  {
    && o in job.ownerships && o.profileId == job.profileId
    && !Wanted(job, rules, o.sourceKey) && !Claimed(Planned(job, rules), o.agendaItemId)
  }

  // The planner's sets, told without the planner.

  lemma KeysAreWanted(job: Job, rule: PlacementRule, key: Key)
    ensures key in KeysOf(rule, job.songIds, SliceStart(rule, |job.songIds|), SliceEnd(rule, |job.songIds|))
            <==> exists i :: WantedBy(job, rule, i, key)
  {
    var lo, hi := SliceStart(rule, |job.songIds|), SliceEnd(rule, |job.songIds|);
    forall i: nat ensures lo <= i < hi <==> Selects(rule, |job.songIds|, i) {
      RangeIsSelection(rule, |job.songIds|, i);
    }
    if key in KeysOf(rule, job.songIds, lo, hi) {
      var i :| lo <= i < hi && SourceKey(rule.id, i, job.songIds[i]) == key;
      assert WantedBy(job, rule, i, key);
    }
    if i: nat :| WantedBy(job, rule, i, key) {
      assert lo <= i < hi && SourceKey(rule.id, i, job.songIds[i]) == key;
    }
  }

  lemma WantedLonger(job: Job, rules: seq<PlacementRule>, rule: PlacementRule, key: Key)
    ensures Wanted(job, rules + [rule], key) <==> Wanted(job, rules, key) || exists i :: WantedBy(job, rule, i, key)
  {
    hide WantedBy;
    var all := rules + [rule];
    if Wanted(job, rules, key) {
      var r, i :| 0 <= r < |rules| && WantedBy(job, rules[r], i, key);
      assert all[r] == rules[r];
    }
    if i: nat :| WantedBy(job, rule, i, key) {
      assert WantedBy(job, all[|rules|], i, key);
    }
    if Wanted(job, all, key) {
      var r, i :| 0 <= r < |all| && WantedBy(job, all[r], i, key);
      assert r < |rules| ==> WantedBy(job, rules[r], i, key);
    }
  }

  lemma {:induction false} DesiredAreWanted(job: Job, rules: seq<PlacementRule>, key: Key)
    requires job.Valid() && !HasErrors(PlaceRules(job, rules).issues)
    ensures key in PlaceRules(job, rules).desired <==> Wanted(job, rules, key)
  {
    hide WantedBy, KeysOf;
    if rules != [] {
      var earlier, rule := rules[..|rules| - 1], rules[|rules| - 1];
      assert rules == earlier + [rule];
      RuleAdds(job, rule, PlaceRules(job, earlier));
      if HasErrors(PlaceRules(job, earlier).issues) {
        ErrorsStay(PlaceRules(job, earlier).issues, PlaceRules(job, rules).issues);
      }
      DesiredAreWanted(job, earlier, key);
      RuleDesires(job, rule, PlaceRules(job, earlier));
      KeysAreWanted(job, rule, key);
      WantedLonger(job, earlier, rule, key);
    }
  }

  lemma ReservedAreClaimed(job: Job, rules: seq<PlacementRule>, id: Id)
    requires Sound(job) && !HasErrors(Drafted(job, rules).issues)
    ensures id in PlaceRules(job, rules).reserved <==> Claimed(Planned(job, rules), id)
  {
    hide PlaceRules, Drafted, HasErrors, CleanupDraft, Surplus;
    DraftedIsCleaned(job, rules);
    var placed, all := PlaceRules(job, rules).drafts, Drafted(job, rules).drafts;
    var planned := Planned(job, rules);
    if id in PlaceRules(job, rules).reserved {
      RulesReserveClaimed(job, rules, id);
      var j :| 0 <= j < |placed| && ClaimsSlot(placed[j].body) && placed[j].body.itemId == id;
      assert planned[j] == placed[j].body;
    }
    if Claimed(planned, id) {
      var j :| 0 <= j < |planned| && (planned[j].Noop? || planned[j].ReplaceItem?) && planned[j].itemId == id;
      assert j < |placed| && Bodies(placed)[j] == planned[j];
    }
  }

  lemma SurplusIsDropped(job: Job, rules: seq<PlacementRule>, o: Ownership)
    requires Sound(job) && !HasErrors(Drafted(job, rules).issues) && o in job.ownerships
    ensures Surplus(job, o, PlaceRules(job, rules)) <==> Dropped(job, rules, o)
  {
    hide Wanted, Claimed, PlaceRules, Drafted;
    NoEarlierErrors(job, rules, |rules|);
    assert rules[..|rules|] == rules;
    DesiredAreWanted(job, rules, o.sourceKey);
    ReservedAreClaimed(job, rules, o.agendaItemId);
  }

  // The cleanup action of a row.

  /** Every surplus row gets its cleanup action. */
  lemma {:induction false} SurplusIsCleaned(job: Job, rows: seq<Ownership>, p: Planning, o: Ownership) returns (j: nat)
    requires o in rows && Surplus(job, o, p)
    ensures j < |CleanUpAll(job, rows, p).drafts| && CleanUpAll(job, rows, p).drafts[j].body == CleanupDraft(job, o).body
  {
    var earlier, last := rows[..|rows| - 1], rows[|rows| - 1];
    var p1 := CleanUpAll(job, earlier, p);
    CleanUpKeepsSets(job, earlier, p);
    if o == last {
      j := |p1.drafts|;
    } else {
      assert o in earlier;
      j := SurplusIsCleaned(job, earlier, p, o);
    }
  }

  lemma AuthorizedShows(job: Job, o: Ownership)
    requires job.Valid()
    ensures DeleteAuthorized(job, o) <==> StillShows(job, o)
  {
    if StillShows(job, o) {
      var k :| 0 <= k < |job.items| && job.items[k].id == o.agendaItemId
               && o.songId.Some? && o.arrangementId.Some? && job.items[k].Shows(o.songId.value, o.arrangementId.value);
      IndexIs(job.items, o.agendaItemId, k);
    }
  }

  lemma DroppedIsCleaned(job: Job, rules: seq<PlacementRule>, o: Ownership) returns (j: nat)
    requires Sound(job) && !HasErrors(Drafted(job, rules).issues) && Dropped(job, rules, o)
    ensures j < |Planned(job, rules)| && TidiesUp(Planned(job, rules)[j]) && Planned(job, rules)[j].itemId == o.agendaItemId
    ensures Planned(job, rules)[j].DeleteOwnedItem? <==> StillShows(job, o)
  {
    var rows := Sort(job.ownerships, OwnershipLeq);
    SortPermutes(job.ownerships, OwnershipLeq);
    assert o in multiset(rows);
    SurplusIsDropped(job, rules, o);
    j := SurplusIsCleaned(job, rows, PlaceRules(job, rules), o);
    assert Planned(job, rules)[j] == Drafted(job, rules).drafts[j].body;
    AuthorizedShows(job, o);
  }

  lemma OnlyCleanup(job: Job, rules: seq<PlacementRule>, o: Ownership, i: nat, j: nat)
    requires Sound(job) && i < |Planned(job, rules)| && j < |Planned(job, rules)|
    requires TargetOf(Planned(job, rules)[i]) == TargetOf(Planned(job, rules)[j]) != None
    ensures i == j
  {
    if i < j {
      TargetsAreDistinct(job, rules, i, j);
    } else if j < i {
      TargetsAreDistinct(job, rules, j, i);
    }
  }

  /** Every row that is of no use any more is cleaned up after, with a DELETE if and
      only if its item is in the agenda and still shows what the row recorded, and
      otherwise by giving up the row. */
  lemma DroppedIsDeletedExactly(job: Job, rules: seq<PlacementRule>, o: Ownership)
    requires Sound(job) && !HasErrors(Drafted(job, rules).issues) && Dropped(job, rules, o)
    ensures PlansDelete(Planned(job, rules), o.agendaItemId) <==> StillShows(job, o)
    ensures PlansRelease(Planned(job, rules), o.agendaItemId) <==> !StillShows(job, o)
  {
    var planned, id := Planned(job, rules), o.agendaItemId;
    var j := DroppedIsCleaned(job, rules, o);
    if PlansDelete(planned, id) {
      var i :| 0 <= i < |planned| && planned[i].DeleteOwnedItem? && planned[i].itemId == id;
      OnlyCleanup(job, rules, o, i, j);
    }
    if PlansRelease(planned, id) {
      var i :| 0 <= i < |planned| && planned[i].CleanupNoop? && planned[i].itemId == id;
      OnlyCleanup(job, rules, o, i, j);
    }
  }

  /** A plan deletes an item if and only if a row of the profile that is of no use any
      more is for it, and the item still shows what that row recorded. */
  lemma DeletesExactly(job: Job, rules: seq<PlacementRule>, id: Id)
    requires Sound(job) && !HasErrors(Drafted(job, rules).issues)
    ensures PlansDelete(Planned(job, rules), id)
            <==> exists o :: Dropped(job, rules, o) && o.agendaItemId == id && StillShows(job, o)
  {
    var planned := Planned(job, rules);
    if PlansDelete(planned, id) {
      var i :| 0 <= i < |planned| && planned[i].DeleteOwnedItem? && planned[i].itemId == id;
      DraftedIsCleaned(job, rules);
      var p0 := PlaceRules(job, rules);
      var o := CleanupOwner(job, job.ownerships, p0, Drafted(job, rules), i);
      SurplusIsDropped(job, rules, o);
      AuthorizedShows(job, o);
    }
    if o :| Dropped(job, rules, o) && o.agendaItemId == id && StillShows(job, o) {
      DroppedIsDeletedExactly(job, rules, o);
    }
  }

  // What becomes of the item and the row.

  lemma DeletedIsPlanned(job: Job, rules: seq<PlacementRule>, id: Id)
    requires job.Valid() && !HasErrors(Drafted(job, rules).issues)
    ensures Deleted(Drafted(job, rules).drafts, 0, id) <==> PlansDelete(Planned(job, rules), id)
    ensures Rewritten(Drafted(job, rules).drafts, 0, id) ==> Claimed(Planned(job, rules), id)
  {
    var drafts, planned := Drafted(job, rules).drafts, Planned(job, rules);
    assert forall j :: 0 <= j < |drafts| ==> planned[j] == drafts[j].body;
  }

  /** After the run the item of such a row is gone if it still showed what the row
      recorded; if somebody has changed it, it is left exactly as it was. */
  lemma DroppedItemGoes(job: Job, rules: seq<PlacementRule>, newIds: seq<Id>, s: Setting, o: Ownership)
    requires Executable(job, rules, newIds, s) && Dropped(job, rules, o)
    ensures StillShows(job, o) ==> Absent(Final(job, rules, newIds, s), o.agendaItemId)
    ensures !StillShows(job, o) ==>
              forall k :: 0 <= k < |job.items| && job.items[k].id == o.agendaItemId ==> job.items[k] in Final(job, rules, newIds, s)
  {
    hide Final, Drafted, Wanted, StillShows;
    var drafts := Drafted(job, rules).drafts;
    DroppedIsDeletedExactly(job, rules, o);
    DeletedIsPlanned(job, rules, o.agendaItemId);
    FinalIsAfter(job, rules, newIds, s);
    InsertNotDeleted(job, drafts, newIds, s, o.agendaItemId);
    FinalHoldsExactly(job, rules, newIds, s, o.agendaItemId);
    if !StillShows(job, o) {
      forall k | 0 <= k < |job.items| && job.items[k].id == o.agendaItemId ensures job.items[k] in Final(job, rules, newIds, s) {
        OthersAreUntouched(job, rules, newIds, s, k);
      }
    }
  }

  /** In both cases the profile's row for the item is gone. */
  lemma DroppedRowGoes(job: Job, rules: seq<PlacementRule>, newIds: seq<Id>, s: Setting, o: Ownership, row: Ownership)
    requires Executable(job, rules, newIds, s) && Unbound(newIds, job.ownerships) && Dropped(job, rules, o)
    requires |Drafted(job, rules).drafts| <= |newIds|
    requires RowsAfter(job, Drafted(job, rules).drafts, newIds, s).Some?
    requires row in RowsAfter(job, Drafted(job, rules).drafts, newIds, s).value
    ensures !(row.profileId == job.profileId && row.agendaItemId == o.agendaItemId)
  {
    var drafts, planned := Drafted(job, rules).drafts, Planned(job, rules);
    PlanIsClaimable(job, rules, newIds, s);
    RowsFromRun(job, drafts, newIds, s);
    var j := DroppedIsCleaned(job, rules, o);
    assert drafts[j].body == planned[j];
    assert Released(drafts, o.agendaItemId);
  }
}
