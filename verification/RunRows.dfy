/** The ownership rows that a run leaves, seen from the plan it carried out. */
module RunRows {
  import opened Prelude
  import opened Agendas
  import opened Actions
  import opened Layout
  import opened Placements
  import opened PlanShape
  import opened PlanTheorems
  import opened Setlist
  import opened Window
  import opened Bindings

  ghost function VerifiedDraft(job: Job, draft: Draft, newId: Id, s: Setting): Verified {
    Verified(job.profileId, draft.body,
             if draft.body.InsertItem? then newId else if TargetOf(draft.body).Some? then TargetOf(draft.body).value else "",
             if draft.body.PlacesSong() then SongOf(draft.body.song, s.resources) else None,
             if draft.body.PlacesSong() then ArrangementOf(draft.body.song, s.resources) else None)
  }

  ghost function RowsAfter(job: Job, drafts: seq<Draft>, newIds: seq<Id>, s: Setting): Option<seq<Ownership>>
    requires |drafts| <= |newIds|
  {
    if drafts == [] then Some(job.ownerships)
    else
      var k := |drafts| - 1;
      var before := RowsAfter(job, drafts[..k], newIds, s);
      if before.None? then None else Follow(before.value, VerifiedDraft(job, drafts[k], newIds[k], s))
  }

  /** Provider ids are also new to the ownership rows. */
  ghost predicate Unbound(newIds: seq<Id>, rows: seq<Ownership>) {
    forall j, o :: 0 <= j < |newIds| && o in rows ==> o.agendaItemId != newIds[j]
  }

  ghost predicate PlacedAt(drafts: seq<Draft>, newIds: seq<Id>, id: Id)
    requires |drafts| <= |newIds|
  {
    exists j :: 0 <= j < |drafts| && drafts[j].body.PlacesSong() && TargetIds(drafts, newIds)[j] == id
  }

  ghost predicate Released(drafts: seq<Draft>, id: Id) {
    exists j :: 0 <= j < |drafts| && TidiesUp(drafts[j].body) && drafts[j].body.itemId == id
  }

  /** Every draft's target is free for the planning profile. */
  ghost predicate Claimable(job: Job, drafts: seq<Draft>, newIds: seq<Id>)
    requires |drafts| <= |newIds|
  {
    && Unbound(newIds, job.ownerships)
    && forall j, o :: 0 <= j < |drafts| && ClaimsSlot(drafts[j].body) && o in job.ownerships ==>
         (o.agendaItemId == drafts[j].body.itemId ==> o.profileId == job.profileId)
  }

  /** Each row left by the run is an old row that was not released, or belongs to the
      profile and is for an item that shows one of its songs. */
  ghost predicate FromRun(job: Job, drafts: seq<Draft>, newIds: seq<Id>, o: Ownership)
    requires |drafts| <= |newIds|
  {
    || (o in job.ownerships && !(o.profileId == job.profileId && Released(drafts, o.agendaItemId)))
    || (o.profileId == job.profileId && PlacedAt(drafts, newIds, o.agendaItemId))
  }

  lemma FromRunStays(job: Job, drafts: seq<Draft>, draft: Draft, newIds: seq<Id>, o: Ownership)
    requires |drafts| < |newIds| && FromRun(job, drafts, newIds, o)
    requires TidiesUp(draft.body) ==> !(o.profileId == job.profileId && o.agendaItemId == draft.body.itemId)
    ensures FromRun(job, drafts + [draft], newIds, o)
  {
    var all := drafts + [draft];
    if PlacedAt(drafts, newIds, o.agendaItemId) {
      var j :| 0 <= j < |drafts| && drafts[j].body.PlacesSong() && TargetIds(drafts, newIds)[j] == o.agendaItemId;
      assert all[j].body.PlacesSong() && TargetIds(all, newIds)[j] == o.agendaItemId;
    }
    if Released(all, o.agendaItemId) {
      var j :| 0 <= j < |all| && TidiesUp(all[j].body) && all[j].body.itemId == o.agendaItemId;
      if j < |drafts| {
        assert TidiesUp(drafts[j].body);
      }
    }
  }

  lemma PlacedAtLast(drafts: seq<Draft>, draft: Draft, newIds: seq<Id>)
    requires |drafts| < |newIds| && draft.body.PlacesSong()
    ensures PlacedAt(drafts + [draft], newIds, if ClaimsSlot(draft.body) then draft.body.itemId else newIds[|drafts|])
  {
    var all := drafts + [draft];
    assert all[|drafts|].body.PlacesSong() && TargetIds(all, newIds)[|drafts|]
           == if ClaimsSlot(draft.body) then draft.body.itemId else newIds[|drafts|];
  }

  /** No binding of the run is refused, and its rows are as described. */
  lemma {:induction false} RowsFromRun(job: Job, drafts: seq<Draft>, newIds: seq<Id>, s: Setting)
    requires |drafts| <= |newIds| && Claimable(job, drafts, newIds)
    requires forall j :: 0 <= j < |drafts| ==> drafts[j].body.PlacesSong() || TidiesUp(drafts[j].body)
    ensures RowsAfter(job, drafts, newIds, s).Some?
    ensures forall o :: o in RowsAfter(job, drafts, newIds, s).value ==> FromRun(job, drafts, newIds, o)
  {
    if drafts != [] {
      var k := |drafts| - 1;
      var shorter, draft := drafts[..k], drafts[k];
      assert drafts == shorter + [draft];
      RowsFromRun(job, shorter, newIds, s);
      RowStep(job, shorter, draft, newIds, s, RowsAfter(job, shorter, newIds, s).value);
    }
  }

  lemma RowStep(job: Job, drafts: seq<Draft>, draft: Draft, newIds: seq<Id>, s: Setting, rows: seq<Ownership>)
    requires |drafts| < |newIds| && Claimable(job, drafts + [draft], newIds)
    requires draft.body.PlacesSong() || TidiesUp(draft.body)
    requires forall o :: o in rows ==> FromRun(job, drafts, newIds, o)
    ensures var after := Follow(rows, VerifiedDraft(job, draft, newIds[|drafts|], s));
            after.Some? && forall o :: o in after.value ==> FromRun(job, drafts + [draft], newIds, o)
  {
    var v := VerifiedDraft(job, draft, newIds[|drafts|], s);
    var all := drafts + [draft];
    assert all[|drafts|] == draft;
    if v.Binds() {
      var k := RowOf(rows, v.itemId);
      PlacedAtLast(drafts, draft, newIds);
      if k < |rows| {
        TargetIsOwn(job, drafts, draft, newIds, rows[k]);
      }
    }
    var after := Follow(rows, v).value;
    forall o | o in after ensures FromRun(job, all, newIds, o) {
      if v.Releases() {
        FilterMember(rows, (q: Ownership) => !(q.profileId == v.profileId && q.agendaItemId == v.body.itemId), o);
        FromRunStays(job, drafts, draft, newIds, o);
      } else if o in rows {
        FromRunStays(job, drafts, draft, newIds, o);
      }
    }
  }

  /** A row for the item of a song action belongs to the planning profile. */
  lemma TargetIsOwn(job: Job, drafts: seq<Draft>, draft: Draft, newIds: seq<Id>, o: Ownership)
    requires |drafts| < |newIds| && Claimable(job, drafts + [draft], newIds)
    requires draft.body.PlacesSong() && FromRun(job, drafts, newIds, o)
    requires o.agendaItemId == if ClaimsSlot(draft.body) then draft.body.itemId else newIds[|drafts|]
    ensures o.profileId == job.profileId
  {
    assert (drafts + [draft])[|drafts|] == draft;
  }

  lemma {:induction false} OwnershipIsRow(rows: seq<Ownership>, itemId: Id)
    ensures OwnershipOf(rows, itemId).Some? ==>
              OwnershipOf(rows, itemId).value in rows && OwnershipOf(rows, itemId).value.agendaItemId == itemId
  {
    if rows != [] && rows[|rows| - 1].agendaItemId != itemId {
      OwnershipIsRow(rows[..|rows| - 1], itemId);
    }
  }

  /** The targets of the first plan are free for the profile. */
  lemma PlanIsClaimable(job: Job, rules: seq<PlacementRule>, newIds: seq<Id>, s: Setting)
    requires Executable(job, rules, newIds, s) && Unbound(newIds, job.ownerships)
    ensures |Drafted(job, rules).drafts| <= |newIds| && Claimable(job, Drafted(job, rules).drafts, newIds)
    ensures forall j :: 0 <= j < |Drafted(job, rules).drafts| ==>
              Drafted(job, rules).drafts[j].body.PlacesSong() || TidiesUp(Drafted(job, rules).drafts[j].body)
  {
    var all, placed := Drafted(job, rules).drafts, PlaceRules(job, rules).drafts;
    DraftedIsCleaned(job, rules);
    forall j | 0 <= j < |all| ensures all[j].body.PlacesSong() || TidiesUp(all[j].body) {
      if j < |placed| {
        assert Bodies(placed)[j] == all[j].body;
      }
    }
    forall j, o | 0 <= j < |all| && ClaimsSlot(all[j].body) && o in job.ownerships && o.agendaItemId == all[j].body.itemId
      ensures o.profileId == job.profileId
    {
      assert Planned(job, rules)[j] == all[j].body;
      TargetsAreNotForeign(job, rules, j);
      OwnerIs(job.ownerships, o);
    }
  }

  lemma PlacedIsTarget(placed: seq<Draft>, all: seq<Draft>, newIds: seq<Id>, id: Id) returns (j: nat)
    requires placed <= all && |all| <= |newIds| && PlacedAt(all, newIds, id)
    requires forall i :: |placed| <= i < |all| ==> TidiesUp(all[i].body)
    ensures j < |placed| && TargetIds(placed, newIds)[j] == id
  {
    j :| 0 <= j < |all| && all[j].body.PlacesSong() && TargetIds(all, newIds)[j] == id;
    assert j < |placed| && all[j] == placed[j];
  }
}
