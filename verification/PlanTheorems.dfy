/** Theorems about every event plan: it can be performed, it leads to the agenda
    module Layout describes, and it touches only what it may touch. */
module PlanTheorems {
  import opened Prelude
  import opened Agendas
  import opened Actions
  import opened Layout
  import opened LayoutProofs
  import opened Sorting
  import opened Placements
  import opened PlanShape

  /** Keys of agenda items, which no song or arrangement key resembles. */
  predicate IsAgendaKey(key: Key) { "agenda:" <= key }

  lemma AgendaKeyShape(eventId: Id, sourceKey: Key)
    ensures IsAgendaKey(AgendaKey(eventId, sourceKey))
  {
    var key := AgendaKey(eventId, sourceKey);
    assert key == "agenda:" + (eventId + ":" + sourceKey);
    assert key[..7] == "agenda:";
  }

  /** What the callers of `_plan_placements` guarantee: agenda ids are distinct, each
      item has one binding, every song has a resource, and resource keys of songs
      are not agenda keys. */
  ghost predicate Sound(job: Job) {
    && job.Valid()
    && DistinctOwners(job.ownerships)
    && forall song :: song in job.resources.Values ==>
         && (song.songKey.Some? ==> !IsAgendaKey(song.songKey.value))
         && (song.arrangementKey.Some? ==> !IsAgendaKey(song.arrangementKey.value))
  }

  /** The actions `_plan_placements` returns, without their numbers. */
  function Planned(job: Job, rules: seq<PlacementRule>): seq<Body>
    requires forall i :: 0 <= i < |job.songIds| ==> job.songIds[i] in job.resources
  {
    if HasErrors(Drafted(job, rules).issues) then [] else Bodies(Drafted(job, rules).drafts)
  }

  lemma DraftedIsCleaned(job: Job, rules: seq<PlacementRule>)
    requires Sound(job)
    ensures Placed(job, PlaceRules(job, rules))
    ensures Cleaned(job, job.ownerships, PlaceRules(job, rules), Drafted(job, rules))
  {
    var rows := Sort(job.ownerships, OwnershipLeq);
    var p0, p := PlaceRules(job, rules), Drafted(job, rules);
    PlaceRulesKeep(job, rules);
    SortedStayDistinct(job.ownerships);
    CleanUpAllCleans(job, rows, p0);
    forall i | |p0.drafts| <= i < |p.drafts| ensures Cleans(job, job.ownerships, p0, p.drafts[i].body) {
      var o := CleanupOwner(job, rows, p0, p, i);
    }
  }

  /** The binding behind a cleanup action. */
  lemma CleanupOwner(job: Job, rows: seq<Ownership>, p0: Planning, p: Planning, i: nat) returns (o: Ownership)
    requires Cleaned(job, rows, p0, p) && |p0.drafts| <= i < |p.drafts|
    ensures o in rows && Surplus(job, o, p0) && p.drafts[i].body == CleanupDraft(job, o).body
  {
    assert Cleans(job, rows, p0, p.drafts[i].body);
    o :| o in rows && Surplus(job, o, p0) && p.drafts[i].body == CleanupDraft(job, o).body;
  }

  lemma CleanupRefers(job: Job, p0: Planning, p: Planning, n: nat)
    requires Placed(job, p0) && Cleaned(job, job.ownerships, p0, p)
    requires |p0.drafts| <= n < |p.drafts|
    ensures RefersToPresent(Bodies(p.drafts)[..n], Bodies(p.drafts)[n], job.items)
  {
    var bodies := Bodies(p.drafts);
    var o := CleanupOwner(job, job.ownerships, p0, p, n);
    if bodies[n].DeleteOwnedItem? {
      assert job.items[IndexOf(job.items, o.agendaItemId)].id == o.agendaItemId;
      forall j | 0 <= j < n ensures !Deletes(bodies[..n][j], o.agendaItemId) {
        if j < |p0.drafts| {
          assert bodies[j] == Bodies(p0.drafts)[j];
        }
      }
    }
  }

  /** Every plan refers only to items and keys that exist when it is their turn. */
  lemma PlansAreWellPlanned(job: Job, rules: seq<PlacementRule>)
    requires Sound(job)
    ensures WellPlanned(Bodies(Drafted(job, rules).drafts), job.items)
    ensures WellPlanned(Planned(job, rules), job.items)
  {
    DraftedIsCleaned(job, rules);
    var p0, p := PlaceRules(job, rules), Drafted(job, rules);
    var bodies, placed := Bodies(p.drafts), Bodies(p0.drafts);
    assert forall i :: 0 <= i < |placed| ==> bodies[i] == placed[i];
    forall n | 0 <= n < |bodies| ensures RefersToPresent(bodies[..n], bodies[n], job.items) {
      if n < |placed| {
        assert bodies[..n] == placed[..n];
        assert RefersToPresent(placed[..n], placed[n], job.items);
      } else {
        CleanupRefers(job, p0, p, n);
      }
    }
    DraftKeysApart(job, p0, p);
  }

  lemma DraftKeysApart(job: Job, p0: Planning, p: Planning)
    requires Sound(job) && Placed(job, p0) && Cleaned(job, job.ownerships, p0, p)
    ensures KeysApart(Bodies(p.drafts))
  {
    var bodies, placed := Bodies(p.drafts), Bodies(p0.drafts);
    assert forall i :: |placed| <= i < |bodies| ==> TidiesUp(bodies[i]);
    assert forall i :: 0 <= i < |placed| ==> bodies[i] == placed[i];
    forall i | 0 <= i < |bodies| && bodies[i].InsertItem? ensures IsAgendaKey(bodies[i].resourceKey) {
      AgendaKeyShape(job.eventId, placed[i].sourceKey);
    }
  }

  /** All songs resolve to an arrangement of the song they name. */
  ghost predicate Available(job: Job, s: Setting) {
    forall song :: song in job.resources.Values ==> Resolvable(song, s.resources, s.catalogue)
  }

  lemma PlansArePlaceable(job: Job, rules: seq<PlacementRule>, s: Setting)
    requires Sound(job) && Available(job, s)
    ensures Placeable(Bodies(Drafted(job, rules).drafts), s)
    ensures Placeable(Planned(job, rules), s)
  {
    DraftedIsCleaned(job, rules);
    var p0, p := PlaceRules(job, rules), Drafted(job, rules);
    var bodies, placed := Bodies(p.drafts), Bodies(p0.drafts);
    assert forall i :: |placed| <= i < |bodies| ==> TidiesUp(bodies[i]);
    assert forall i :: 0 <= i < |placed| ==> bodies[i] == placed[i];
  }

  /** Performing any plan succeeds at every step and leaves the described agenda. */
  lemma PlanIsRealized(job: Job, rules: seq<PlacementRule>, newIds: seq<Id>, s: Setting)
    requires Sound(job) && Available(job, s)
    requires |newIds| == |Planned(job, rules)| && Fresh(newIds, job.items)
    ensures Placeable(Planned(job, rules), s)
    ensures PerformAll(Planned(job, rules), Effect(job.items, s.resources), s.catalogue, newIds)
            == Some(Effect(Laid(Planned(job, rules), newIds, job.items, s),
                           ResourcesAfter(Planned(job, rules), newIds, s.resources)))
  {
    PlansAreWellPlanned(job, rules);
    PlansArePlaceable(job, rules, s);
    PerformAllIsLaid(Planned(job, rules), newIds, job.items, s);
  }

  // What a plan may touch.

  /** The existing item an action changes or claims. */
  function TargetOf(body: Body): Option<Id> {
    match body
    case ReplaceItem(_, _, _, _, itemId, _) => Some(itemId)
    case Noop(_, _, _, itemId, _) => Some(itemId)
    case CleanupNoop(_, _, itemId) => Some(itemId)
    case DeleteOwnedItem(_, _, itemId) => Some(itemId)
    case InsertItem(_, _, _, _, _, _, _) => None
    case CreateSong(_, _, _, _, _, _, _, _) => None
    case CreateArrangement(_, _, _, _) => None
  }

  /** No plan targets an existing item twice. */
  lemma TargetsAreDistinct(job: Job, rules: seq<PlacementRule>, i: nat, j: nat)
    requires Sound(job) && i < j < |Planned(job, rules)|
    requires TargetOf(Planned(job, rules)[i]).Some?
    ensures TargetOf(Planned(job, rules)[i]) != TargetOf(Planned(job, rules)[j])
  {
    DraftedIsCleaned(job, rules);
    var p0, p := PlaceRules(job, rules), Drafted(job, rules);
    var bodies, placed := Bodies(p.drafts), Bodies(p0.drafts);
    if j < |placed| {
      assert bodies[i] == placed[i] && bodies[j] == placed[j];
    } else {
      var o := CleanupOwner(job, job.ownerships, p0, p, j);
      if i < |placed| {
        assert bodies[i] == placed[i];
        assert ClaimsSlot(placed[i]);
      }
    }
  }

  lemma {:induction false} OwnerIs(rows: seq<Ownership>, row: Ownership)
    requires DistinctOwners(rows) && row in rows
    ensures OwnershipOf(rows, row.agendaItemId) == Some(row)
  {
    var n := |rows| - 1;
    if rows[n] != row {
      var k :| 0 <= k < |rows| && rows[k] == row;
      assert rows[..n][k] == row;
      OwnerIs(rows[..n], row);
    }
  }

  /** No plan targets an item that another profile manages. */
  lemma TargetsAreNotForeign(job: Job, rules: seq<PlacementRule>, i: nat)
    requires Sound(job) && i < |Planned(job, rules)| && TargetOf(Planned(job, rules)[i]).Some?
    ensures !OwnedByOther(job, TargetOf(Planned(job, rules)[i]).value)
  {
    DraftedIsCleaned(job, rules);
    var p0, p := PlaceRules(job, rules), Drafted(job, rules);
    var bodies, placed := Bodies(p.drafts), Bodies(p0.drafts);
    if i < |placed| {
      assert bodies[i] == placed[i];
    } else {
      var o := CleanupOwner(job, job.ownerships, p0, p, i);
      OwnerIs(job.ownerships, o);
    }
  }

  /** A DELETE is planned only for an item bound to the planning profile that still
      shows exactly the song and arrangement the binding recorded. */
  lemma DeletesAreAuthorized(job: Job, rules: seq<PlacementRule>, i: nat)
    requires Sound(job) && i < |Planned(job, rules)| && Planned(job, rules)[i].DeleteOwnedItem?
    ensures exists o, k :: o in job.ownerships && 0 <= k < |job.items|
              && o.profileId == job.profileId && o.agendaItemId == Planned(job, rules)[i].itemId
              && job.items[k].id == o.agendaItemId
              && o.songId.Some? && o.arrangementId.Some?
              && job.items[k].Shows(o.songId.value, o.arrangementId.value)
  {
    DraftedIsCleaned(job, rules);
    var p0, p := PlaceRules(job, rules), Drafted(job, rules);
    var bodies, placed := Bodies(p.drafts), Bodies(p0.drafts);
    assert forall j :: 0 <= j < |placed| ==> bodies[j] == placed[j];
    var o := CleanupOwner(job, job.ownerships, p0, p, i);
    var k := IndexOf(job.items, o.agendaItemId);
    assert job.items[k].Shows(o.songId.value, o.arrangementId.value);
  }
}
