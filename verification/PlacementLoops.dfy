/** The loops of planner.py: _ActionFactory and _plan_placements, proved to compute
    the fold of module Placements. */
module PlacementLoops {
  import opened Prelude
  import opened Agendas
  import opened Actions
  import opened Sorting
  import opened Placements

  datatype PlannedAction = PlannedAction(
    ordinal: nat, body: Body, eventPlanId: Option<Id>, dependencies: seq<Key>)

  function Numbering(draft: Draft, ordinal: nat, eventPlanId: Option<Id>): PlannedAction {
    PlannedAction(ordinal, draft.body, eventPlanId, draft.dependencies)
  }

  /** Drafts as the factory numbers them, starting at `first`. */
  function Numbered(drafts: seq<Draft>, first: nat, eventPlanId: Option<Id>): (actions: seq<PlannedAction>)
    ensures |actions| == |drafts|
  {
    var n := |drafts|;
    if n == 0 then []
    else Numbered(drafts[..n - 1], first, eventPlanId) + [Numbering(drafts[n - 1], first + n - 1, eventPlanId)]
  }

  class ActionFactory {
    var ordinal: nat

    constructor ()
      ensures ordinal == 0
    {
      ordinal := 0;
    }

    method Make(draft: Draft, eventPlanId: Option<Id>) returns (action: PlannedAction)
      modifies this
      ensures action == Numbering(draft, old(ordinal), eventPlanId)
      ensures ordinal == old(ordinal) + 1
    {
      action := PlannedAction(ordinal, draft.body, eventPlanId, draft.dependencies);
      ordinal := ordinal + 1;
    }
  }

  lemma NumberedAppend(drafts: seq<Draft>, draft: Draft, first: nat, eventPlanId: Option<Id>)
    ensures Numbered(drafts + [draft], first, eventPlanId)
            == Numbered(drafts, first, eventPlanId) + [Numbering(draft, first + |drafts|, eventPlanId)]
  {
    assert (drafts + [draft])[..|drafts|] == drafts;
  }

  lemma {:induction false} NumberedAt(drafts: seq<Draft>, first: nat, eventPlanId: Option<Id>, i: nat)
    requires i < |drafts|
    ensures Numbered(drafts, first, eventPlanId)[i] == Numbering(drafts[i], first + i, eventPlanId)
  {
    if i < |drafts| - 1 {
      NumberedAt(drafts[..|drafts| - 1], first, eventPlanId, i);
    }
  }

  /** The loop that moves the cursor past slots claimed earlier. */
  method AdvancePastReserved(items: Agenda, start: nat, reserved: set<Id>) returns (cursor: nat)
    ensures cursor == SkipReserved(items, start, reserved)
  {
    cursor := start;
    while cursor < |items| && items[cursor].id in reserved
      invariant SkipReserved(items, start, reserved) == SkipReserved(items, cursor, reserved)
      decreases |items| - cursor
    {
      cursor := cursor + 1;
    }
  }

  /** The accumulators of the loops are those of `p`, and the factory has numbered
      p's drafts from `first` on. */
  ghost predicate Tracks(p: Planning, actions: seq<PlannedAction>, issues: seq<Issue>, reserved: set<Id>,
                         desired: set<Key>, ordinal: nat, first: nat, eventPlanId: Id)
  {
    && p.issues == issues && p.reserved == reserved && p.desired == desired
    && actions == Numbered(p.drafts, first, Some(eventPlanId))
    && ordinal == first + |p.drafts|
  }

  /** The body of the song loop: one song claims the slot under the cursor, is
      refused because another profile holds it, or is inserted. */
  method PlanSong(job: Job, rule: PlacementRule, i: nat, cursor0: nat, lastId0: Option<Id>, lastKey0: Option<Key>,
                  actions0: seq<PlannedAction>, issues0: seq<Issue>, reserved0: set<Id>, desired0: set<Key>,
                  eventPlanId: Id, factory: ActionFactory, ghost p0: Planning, ghost first: nat)
    returns (proceed: bool, cursor: nat, lastId: Option<Id>, lastKey: Option<Key>,
             actions: seq<PlannedAction>, issues: seq<Issue>, reserved: set<Id>, desired: set<Key>, ghost p: Planning)
    requires job.Valid() && i < |job.songIds|
    requires Tracks(p0, actions0, issues0, reserved0, desired0, factory.ordinal, first, eventPlanId)
    modifies factory
    ensures Tracks(p, actions, issues, reserved, desired, factory.ordinal, first, eventPlanId)
    ensures PlaceSong(job, rule, i, p0, Cursor(cursor0, lastId0, lastKey0, false))
            == (p, Cursor(cursor, lastId, lastKey, !proceed))
    ensures p.used == p0.used
  {
    hide PlaceSong, SlotDraft, InsertDraft, Numbered, SourceKey, AgendaKey, OwnershipOf, OwnedByOther;
    ghost var c0 := Cursor(cursor0, lastId0, lastKey0, false);
    p := PlaceSong(job, rule, i, p0, c0).0;
    lastId, lastKey, reserved, actions, issues := lastId0, lastKey0, reserved0, actions0, issues0;
    var songId := job.songIds[i];
    var song := job.resources[songId];
    var key := SourceKey(rule.id, i, songId);
    desired := desired0 + {key};
    cursor := AdvancePastReserved(job.items, cursor0, reserved);
    var draft: Draft;
    if cursor < |job.items| && job.items[cursor].IsSong() {
      var current := job.items[cursor];
      if OwnedByOther(job, current.id) {
        SlotRefused(job, rule, i, p0, c0);
        issues := issues + [AgendaItemOwnedByOtherProfile(current.id)];
        proceed := false;
        return;
      }
      SlotClaimed(job, rule, i, p0, c0);
      reserved := reserved + {current.id};
      draft := SlotDraft(job, rule, key, song, current);
      lastId, lastKey := Some(current.id), None;
      cursor := cursor + 1;
    } else {
      SongInserted(job, rule, i, p0, c0);
      draft := InsertDraft(job, rule, key, song, cursor, lastId, lastKey);
      lastId, lastKey := None, Some(AgendaKey(job.eventId, key));
    }
    proceed := true;
    var action := factory.Make(draft, Some(eventPlanId));
    NumberedAppend(p0.drafts, draft, first, Some(eventPlanId));
    actions := actions + [action];
  }

  /** The song loop of one placement.  The accumulators go in and come out. */
  method PlanSongs(job: Job, rule: PlacementRule, anchor: nat, eventPlanId: Id, factory: ActionFactory,
                   actions0: seq<PlannedAction>, issues0: seq<Issue>, reserved0: set<Id>, desired0: set<Key>,
                   ghost p0: Planning, ghost first: nat)
    returns (actions: seq<PlannedAction>, issues: seq<Issue>, reserved: set<Id>, desired: set<Key>, ghost p: Planning)
    requires job.Valid() && anchor < |job.items|
    requires Tracks(p0, actions0, issues0, reserved0, desired0, factory.ordinal, first, eventPlanId)
    modifies factory
    ensures p == PlaceSongs(job, rule, SliceStart(rule, |job.songIds|), SliceEnd(rule, |job.songIds|), p0,
                            StartCursor(rule, job.items, anchor)).0
    ensures Tracks(p, actions, issues, reserved, desired, factory.ordinal, first, eventPlanId)
    ensures p.used == p0.used
  {
    hide Numbered, PlaceSong, SliceStart, SliceEnd, SkipReserved;
    actions, issues, reserved, desired, p := actions0, issues0, reserved0, desired0, p0;
    var lo, hi := SliceStart(rule, |job.songIds|), SliceEnd(rule, |job.songIds|);
    ghost var c0 := StartCursor(rule, job.items, anchor);
    var cursor: nat := if rule.relation == AFTER then anchor + 1 else anchor;
    var lastId := if cursor > 0 then Some(job.items[cursor - 1].id) else None;
    var lastKey: Option<Key> := None;
    for i := lo to hi
      invariant (p, Cursor(cursor, lastId, lastKey, false)) == PlaceSongs(job, rule, lo, i, p0, c0)
      invariant Tracks(p, actions, issues, reserved, desired, factory.ordinal, first, eventPlanId)
      invariant p.used == p0.used
    {
      PlaceSongsStep(job, rule, lo, i, p0, c0);
      var proceed;
      proceed, cursor, lastId, lastKey, actions, issues, reserved, desired, p :=
        PlanSong(job, rule, i, cursor, lastId, lastKey, actions, issues, reserved, desired, eventPlanId, factory, p, first);
      if !proceed {
        BlockedStays(job, rule, lo, i + 1, hi, p0, c0);
        break;
      }
    }
  }

  lemma PlaceSongsStep(job: Job, rule: PlacementRule, lo: nat, i: nat, p: Planning, c: Cursor)
    requires job.Valid() && lo <= i < |job.songIds|
    ensures var (p', c') := PlaceSongs(job, rule, lo, i, p, c);
            PlaceSongs(job, rule, lo, i + 1, p, c) == PlaceSong(job, rule, i, p', c')
  {
  }

  /** The cleanup loop: bindings of this profile that no placement wants any more. */
  method PlanCleanup(job: Job, eventPlanId: Id, factory: ActionFactory, actions0: seq<PlannedAction>,
                     issues0: seq<Issue>, reserved: set<Id>, desired: set<Key>, ghost p0: Planning, ghost first: nat)
    returns (actions: seq<PlannedAction>, issues: seq<Issue>, ghost p: Planning)
    requires Tracks(p0, actions0, issues0, reserved, desired, factory.ordinal, first, eventPlanId)
    modifies factory
    ensures p == CleanUpAll(job, Sort(job.ownerships, OwnershipLeq), p0)
    ensures Tracks(p, actions, issues, reserved, desired, factory.ordinal, first, eventPlanId)
  {
    hide Numbered, CleanupDraft, Sort, OwnershipLeq, StringLeq, IndexOf;
    actions, issues, p := actions0, issues0, p0;
    var rows := Sort(job.ownerships, OwnershipLeq);
    for o := 0 to |rows|
      invariant p == CleanUpAll(job, rows[..o], p0)
      invariant Tracks(p, actions, issues, reserved, desired, factory.ordinal, first, eventPlanId)
    {
      var row := rows[o];
      assert rows[..o + 1][..o] == rows[..o];
      ghost var before := p;
      p := CleanUp(job, row, p);
      if row.profileId != job.profileId || row.sourceKey in desired || row.agendaItemId in reserved {
        continue;
      }
      var k := IndexOf(job.items, row.agendaItemId);
      if k < |job.items| && !FingerprintMatches(row, job.items[k]) {
        issues := issues + [OwnedAgendaItemChanged(row.agendaItemId)];
      }
      var draft := CleanupDraft(job, row);
      var action := factory.Make(draft, Some(eventPlanId));
      NumberedAppend(before.drafts, draft, first, Some(eventPlanId));
      actions := actions + [action];
    }
    assert rows[..|rows|] == rows;
  }

  /** `_plan_placements`: the actions and issues of one event.  An error anywhere
      leaves no action, though the factory has moved on. */
  method PlanPlacements(job: Job, rules: seq<PlacementRule>, eventPlanId: Id, factory: ActionFactory)
    returns (actions: seq<PlannedAction>, issues: seq<Issue>)
    requires job.Valid()
    modifies factory
    ensures issues == Drafted(job, rules).issues
    ensures actions == if HasErrors(issues) then []
                       else Numbered(Drafted(job, rules).drafts, old(factory.ordinal), Some(eventPlanId))
    ensures factory.ordinal == old(factory.ordinal) + |Drafted(job, rules).drafts|
  {
    actions, issues := [], [];
    var used: set<nat>, reserved: set<Id>, desired: set<Key> := {}, {}, {};
    ghost var p := Planning([], [], {}, {}, {});
    ghost var first := factory.ordinal;
    var n := |job.songIds|;
    for r := 0 to |rules|
      invariant p == PlaceRules(job, rules[..r])
      invariant p.used == used
      invariant Tracks(p, actions, issues, reserved, desired, factory.ordinal, first, eventPlanId)
    {
      var rule := rules[r];
      assert rules[..r + 1][..r] == rules[..r];
      ghost var before := p;
      p := PlaceRule(job, rule, p);
      var indexes := Indexes(rule, n);
      if used * indexes != {} {
        issues := issues + [PlacementOverlap(rule.id, used * indexes)];
        continue;
      }
      used := used + indexes;
      var anchors := Matching(rule.anchor, job.items, job.normalize);
      if anchors == [] {
        issues := issues + [AnchorNotFound(rule.id)];
        continue;
      }
      if |anchors| > 1 && rule.policy == FAIL {
        issues := issues + [AnchorNotUnique(rule.id, Ids(anchors))];
        continue;
      }
      if |anchors| > 1 {
        issues := issues + [AnchorMultipleFirstSelected(rule.id, Ids(anchors), anchors[0].id)];
      }
      var anchor := AnchorIndex(job.items, anchors);
      AnchorFound(rule.anchor, job.items, job.normalize);
      actions, issues, reserved, desired, p :=
        PlanSongs(job, rule, anchor, eventPlanId, factory, actions, issues, reserved, desired,
                  before.(used := used, issues := issues), first);
    }
    assert rules[..|rules|] == rules;
    actions, issues, p :=
      PlanCleanup(job, eventPlanId, factory, actions, issues, reserved, desired, p, first);
    if exists i :: 0 <= i < |issues| && issues[i].IsError() {
      actions := [];
    }
  }

  lemma SlotRefused(job: Job, rule: PlacementRule, i: nat, p: Planning, c: Cursor)
    requires i < |job.songIds| && job.songIds[i] in job.resources && !c.blocked
    requires var at := SkipReserved(job.items, c.at, p.reserved);
             at < |job.items| && job.items[at].IsSong() && OwnedByOther(job, job.items[at].id)
    ensures var at := SkipReserved(job.items, c.at, p.reserved);
            var key := SourceKey(rule.id, i, job.songIds[i]);
            PlaceSong(job, rule, i, p, c)
            == (Planning(p.drafts, p.issues + [AgendaItemOwnedByOtherProfile(job.items[at].id)], p.used,
                         p.reserved, p.desired + {key}),
                Cursor(at, c.lastId, c.lastKey, true))
  {
  }

  lemma SlotClaimed(job: Job, rule: PlacementRule, i: nat, p: Planning, c: Cursor)
    requires i < |job.songIds| && job.songIds[i] in job.resources && !c.blocked
    requires var at := SkipReserved(job.items, c.at, p.reserved);
             at < |job.items| && job.items[at].IsSong() && !OwnedByOther(job, job.items[at].id)
    ensures var at := SkipReserved(job.items, c.at, p.reserved);
            var item := job.items[at];
            var key := SourceKey(rule.id, i, job.songIds[i]);
            PlaceSong(job, rule, i, p, c)
            == (Planning(p.drafts + [SlotDraft(job, rule, key, job.resources[job.songIds[i]], item)], p.issues, p.used,
                         p.reserved + {item.id}, p.desired + {key}),
                Cursor(at + 1, Some(item.id), None, false))
  {
  }

  lemma SongInserted(job: Job, rule: PlacementRule, i: nat, p: Planning, c: Cursor)
    requires i < |job.songIds| && job.songIds[i] in job.resources && !c.blocked
    requires var at := SkipReserved(job.items, c.at, p.reserved);
             !(at < |job.items| && job.items[at].IsSong())
    ensures var at := SkipReserved(job.items, c.at, p.reserved);
            var key := SourceKey(rule.id, i, job.songIds[i]);
            PlaceSong(job, rule, i, p, c)
            == (Planning(p.drafts + [InsertDraft(job, rule, key, job.resources[job.songIds[i]], at, c.lastId, c.lastKey)],
                         p.issues, p.used, p.reserved, p.desired + {key}),
                Cursor(at, None, Some(AgendaKey(job.eventId, key)), false))
  {
  }

  /** After a foreign slot the rest of the placement is skipped. */
  lemma {:induction false} BlockedStays(job: Job, rule: PlacementRule, lo: nat, k: nat, hi: nat, p: Planning, c: Cursor)
    requires lo <= k <= hi <= |job.songIds|
    requires forall i :: 0 <= i < |job.songIds| ==> job.songIds[i] in job.resources
    requires PlaceSongs(job, rule, lo, k, p, c).1.blocked
    ensures PlaceSongs(job, rule, lo, hi, p, c) == PlaceSongs(job, rule, lo, k, p, c)
  {
    if k < hi {
      BlockedStays(job, rule, lo, k, hi - 1, p, c);
    }
  }
}
