/** What the plan of one event looks like: every action refers to things that exist
    when it is its turn, slots are claimed once, and deletes are authorized. */
module PlanShape {
  import opened Prelude
  import opened Agendas
  import opened Actions
  import opened Layout
  import opened LayoutProofs
  import opened Sorting
  import opened Placements

  ghost predicate InAgenda(items: Agenda, id: Id) {
    exists i :: 0 <= i < |items| && items[i].id == id
  }

  ghost predicate WellReferred(bodies: seq<Body>, items: Agenda) {
    forall n :: 0 <= n < |bodies| ==> RefersToPresent(bodies[..n], bodies[n], items)
  }

  lemma WellReferredAppend(bodies: seq<Body>, body: Body, items: Agenda)
    requires WellReferred(bodies, items) && RefersToPresent(bodies, body, items)
    ensures WellReferred(bodies + [body], items)
  {
    var all := bodies + [body];
    forall n | 0 <= n < |all| ensures RefersToPresent(all[..n], all[n], items) {
      if n < |bodies| {
        assert all[..n] == bodies[..n];
        assert RefersToPresent(bodies[..n], bodies[n], items);
      } else {
        assert all[..n] == bodies;
      }
    }
  }

  lemma BodiesAppend(drafts: seq<Draft>, draft: Draft)
    ensures Bodies(drafts + [draft]) == Bodies(drafts) + [draft.body]
  {
  }

  /** The items a slot action (NOOP or REPLACE) claims. */
  predicate ClaimsSlot(body: Body) { body.ReplaceItem? || body.Noop? }

  /** What holds of the drafts while placements are planned. */
  ghost predicate Placed(job: Job, p: Planning) {
    var bodies := Bodies(p.drafts);
    && WellReferred(bodies, job.items)
    && (forall i :: 0 <= i < |bodies| ==> bodies[i].PlacesSong())
    && (forall i :: 0 <= i < |bodies| ==> bodies[i].song in job.resources.Values)
    && (forall i :: 0 <= i < |bodies| && bodies[i].InsertItem? ==>
          bodies[i].resourceKey == AgendaKey(job.eventId, bodies[i].sourceKey))
    && (forall i :: 0 <= i < |bodies| && ClaimsSlot(bodies[i]) ==>
          bodies[i].itemId in p.reserved && !OwnedByOther(job, bodies[i].itemId))
    && (forall i, j :: 0 <= i < j < |bodies| && ClaimsSlot(bodies[i]) && ClaimsSlot(bodies[j]) ==>
          bodies[i].itemId != bodies[j].itemId)
    && (forall i :: 0 <= i < |job.items| && job.items[i].id in p.reserved ==> job.items[i].IsSong())
  }

  /** What holds of the cursor inside one placement. */
  ghost predicate Steady(job: Job, p: Planning, c: Cursor) {
    && c.at <= |job.items|
    && (c.lastId.Some? ==> InAgenda(job.items, c.lastId.value))
    && (c.lastKey.Some? ==>
          && p.drafts != []
          && p.drafts[|p.drafts| - 1].body.InsertItem?
          && p.drafts[|p.drafts| - 1].body.resourceKey == c.lastKey.value
          && (c.at < |job.items| ==> !job.items[c.at].IsSong() && job.items[c.at].id !in p.reserved)
          && (c.at == |job.items| ==> LatestChain(Bodies(p.drafts)) != NoChain))
  }

  lemma NoDeletes(bodies: seq<Body>, items: Agenda, id: Id)
    requires forall i :: 0 <= i < |bodies| ==> bodies[i].PlacesSong()
    requires InAgenda(items, id)
    ensures Present(bodies, items, id)
  {
  }

  lemma SlotKeepsPlaced(job: Job, rule: PlacementRule, key: Key, song: SongRef, at: nat, p: Planning)
    requires job.Valid() && Placed(job, p) && song in job.resources.Values
    requires at < |job.items| && job.items[at].IsSong() && job.items[at].id !in p.reserved
    requires !OwnedByOther(job, job.items[at].id)
    ensures var item := job.items[at];
            Placed(job, p.(drafts := p.drafts + [SlotDraft(job, rule, key, song, item)],
                           reserved := p.reserved + {item.id}, desired := p.desired + {key}))
  {
    var item := job.items[at];
    var draft := SlotDraft(job, rule, key, song, item);
    BodiesAppend(p.drafts, draft);
    NoDeletes(Bodies(p.drafts), job.items, item.id);
    WellReferredAppend(Bodies(p.drafts), draft.body, job.items);
    forall i | 0 <= i < |job.items| && job.items[i].id in p.reserved + {item.id} ensures job.items[i].IsSong() {
      if job.items[i].id == item.id {
        assert i == at;
      }
    }
  }

  lemma CursorStays(job: Job, p: Planning, c: Cursor)
    requires Steady(job, p, c) && c.lastKey.Some?
    ensures SkipReserved(job.items, c.at, p.reserved) == c.at
  {
  }

  lemma InsertRefers(job: Job, rule: PlacementRule, key: Key, song: SongRef, at: nat, p: Planning, c: Cursor)
    requires Placed(job, p) && Steady(job, p, c)
    requires at == SkipReserved(job.items, c.at, p.reserved)
    ensures RefersToPresent(Bodies(p.drafts), InsertDraft(job, rule, key, song, at, c.lastId, c.lastKey).body, job.items)
  {
    if at < |job.items| {
      NoDeletes(Bodies(p.drafts), job.items, job.items[at].id);
    } else if c.lastKey.Some? {
      CursorStays(job, p, c);
    } else if c.lastId.Some? {
      NoDeletes(Bodies(p.drafts), job.items, c.lastId.value);
    }
  }

  lemma InsertKeepsPlaced(job: Job, rule: PlacementRule, key: Key, song: SongRef, at: nat, p: Planning, c: Cursor)
    requires job.Valid() && Placed(job, p) && Steady(job, p, c) && song in job.resources.Values
    requires at == SkipReserved(job.items, c.at, p.reserved)
    ensures Placed(job, p.(drafts := p.drafts + [InsertDraft(job, rule, key, song, at, c.lastId, c.lastKey)],
                           desired := p.desired + {key}))
  {
    var draft := InsertDraft(job, rule, key, song, at, c.lastId, c.lastKey);
    InsertRefers(job, rule, key, song, at, p, c);
    WellReferredAppend(Bodies(p.drafts), draft.body, job.items);
    BodiesAppend(p.drafts, draft);
  }

  lemma InsertKeepsSteady(job: Job, rule: PlacementRule, key: Key, song: SongRef, at: nat, p: Planning, c: Cursor)
    requires Placed(job, p) && Steady(job, p, c)
    requires at == SkipReserved(job.items, c.at, p.reserved)
    requires at < |job.items| ==> !job.items[at].IsSong()
    ensures Steady(job, p.(drafts := p.drafts + [InsertDraft(job, rule, key, song, at, c.lastId, c.lastKey)],
                           desired := p.desired + {key}),
                   Cursor(at, None, Some(AgendaKey(job.eventId, key)), false))
  {
    var draft := InsertDraft(job, rule, key, song, at, c.lastId, c.lastKey);
    BodiesAppend(p.drafts, draft);
    var bodies := Bodies(p.drafts);
    assert (bodies + [draft.body])[..|bodies|] == bodies;
    if c.lastKey.Some? {
      CursorStays(job, p, c);
    }
  }

  lemma PlaceSongKeeps(job: Job, rule: PlacementRule, i: nat, p: Planning, c: Cursor)
    requires job.Valid() && i < |job.songIds| && Placed(job, p) && Steady(job, p, c)
    ensures var (p', c') := PlaceSong(job, rule, i, p, c);
            Placed(job, p') && (!c'.blocked ==> Steady(job, p', c'))
  {
    if !c.blocked {
      var song := job.resources[job.songIds[i]];
      var key := SourceKey(rule.id, i, job.songIds[i]);
      var at := SkipReserved(job.items, c.at, p.reserved);
      if at < |job.items| && job.items[at].IsSong() {
        if !OwnedByOther(job, job.items[at].id) {
          SlotKeepsPlaced(job, rule, key, song, at, p);
        }
      } else {
        InsertKeepsPlaced(job, rule, key, song, at, p, c);
        InsertKeepsSteady(job, rule, key, song, at, p, c);
      }
    }
  }

  lemma {:induction false} PlaceSongsKeep(job: Job, rule: PlacementRule, lo: nat, k: nat, p: Planning, c: Cursor)
    requires job.Valid() && lo <= k <= |job.songIds| && Placed(job, p) && Steady(job, p, c) && !c.blocked
    ensures var (p', c') := PlaceSongs(job, rule, lo, k, p, c);
            Placed(job, p') && (!c'.blocked ==> Steady(job, p', c'))
  {
    hide Placed, Steady, PlaceSong;
    if k > lo {
      PlaceSongsKeep(job, rule, lo, k - 1, p, c);
      var (p', c') := PlaceSongs(job, rule, lo, k - 1, p, c);
      if c'.blocked {
        BlockedSkips(job, rule, k - 1, p', c');
      } else {
        PlaceSongKeeps(job, rule, k - 1, p', c');
      }
    }
  }

  lemma {:induction false} PlaceRulesKeep(job: Job, rules: seq<PlacementRule>)
    requires job.Valid()
    ensures Placed(job, PlaceRules(job, rules))
  {
    if rules != [] {
      PlaceRulesKeep(job, rules[..|rules| - 1]);
      PlaceRuleKeeps(job, rules[|rules| - 1], PlaceRules(job, rules[..|rules| - 1]));
    }
  }

  lemma PlaceRuleKeeps(job: Job, rule: PlacementRule, p: Planning)
    requires job.Valid() && Placed(job, p)
    ensures Placed(job, PlaceRule(job, rule, p))
  {
    var n := |job.songIds|;
    var anchors := Matching(rule.anchor, job.items, job.normalize);
    if p.used * Indexes(rule, n) == {} && anchors != [] && !(|anchors| > 1 && rule.policy == FAIL) {
      var claimed := p.(used := p.used + Indexes(rule, n));
      var start := if |anchors| > 1
        then claimed.(issues := p.issues + [AnchorMultipleFirstSelected(rule.id, Ids(anchors), anchors[0].id)])
        else claimed;
      AnchorFound(rule.anchor, job.items, job.normalize);
      PlaceSongsKeep(job, rule, SliceStart(rule, n), SliceEnd(rule, n), start,
                     StartCursor(rule, job.items, AnchorIndex(job.items, anchors)));
    }
  }

  // Cleanup.

  /** The database keeps one binding per agenda item of an event. */
  ghost predicate DistinctOwners(rows: seq<Ownership>) {
    forall i, j :: 0 <= i < j < |rows| ==> rows[i].agendaItemId != rows[j].agendaItemId
  }

  lemma {:induction false} CountAtMostOne(rows: seq<Ownership>, row: Ownership)
    requires DistinctOwners(rows)
    ensures multiset(rows)[row] <= 1
  {
    if rows != [] {
      CountAtMostOne(rows[1..], row);
      assert rows == [rows[0]] + rows[1..];
      if rows[0] == row {
        assert row !in rows[1..];
        assert multiset(rows[1..])[row] == 0;
      }
    }
  }

  lemma CountAtLeastTwo(rows: seq<Ownership>, i: nat, j: nat)
    requires i < j < |rows| && rows[i] == rows[j]
    ensures multiset(rows)[rows[i]] >= 2
  {
    var a, b := rows[..j], rows[j..];
    assert rows == a + b;
    assert a[i] == rows[i] && b[0] == rows[j];
    assert rows[i] in multiset(a) && rows[i] in multiset(b);
  }

  lemma SortedStayDistinct(rows: seq<Ownership>)
    requires DistinctOwners(rows)
    ensures DistinctOwners(Sort(rows, OwnershipLeq))
    ensures forall row :: row in Sort(rows, OwnershipLeq) <==> row in rows
  {
    var sorted := Sort(rows, OwnershipLeq);
    SortPermutes(rows, OwnershipLeq);
    forall row ensures row in sorted <==> row in rows {
      assert row in sorted <==> row in multiset(sorted);
      assert row in rows <==> row in multiset(rows);
    }
    forall i, j | 0 <= i < j < |sorted| ensures sorted[i].agendaItemId != sorted[j].agendaItemId {
      assert sorted[i] in rows && sorted[j] in rows;
      if sorted[i].agendaItemId == sorted[j].agendaItemId {
        assert sorted[i] == sorted[j];
        CountAtLeastTwo(sorted, i, j);
        CountAtMostOne(rows, sorted[i]);
        assert false;
      }
    }
  }

  predicate TidiesUp(body: Body) { body.CleanupNoop? || body.DeleteOwnedItem? }

  /** The drafts after the cleanup of `rows`: those of the placements, then one per
      surplus binding, a DELETE only where the binding's fingerprint still holds. */
  ghost predicate Cleaned(job: Job, rows: seq<Ownership>, p0: Planning, p: Planning) {
    var n := |p0.drafts|;
    && p0.drafts <= p.drafts
    && p.reserved == p0.reserved && p.desired == p0.desired && p.used == p0.used
    && (forall i :: n <= i < |p.drafts| ==>
          TidiesUp(p.drafts[i].body) && p.drafts[i].dependencies == [] && Cleans(job, rows, p0, p.drafts[i].body))
    && (forall i, j :: n <= i < j < |p.drafts| ==> p.drafts[i].body.itemId != p.drafts[j].body.itemId)
  }

  /** `body` is the cleanup action of some surplus binding among `rows`. */
  ghost predicate Cleans(job: Job, rows: seq<Ownership>, p0: Planning, body: Body) {
    exists o :: o in rows && Surplus(job, o, p0) && body == CleanupDraft(job, o).body
  }

  lemma {:induction false} CleanUpAllCleans(job: Job, rows: seq<Ownership>, p0: Planning)
    requires DistinctOwners(rows)
    ensures Cleaned(job, rows, p0, CleanUpAll(job, rows, p0))
  {
    if rows != [] {
      var earlier, o := rows[..|rows| - 1], rows[|rows| - 1];
      CleanUpAllCleans(job, earlier, p0);
      var p := CleanUpAll(job, earlier, p0);
      var p' := CleanUp(job, o, p);
      assert o in rows;
      forall i | |p0.drafts| <= i < |p'.drafts|
        ensures TidiesUp(p'.drafts[i].body) && p'.drafts[i].dependencies == []
                && Cleans(job, rows, p0, p'.drafts[i].body)
      {
        if i < |p.drafts| {
          assert p'.drafts[i] == p.drafts[i];
          var q :| q in earlier && Surplus(job, q, p0) && p.drafts[i].body == CleanupDraft(job, q).body;
          assert q in rows;
        } else {
          assert Surplus(job, o, p0);
        }
      }
      forall i | |p0.drafts| <= i < |p.drafts| ensures p.drafts[i].body.itemId != o.agendaItemId {
        var q :| q in earlier && Surplus(job, q, p0) && p.drafts[i].body == CleanupDraft(job, q).body;
        var k :| 0 <= k < |earlier| && earlier[k] == q;
        assert rows[k] == q;
      }
    }
  }
}
