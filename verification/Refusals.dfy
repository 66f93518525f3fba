/** When a plan is refused, exactly, for placements whose windows are apart. */
module Refusals {
  import opened Prelude
  import opened Agendas
  import opened Sorting
  import opened Placements
  import opened PlanTheorems
  import opened PlanOrder
  import opened Setlist
  import opened Weaving
  import opened Slices
  import opened StandingSongs
  import opened SongSlices
  import opened Anchors
  import Window
  import RunRows

  // The reasons.

  /** Two placements are for the same song of the setlist. */
  ghost predicate Overlapping(job: Job, rules: seq<PlacementRule>) {
    exists r, r', i :: 0 <= r < r' < |rules| && BothSelect(job, rules[r], rules[r'], i)
  }

  predicate BothSelect(job: Job, a: PlacementRule, b: PlacementRule, i: nat) {
    Selects(a, |job.songIds|, i) && Selects(b, |job.songIds|, i)
  }

  /** No item is described by the anchor, or several are and the first may not be taken. */
  ghost predicate Astray(job: Job, rule: PlacementRule) {
    || (forall k :: !DescribesAt(job, rule, k))
    || (rule.policy == FAIL && exists i, j :: i < j && DescribesAt(job, rule, i) && DescribesAt(job, rule, j))
  }

  /** A slot of the placement is managed by another profile. */
  ghost predicate Foreign(job: Job, rule: PlacementRule) {
    exists q :: 0 <= q < |job.items| && Claims(job, rule, q) && ManagedByOther(job, job.items[q].id)
  }

  ghost predicate ManagedByOther(job: Job, itemId: Id) {
    exists o :: o in job.ownerships && o.agendaItemId == itemId && o.profileId != job.profileId
  }

  ghost predicate Refused(job: Job, rules: seq<PlacementRule>) {
    || Overlapping(job, rules)
    || exists r :: 0 <= r < |rules| && (Astray(job, rules[r]) || Foreign(job, rules[r]))
  }

  lemma OwnedIsManaged(job: Job, itemId: Id)
    requires Sound(job)
    ensures OwnedByOther(job, itemId) <==> ManagedByOther(job, itemId)
  {
    if ManagedByOther(job, itemId) {
      var o :| o in job.ownerships && o.agendaItemId == itemId && o.profileId != job.profileId;
      OwnerIs(job.ownerships, o);
    }
    if OwnedByOther(job, itemId) {
      RunRows.OwnershipIsRow(job.ownerships, itemId);
    }
  }

  // One placement.

  /** After k songs that were not refused the cursor stands behind the slots they took. */
  ghost predicate Walking(job: Job, p: Planning, d: Cursor, span: Span, before: set<Id>, k: nat) {
    && !d.blocked && d.at == span.c + Least(k, span.m) && d.at <= |job.items|
    && Reserves(job.items, before, p.reserved, span.c, d.at)
  }

  ghost predicate ForeignSlot(job: Job, span: Span, k: nat) {
    exists q :: span.c <= q < span.c + Least(k, span.m) && q < |job.items| && OwnedByOther(job, job.items[q].id)
  }

  lemma ForeignNext(job: Job, span: Span, k: nat)
    requires span.c + span.m <= |job.items|
    ensures ForeignSlot(job, span, k + 1)
            <==> ForeignSlot(job, span, k) || (k < span.m && OwnedByOther(job, job.items[span.c + k].id))
  {
    hide OwnedByOther;
    if k < span.m {
      assert Least(k + 1, span.m) == k + 1 && Least(k, span.m) == k;
    } else {
      assert Least(k + 1, span.m) == Least(k, span.m);
    }
  }

  lemma WalkStep(job: Job, rule: PlacementRule, i: nat, p: Planning, d: Cursor, span: Span, before: set<Id>, k: nat)
    requires job.Valid() && i < |job.songIds| && Walking(job, p, d, span, before, k) && k < span.n
    requires span.Fits(job.items) && forall q :: span.Covers(q) && q < |job.items| ==> job.items[q].id !in before
    ensures var (p', d') := PlaceSong(job, rule, i, p, d);
            if k < span.m && OwnedByOther(job, job.items[span.c + k].id) then d'.blocked
            else Walking(job, p', d', span, before, k + 1)
  {
    hide PlaceSong, OwnedByOther;
    if k < span.m {
      assert job.items[d.at].id !in p.reserved;
      if OwnedByOther(job, job.items[d.at].id) {
        SlotBlocks(job, rule, i, p, d);
      } else {
        Window.SlotClaimed(job, rule, i, p, d);
        OneReserved(job, before, p.reserved, span.c, d.at);
      }
    } else {
      assert d.at < |job.items| ==> job.items[d.at].id !in p.reserved;
      Window.SongInserted(job, rule, i, p, d);
    }
  }

  lemma {:induction false} WalkSongs(job: Job, rule: PlacementRule, lo: nat, k: nat, p: Planning, d: Cursor, span: Span)
    requires job.Valid() && lo + k <= |job.songIds| && k <= span.n
    requires Walking(job, p, d, span, p.reserved, 0) && span.Fits(job.items)
    requires forall q :: span.Covers(q) && q < |job.items| ==> job.items[q].id !in p.reserved
    ensures var (p', d') := PlaceSongs(job, rule, lo, lo + k, p, d);
            && (d'.blocked <==> ForeignSlot(job, span, k))
            && (!d'.blocked ==> Walking(job, p', d', span, p.reserved, k))
  {
    hide PlaceSong, OwnedByOther, ForeignSlot, Reserves;
    if k == 0 {
      NoForeignYet(job, span);
    } else {
      WalkSongs(job, rule, lo, k - 1, p, d, span);
      ForeignNext(job, span, k - 1);
      var (p1, d1) := PlaceSongs(job, rule, lo, lo + (k - 1), p, d);
      if d1.blocked {
        BlockedSkips(job, rule, lo + k - 1, p1, d1);
      } else {
        WalkStep(job, rule, lo + k - 1, p1, d1, span, p.reserved, k - 1);
      }
    }
  }

  lemma NoForeignYet(job: Job, span: Span)
    ensures !ForeignSlot(job, span, 0)
  {
  }

  /** An admitted placement that starts on free slots fails exactly at a foreign one. */
  lemma RuleWalks(job: Job, rule: PlacementRule, p: Planning)
    requires Sound(job) && Admitted(job, rule, p) && !HasErrors(p.issues)
    requires forall q :: SpanOf(job, rule).Covers(q) && q < |job.items| ==> job.items[q].id !in p.reserved
    ensures var p' := PlaceRule(job, rule, p);
            && (HasErrors(p'.issues) <==> Foreign(job, rule))
            && (!HasErrors(p'.issues) ==>
                  && Reserves(job.items, p.reserved, p'.reserved, SpanOf(job, rule).c, SpanOf(job, rule).End())
                  && p'.used == p.used + Indexes(rule, |job.songIds|))
  {
    hide PlaceSongs, PlaceRule, HasErrors, Indexes, SpanOf, ForeignSlot, Foreign, Admitted, StartOf, RuleStart, Walking;
    var lo, hi, span := SliceStart(rule, |job.songIds|), SliceEnd(rule, |job.songIds|), SpanOf(job, rule);
    AdmittedMatch(job, rule, p);
    var start, c := StartOf(job, rule, p), RuleStart(job, rule);
    SpanFits(job, rule);
    SpanSize(job, rule);
    StartKeeps(job, rule, p);
    StartWalks(job, rule, start);
    WalkSongs(job, rule, lo, hi - lo, start, c, span);
    SongsFail(job, rule, lo, hi, start, c);
    RuleIs(job, rule, p);
    ForeignIsSlot(job, rule);
    var (p', d') := PlaceSongs(job, rule, lo, hi, start, c);
    if !d'.blocked {
      WalkedReserves(job, p', d', span, start.reserved, hi - lo);
    }
  }

  lemma AdmittedMatch(job: Job, rule: PlacementRule, p: Planning)
    requires Admitted(job, rule, p)
    ensures Matching(rule.anchor, job.items, job.normalize) != []
  {
  }

  lemma StartWalks(job: Job, rule: PlacementRule, start: Planning)
    requires Matching(rule.anchor, job.items, job.normalize) != []
    ensures Walking(job, start, RuleStart(job, rule), SpanOf(job, rule), start.reserved, 0) && !RuleStart(job, rule).blocked
  {
    AnchorFound(rule.anchor, job.items, job.normalize);
    NothingReserved(job.items, start.reserved, RuleStart(job, rule).at);
  }

  lemma WalkedReserves(job: Job, p: Planning, d: Cursor, span: Span, before: set<Id>, k: nat)
    requires Walking(job, p, d, span, before, k) && span.m <= k
    ensures Reserves(job.items, before, p.reserved, span.c, span.End())
  {
  }

  /** A refused slot is an error, and nothing else about songs is. */
  lemma SongsFail(job: Job, rule: PlacementRule, lo: nat, hi: nat, p: Planning, c: Cursor)
    requires job.Valid() && lo <= hi <= |job.songIds| && !c.blocked && !HasErrors(p.issues)
    ensures var (p', c') := PlaceSongs(job, rule, lo, hi, p, c);
            (c'.blocked <==> HasErrors(p'.issues)) && p'.used == p.used
  {
    hide PlaceSongs, ForSongs;
    SongsAdd(job, rule, lo, hi, p, c);
  }

  lemma SpanSize(job: Job, rule: PlacementRule)
    requires Matching(rule.anchor, job.items, job.normalize) != []
    ensures SpanOf(job, rule).n == SliceEnd(rule, |job.songIds|) - SliceStart(rule, |job.songIds|)
  {
  }

  lemma ForeignIsSlot(job: Job, rule: PlacementRule)
    requires Sound(job) && SpanOf(job, rule).Fits(job.items)
    ensures Foreign(job, rule) <==> ForeignSlot(job, SpanOf(job, rule), SpanOf(job, rule).n)
  {
    hide SpanOf, OwnedByOther, ManagedByOther;
    var span := SpanOf(job, rule);
    if Foreign(job, rule) {
      var q :| 0 <= q < |job.items| && Claims(job, rule, q) && ManagedByOther(job, job.items[q].id);
      OwnedIsManaged(job, job.items[q].id);
    }
    if ForeignSlot(job, span, span.n) {
      var q :| span.c <= q < span.c + Least(span.n, span.m) && q < |job.items| && OwnedByOther(job, job.items[q].id);
      OwnedIsManaged(job, job.items[q].id);
      assert Claims(job, rule, q);
    }
  }

  lemma AstrayIsRefused(job: Job, rule: PlacementRule)
    requires job.Valid()
    ensures Astray(job, rule) <==>
              var anchors := Matching(rule.anchor, job.items, job.normalize);
              anchors == [] || (|anchors| > 1 && rule.policy == FAIL)
  {
    hide DescribesAt;
    var hit := (item: AgendaItem) => AnchorMatches(rule.anchor, item, job.normalize);
    var anchors := Matching(rule.anchor, job.items, job.normalize);
    if anchors == [] {
      forall k ensures !DescribesAt(job, rule, k) {
        NotDescribed(job, rule, k);
      }
    } else {
      var j := AnchorIsFirst(job, rule);
      if i, k :| i < k && DescribesAt(job, rule, i) && DescribesAt(job, rule, k) {
        DescribedInside(job, rule, i);
        DescribedInside(job, rule, k);
        SeveralOnlyIfFirst(job, rule, i, k);
      }
      if |anchors| > 1 {
        var k := SecondMatch(job, rule, j);
      }
    }
  }

  lemma DescribedInside(job: Job, rule: PlacementRule, k: int)
    requires DescribesAt(job, rule, k)
    ensures 0 <= k < |job.items|
  {
  }

  lemma NotDescribed(job: Job, rule: PlacementRule, k: int)
    requires Matching(rule.anchor, job.items, job.normalize) == []
    ensures !DescribesAt(job, rule, k)
  {
    if 0 <= k < |job.items| {
      MatchDescribes(rule.anchor, job.items[k], job.normalize);
      FilterMember(job.items, (item: AgendaItem) => AnchorMatches(rule.anchor, item, job.normalize), job.items[k]);
    }
  }

  lemma SecondMatch(job: Job, rule: PlacementRule, j: nat) returns (k: nat)
    requires |Matching(rule.anchor, job.items, job.normalize)| > 1
    requires DescribesAt(job, rule, j) && forall i :: 0 <= i < j ==> !DescribesAt(job, rule, i)
    ensures j < k && DescribesAt(job, rule, k)
  {
    var hit := (item: AgendaItem) => AnchorMatches(rule.anchor, item, job.normalize);
    var front, back := job.items[..j], job.items[j + 1..];
    Around(job.items, j);
    FilterAround(front, job.items[j], back, hit);
    forall i | 0 <= i < |front| ensures !hit(front[i]) {
      MatchDescribes(rule.anchor, job.items[i], job.normalize);
      assert !DescribesAt(job, rule, i);
    }
    FilterNone(front, hit);
    var i := FirstSuch(back, hit);
    MatchDescribes(rule.anchor, back[i], job.normalize);
    k := j + 1 + i;
  }

  // All placements.

  ghost predicate UsesSelected(job: Job, rules: seq<PlacementRule>, used: set<nat>) {
    forall i: nat :: i in used <==> exists r :: 0 <= r < |rules| && Selects(rules[r], |job.songIds|, i)
  }

  lemma RefusedLonger(job: Job, rules: seq<PlacementRule>, rule: PlacementRule)
    ensures Refused(job, rules + [rule]) <==>
              || Refused(job, rules) || Astray(job, rule) || Foreign(job, rule)
              || exists r, i :: 0 <= r < |rules| && BothSelect(job, rules[r], rule, i)
  {
    hide BothSelect, Astray, Foreign;
    var all := rules + [rule];
    assert all[|rules|] == rule && forall r :: 0 <= r < |rules| ==> all[r] == rules[r];
    if r, i :| 0 <= r < |rules| && BothSelect(job, rules[r], rule, i) {
      assert BothSelect(job, all[r], all[|rules|], i);
    }
    if Overlapping(job, rules) {
      var r, r', i :| 0 <= r < r' < |rules| && BothSelect(job, rules[r], rules[r'], i);
      assert BothSelect(job, all[r], all[r'], i);
    }
    if Overlapping(job, all) {
      var r, r', i :| 0 <= r < r' < |all| && BothSelect(job, all[r], all[r'], i);
      assert r' < |rules| ==> BothSelect(job, rules[r], rules[r'], i);
    }
  }

  lemma AdmittedIsFine(job: Job, rules: seq<PlacementRule>, rule: PlacementRule, p: Planning)
    requires job.Valid() && UsesSelected(job, rules, p.used)
    ensures Admitted(job, rule, p)
            <==> !Astray(job, rule) && !(exists r, i :: 0 <= r < |rules| && BothSelect(job, rules[r], rule, i))
  {
    hide Selects, Astray, Matching;
    AstrayIsRefused(job, rule);
    forall i: nat ensures i in Indexes(rule, |job.songIds|) <==> Selects(rule, |job.songIds|, i) {
      RangeIsSelection(rule, |job.songIds|, i);
    }
    var both := p.used * Indexes(rule, |job.songIds|);
    if both != {} {
      var i :| i in both;
      var r :| 0 <= r < |rules| && Selects(rules[r], |job.songIds|, i);
      assert BothSelect(job, rules[r], rule, i);
    }
    if r, i: nat :| 0 <= r < |rules| && BothSelect(job, rules[r], rule, i) {
      assert i in both;
    }
  }

  lemma UsedLonger(job: Job, rules: seq<PlacementRule>, rule: PlacementRule, used: set<nat>)
    requires UsesSelected(job, rules, used)
    ensures UsesSelected(job, rules + [rule], used + Indexes(rule, |job.songIds|))
  {
    hide Selects, Indexes;
    var all, now := rules + [rule], used + Indexes(rule, |job.songIds|);
    assert all[|rules|] == rule && forall r :: 0 <= r < |rules| ==> all[r] == rules[r];
    forall i: nat ensures i in now <==> exists r :: 0 <= r < |all| && Selects(all[r], |job.songIds|, i) {
      RangeIsSelection(rule, |job.songIds|, i);
      if i in used {
        var r :| 0 <= r < |rules| && Selects(rules[r], |job.songIds|, i);
        assert Selects(all[r], |job.songIds|, i);
      }
      if Selects(rule, |job.songIds|, i) {
        assert Selects(all[|rules|], |job.songIds|, i);
      }
      if r :| 0 <= r < |all| && Selects(all[r], |job.songIds|, i) {
        assert r < |rules| ==> Selects(rules[r], |job.songIds|, i);
      }
    }
  }

  lemma {:induction false} RulesFailExactly(job: Job, rules: seq<PlacementRule>)
    requires Sound(job) && Apart(job, rules)
    ensures HasErrors(PlaceRules(job, rules).issues) <==> Refused(job, rules)
    ensures !Refused(job, rules) ==>
              && ReservesClaimed(job, rules, PlaceRules(job, rules).reserved)
              && UsesSelected(job, rules, PlaceRules(job, rules).used)
  {
    hide Selects, PlaceRule, HasErrors, Apart, Astray, Foreign, BothSelect, UsesSelected, ReservesClaimed;
    if rules == [] {
      NothingRefused(job);
    } else {
      var earlier, rule := rules[..|rules| - 1], rules[|rules| - 1];
      assert rules == earlier + [rule];
      ApartEarlier(job, earlier, rule);
      RulesFailExactly(job, earlier);
      RuleFailsExactly(job, earlier, rule);
    }
  }

  lemma NothingRefused(job: Job)
    requires job.Valid()
    ensures !HasErrors(PlaceRules(job, []).issues) && !Refused(job, [])
    ensures ReservesClaimed(job, [], PlaceRules(job, []).reserved) && UsesSelected(job, [], PlaceRules(job, []).used)
  {
  }

  lemma RuleFailsExactly(job: Job, rules: seq<PlacementRule>, rule: PlacementRule)
    requires Sound(job) && Apart(job, rules + [rule])
    requires HasErrors(PlaceRules(job, rules).issues) <==> Refused(job, rules)
    requires !Refused(job, rules) ==>
               && ReservesClaimed(job, rules, PlaceRules(job, rules).reserved)
               && UsesSelected(job, rules, PlaceRules(job, rules).used)
    ensures var all := rules + [rule];
            && (HasErrors(PlaceRules(job, all).issues) <==> Refused(job, all))
            && (!Refused(job, all) ==>
                  && ReservesClaimed(job, all, PlaceRules(job, all).reserved)
                  && UsesSelected(job, all, PlaceRules(job, all).used))
  {
    hide Selects, PlaceRule, HasErrors, Apart, Astray, Foreign, BothSelect, UsesSelected, ReservesClaimed, SpanOf, Refused, Admitted;
    var p := PlaceRules(job, rules);
    LastRule(job, rules, rule);
    RefusedLonger(job, rules, rule);
    RuleAdds(job, rule, p);
    if HasErrors(p.issues) {
      ErrorsStay(p.issues, PlaceRule(job, rule, p).issues);
    } else {
      AdmittedIsFine(job, rules, rule, p);
      if Admitted(job, rule, p) {
        FreeSlots(job, rules, rule, p.reserved);
        RuleWalks(job, rule, p);
        if !HasErrors(PlaceRule(job, rule, p).issues) {
          ReservesStep(job, rules, rule, p.reserved, PlaceRule(job, rule, p).reserved);
          UsedLonger(job, rules, rule, p.used);
        }
      }
    }
  }

  lemma FreeSlots(job: Job, rules: seq<PlacementRule>, rule: PlacementRule, reserved: set<Id>)
    requires Apart(job, rules + [rule]) && ReservesClaimed(job, rules, reserved)
    ensures forall q :: SpanOf(job, rule).Covers(q) && q < |job.items| ==> job.items[q].id !in reserved
  {
    hide SpanOf, Apart;
    forall q | SpanOf(job, rule).Covers(q) && q < |job.items| ensures job.items[q].id !in reserved {
      ApartLast(job, rules, rule, q);
    }
  }

  /** Cleanup never fails a plan. */
  lemma {:induction false} CleanUpNeverFails(job: Job, rows: seq<Ownership>, p: Planning)
    ensures HasErrors(CleanUpAll(job, rows, p).issues) <==> HasErrors(p.issues)
  {
    if rows != [] {
      CleanUpNeverFails(job, rows[..|rows| - 1], p);
      var before := CleanUpAll(job, rows[..|rows| - 1], p);
      var after := CleanUp(job, rows[|rows| - 1], before);
      if HasErrors(before.issues) {
        ErrorsStay(before.issues, after.issues);
      }
      if HasErrors(after.issues) {
        var i :| 0 <= i < |after.issues| && after.issues[i].IsError();
        assert before.issues[i].IsError();
      }
    }
  }

  /** For placements whose windows are apart, a plan is refused if and only if two of
      them are for the same song, an anchor describes no item -- or several, where the
      first may not be taken -- or a slot is managed by another profile.  A refused plan
      holds no action at all. */
  lemma PlanIsRefusedExactly(job: Job, rules: seq<PlacementRule>)
    requires Sound(job) && Apart(job, rules)
    ensures HasErrors(Drafted(job, rules).issues) <==> Refused(job, rules)
    ensures Refused(job, rules) ==> Planned(job, rules) == []
  {
    hide Refused, Apart, PlaceRules, HasErrors;
    RulesFailExactly(job, rules);
    CleanUpNeverFails(job, Sort(job.ownerships, OwnershipLeq), PlaceRules(job, rules));
  }
}
