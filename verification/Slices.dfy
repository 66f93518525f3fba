/** Any list of placements whose windows are apart: the final agenda is the original
    one with every window replaced by one block, which shows the slice of its
    placement in setlist order, minus the items the cleanup deletes. */
module Slices {
  import opened Agendas
  import opened Layout
  import opened Order
  import opened Placements
  import opened PlanShape
  import opened PlanTheorems
  import opened PlanOrder
  import opened Setlist
  import opened Weaving
  import Window

  // The window of a placement.

  function Size(job: Job, rule: PlacementRule): nat {
    SliceEnd(rule, |job.songIds|) - SliceStart(rule, |job.songIds|)
  }

  /** Where a placement starts, the slots it finds there, and its number of songs. */
  function SpanOf(job: Job, rule: PlacementRule): Span {
    if Matching(rule.anchor, job.items, job.normalize) == [] then Span(0, 0, 0)
    else
      var c := RuleStart(job, rule).at;
      Span(c, Window.SlotCount(job.items, c, Size(job, rule)), Size(job, rule))
  }

  predicate Claims(job: Job, rule: PlacementRule, q: int) {
    var span := SpanOf(job, rule);
    span.c <= q < span.End()
  }

  predicate InsertsAt(job: Job, rule: PlacementRule, q: int) {
    var span := SpanOf(job, rule);
    span.m < span.n && q == span.End()
  }

  predicate Covers(job: Job, rule: PlacementRule, q: int) {
    Claims(job, rule, q) || InsertsAt(job, rule, q)
  }

  /** No two placements claim the same item or insert at the same place. */
  ghost predicate Apart(job: Job, rules: seq<PlacementRule>) {
    forall r, r', q :: 0 <= r < r' < |rules| && Covers(job, rules[r], q) ==> !Covers(job, rules[r'], q)
  }

  lemma SpanFits(job: Job, rule: PlacementRule)
    requires Matching(rule.anchor, job.items, job.normalize) != []
    ensures SpanOf(job, rule).Fits(job.items) && SpanOf(job, rule).c == RuleStart(job, rule).at
  {
    AnchorFound(rule.anchor, job.items, job.normalize);
  }

  // One placement.

  lemma PlacingStarts(job: Job, rule: PlacementRule, p: Planning, newIds: seq<Id>, s: Setting, gaps: seq<seq<Id>>)
    requires Weaves(job, p.drafts, newIds, s, gaps) && Placed(job, p) && Admitted(job, rule, p)
    ensures Placing(job, StartOf(job, rule, p), RuleStart(job, rule), newIds, s, |p.drafts|, SpanOf(job, rule), gaps, p.reserved)
  {
    hide After, Woven, Runs, Placed, Steady, Matching, Setup, SpanOf, Reserves, PlacesAt, AnchorIndex, Indexes, Weaves;
    SpanFits(job, rule);
    StartIsSteady(job, rule, p);
    WeavesSize(job, p.drafts, newIds, s, gaps);
    RunsSetup(job, p.drafts, newIds, s);
    NothingReserved(job.items, p.reserved, RuleStart(job, rule).at);
  }

  lemma NothingReserved(items: Agenda, reserved: set<Id>, c: nat)
    ensures Reserves(items, reserved, reserved, c, c)
  {
  }

  lemma RunsSetup(job: Job, drafts: seq<Draft>, newIds: seq<Id>, s: Setting)
    requires Runs(job, drafts, newIds, s)
    ensures Setup(job, newIds, s) && |drafts| <= |newIds|
  {
  }

  lemma StartIsSteady(job: Job, rule: PlacementRule, p: Planning)
    requires Placed(job, p) && Matching(rule.anchor, job.items, job.normalize) != []
    ensures Placed(job, StartOf(job, rule, p)) && Steady(job, StartOf(job, rule, p), RuleStart(job, rule))
  {
    AnchorFound(rule.anchor, job.items, job.normalize);
  }

  lemma PlacingEnds(job: Job, p: Planning, d: Cursor, newIds: seq<Id>, s: Setting, b: nat, span: Span,
                    gaps: seq<seq<Id>>, before: set<Id>)
    requires Placing(job, p, d, newIds, s, b, span, gaps, before) && |p.drafts| == b + span.n && span.m <= span.n
    ensures Placed(job, p) && |gaps| == |job.items| + 1 && span.End() <= |job.items|
    ensures Weaves(job, p.drafts, newIds, s, Grown(gaps, span, newIds, b, span.n))
    ensures Reserves(job.items, before, p.reserved, span.c, span.End())
    ensures forall j :: 0 <= j < span.n ==> PlacesAt(job.items, p.drafts, b, span, j)
  {
  }

  lemma RuleWeaves(job: Job, rule: PlacementRule, p: Planning, newIds: seq<Id>, s: Setting, gaps: seq<seq<Id>>)
    requires Weaves(job, p.drafts, newIds, s, gaps) && Placed(job, p)
    requires !HasErrors(PlaceRule(job, rule, p).issues) && |PlaceRule(job, rule, p).drafts| <= |newIds|
    requires SpanOf(job, rule).Free(job.items, p.reserved, gaps)
    ensures var p', span := PlaceRule(job, rule, p), SpanOf(job, rule);
            && |gaps| == |job.items| + 1 && span.End() <= |job.items| && span.n == Size(job, rule)
            && p.drafts <= p'.drafts && |p'.drafts| == |p.drafts| + span.n && Placed(job, p')
            && Weaves(job, p'.drafts, newIds, s, Grown(gaps, span, newIds, |p.drafts|, span.n))
            && Reserves(job.items, p.reserved, p'.reserved, span.c, span.End())
            && forall j :: 0 <= j < span.n ==> PlacesAt(job.items, p'.drafts, |p.drafts|, span, j)
  {
    hide Placing, Weaves, Placed, PlaceSongs, PlaceRule, Reserves, PlacesAt, Grown, ForSongs, HasErrors;
    WeavesSize(job, p.drafts, newIds, s, gaps);
    RuleAdds(job, rule, p);
    PlacingStarts(job, rule, p, newIds, s, gaps);
    SpanFits(job, rule);
    var lo, hi, span := SliceStart(rule, |job.songIds|), SliceEnd(rule, |job.songIds|), SpanOf(job, rule);
    SongsPlace(job, rule, lo, hi, StartOf(job, rule, p), RuleStart(job, rule), newIds, s, span, gaps, p.reserved);
    var (p', d') := PlaceSongs(job, rule, lo, hi, StartOf(job, rule, p), RuleStart(job, rule));
    PlacingEnds(job, p', d', newIds, s, |p.drafts|, span, gaps, p.reserved);
  }

  // All placements.

  /** The gaps hold what the placements inserted, in order, and nothing else. */
  ghost predicate Fills(job: Job, rules: seq<PlacementRule>, newIds: seq<Id>, gaps: seq<seq<Id>>)
    requires job.Valid()
  {
    && |gaps| == |job.items| + 1
    && (forall r :: 0 <= r < |rules| ==> FillsAt(job, rules, newIds, gaps, r))
    && forall q :: 0 <= q <= |job.items| && NoneInserts(job, rules, q) ==> gaps[q] == []
  }

  ghost predicate FillsAt(job: Job, rules: seq<PlacementRule>, newIds: seq<Id>, gaps: seq<seq<Id>>, r: nat)
    requires job.Valid() && r < |rules|
  {
    var span, b := SpanOf(job, rules[r]), Offset(job, rules, r);
    && span.m <= span.n && span.End() < |gaps| && b + span.n <= |newIds|
    && (span.m < span.n ==> gaps[span.End()] == newIds[b + span.m..b + span.n])
  }

  ghost predicate NoneInserts(job: Job, rules: seq<PlacementRule>, q: int) {
    forall r :: 0 <= r < |rules| ==> !InsertsAt(job, rules[r], q)
  }

  ghost predicate ClaimedBy(job: Job, rules: seq<PlacementRule>, q: int) {
    exists r :: 0 <= r < |rules| && Claims(job, rules[r], q)
  }

  ghost predicate ReservesClaimed(job: Job, rules: seq<PlacementRule>, reserved: set<Id>) {
    forall q :: 0 <= q < |job.items| ==> (job.items[q].id in reserved <==> ClaimedBy(job, rules, q))
  }

  /** Rule r claims its slots and inserts the rest. */
  ghost predicate Places(job: Job, rules: seq<PlacementRule>, drafts: seq<Draft>, r: nat)
    requires job.Valid() && r < |rules|
  {
    var span := SpanOf(job, rules[r]);
    && span.n == Size(job, rules[r]) && span.m <= span.n && span.End() <= |job.items|
    && forall j :: 0 <= j < span.n ==> PlacesAt(job.items, drafts, Offset(job, rules, r), span, j)
  }

  /** What holds once the placements are planned. */
  ghost predicate Interwoven(job: Job, rules: seq<PlacementRule>, newIds: seq<Id>, s: Setting, gaps: seq<seq<Id>>) {
    && Setup(job, newIds, s)
    && var p := PlaceRules(job, rules);
       && Weaves(job, p.drafts, newIds, s, gaps) && Placed(job, p)
       && Fills(job, rules, newIds, gaps) && ReservesClaimed(job, rules, p.reserved)
       && forall r :: 0 <= r < |rules| ==> Places(job, rules, p.drafts, r)
  }

  /** What the last placement covers no other one does. */
  lemma ApartLast(job: Job, rules: seq<PlacementRule>, rule: PlacementRule, q: int)
    requires Apart(job, rules + [rule]) && Covers(job, rule, q)
    ensures forall r :: 0 <= r < |rules| ==> !Covers(job, rules[r], q)
    ensures NoneInserts(job, rules, q) && !ClaimedBy(job, rules, q)
  {
    var all := rules + [rule];
    assert all[|rules|] == rule;
    forall r | 0 <= r < |rules| ensures !Covers(job, rules[r], q) {
      assert all[r] == rules[r];
    }
  }

  lemma SpanIsFree(job: Job, rules: seq<PlacementRule>, rule: PlacementRule, newIds: seq<Id>, reserved: set<Id>,
                   gaps: seq<seq<Id>>)
    requires Apart(job, rules + [rule]) && job.Valid()
    requires Fills(job, rules, newIds, gaps) && ReservesClaimed(job, rules, reserved)
    ensures SpanOf(job, rule).Free(job.items, reserved, gaps)
  {
    hide SpanOf, Apart, FillsAt;
    var span := SpanOf(job, rule);
    forall q | span.Covers(q) && q < |job.items| ensures job.items[q].id !in reserved {
      ApartLast(job, rules, rule, q);
    }
    if span.Covers(|job.items|) {
      ApartLast(job, rules, rule, |job.items|);
    }
  }

  lemma FillsStep(job: Job, rules: seq<PlacementRule>, rule: PlacementRule, newIds: seq<Id>, gaps: seq<seq<Id>>)
    requires job.Valid() && Apart(job, rules + [rule]) && Fills(job, rules, newIds, gaps)
    requires var span, b := SpanOf(job, rule), |PlaceRules(job, rules).drafts|;
             span.m <= span.n && span.End() < |gaps| && b + span.n <= |newIds|
    ensures var span, b := SpanOf(job, rule), |PlaceRules(job, rules).drafts|;
            Fills(job, rules + [rule], newIds, Grown(gaps, span, newIds, b, span.n))
  {
    hide SpanOf, Apart, FillsAt, PlaceRules, InsertsAt, NoneInserts, Grown;
    var all, span, b := rules + [rule], SpanOf(job, rule), |PlaceRules(job, rules).drafts|;
    var now := Grown(gaps, span, newIds, b, span.n);
    GrownSize(gaps, span, newIds, b);
    forall r | 0 <= r < |all| ensures FillsAt(job, all, newIds, now, r) {
      if r < |rules| {
        EarlierFills(job, rules, rule, newIds, gaps, r);
      } else {
        LastFills(job, rules, rule, newIds, gaps);
      }
    }
    forall q | 0 <= q <= |job.items| && NoneInserts(job, all, q) ensures now[q] == [] {
      StaysEmpty(job, rules, rule, newIds, gaps, q);
    }
  }

  lemma GrownSize(gaps: seq<seq<Id>>, span: Span, newIds: seq<Id>, b: nat)
    requires span.End() < |gaps| && b + span.n <= |newIds|
    ensures |Grown(gaps, span, newIds, b, span.n)| == |gaps|
  {
  }

  lemma LastFills(job: Job, rules: seq<PlacementRule>, rule: PlacementRule, newIds: seq<Id>, gaps: seq<seq<Id>>)
    requires job.Valid() && Apart(job, rules + [rule]) && Fills(job, rules, newIds, gaps)
    requires var span, b := SpanOf(job, rule), |PlaceRules(job, rules).drafts|;
             span.m <= span.n && span.End() < |gaps| && b + span.n <= |newIds|
    ensures var span, b := SpanOf(job, rule), |PlaceRules(job, rules).drafts|;
            FillsAt(job, rules + [rule], newIds, Grown(gaps, span, newIds, b, span.n), |rules|)
  {
    hide SpanOf, Apart, PlaceRules;
    var all, span := rules + [rule], SpanOf(job, rule);
    assert all[|rules|] == rule && all[..|rules|] == rules;
    if span.m < span.n {
      ApartLast(job, rules, rule, span.End());
      assert gaps[span.End()] == [];
    }
  }

  lemma EarlierFills(job: Job, rules: seq<PlacementRule>, rule: PlacementRule, newIds: seq<Id>, gaps: seq<seq<Id>>, r: nat)
    requires job.Valid() && Apart(job, rules + [rule]) && Fills(job, rules, newIds, gaps) && r < |rules|
    requires var span, b := SpanOf(job, rule), |PlaceRules(job, rules).drafts|;
             span.m <= span.n && span.End() < |gaps| && b + span.n <= |newIds|
    ensures var span, b := SpanOf(job, rule), |PlaceRules(job, rules).drafts|;
            FillsAt(job, rules + [rule], newIds, Grown(gaps, span, newIds, b, span.n), r)
  {
    hide SpanOf, Apart, PlaceRules;
    var all, span := rules + [rule], SpanOf(job, rule);
    assert FillsAt(job, rules, newIds, gaps, r);
    assert all[r] == rules[r] && all[..r] == rules[..r];
    if span.m < span.n {
      ApartLast(job, rules, rule, span.End());
      assert !Covers(job, rules[r], span.End());
    }
  }

  lemma StaysEmpty(job: Job, rules: seq<PlacementRule>, rule: PlacementRule, newIds: seq<Id>, gaps: seq<seq<Id>>, q: nat)
    requires job.Valid() && Fills(job, rules, newIds, gaps) && q <= |job.items| && NoneInserts(job, rules + [rule], q)
    requires var span, b := SpanOf(job, rule), |PlaceRules(job, rules).drafts|;
             span.m <= span.n && span.End() < |gaps| && b + span.n <= |newIds|
    ensures var span, b := SpanOf(job, rule), |PlaceRules(job, rules).drafts|;
            Grown(gaps, span, newIds, b, span.n)[q] == []
  {
    hide SpanOf, PlaceRules, FillsAt;
    var all := rules + [rule];
    assert !InsertsAt(job, all[|rules|], q);
    forall r | 0 <= r < |rules| ensures !InsertsAt(job, rules[r], q) {
      assert all[r] == rules[r];
    }
    assert NoneInserts(job, rules, q);
  }

  lemma ClaimedStep(job: Job, rules: seq<PlacementRule>, rule: PlacementRule, q: int)
    ensures ClaimedBy(job, rules + [rule], q) <==> ClaimedBy(job, rules, q) || Claims(job, rule, q)
  {
    hide Claims;
    var all := rules + [rule];
    assert all[|rules|] == rule;
    if ClaimedBy(job, rules, q) {
      var r :| 0 <= r < |rules| && Claims(job, rules[r], q);
      assert all[r] == rules[r];
    }
    if ClaimedBy(job, all, q) {
      var r :| 0 <= r < |all| && Claims(job, all[r], q);
      assert r < |rules| ==> all[r] == rules[r];
    }
  }

  lemma ReservesStep(job: Job, rules: seq<PlacementRule>, rule: PlacementRule, before: set<Id>, reserved: set<Id>)
    requires ReservesClaimed(job, rules, before)
    requires Reserves(job.items, before, reserved, SpanOf(job, rule).c, SpanOf(job, rule).End())
    ensures ReservesClaimed(job, rules + [rule], reserved)
  {
    hide ClaimedBy, SpanOf;
    forall q | 0 <= q < |job.items| ensures job.items[q].id in reserved <==> ClaimedBy(job, rules + [rule], q) {
      ClaimedStep(job, rules, rule, q);
    }
  }

  lemma PlacesStep(job: Job, rules: seq<PlacementRule>, rule: PlacementRule, drafts: seq<Draft>, longer: seq<Draft>)
    requires job.Valid() && drafts <= longer && drafts == PlaceRules(job, rules).drafts
    requires forall r :: 0 <= r < |rules| ==> Places(job, rules, drafts, r)
    requires var span := SpanOf(job, rule);
             && span.n == Size(job, rule) && span.m <= span.n && span.End() <= |job.items|
             && forall j :: 0 <= j < span.n ==> PlacesAt(job.items, longer, |drafts|, span, j)
    ensures forall r :: 0 <= r < |rules| + 1 ==> Places(job, rules + [rule], longer, r)
  {
    hide PlacesAt, SpanOf, Size, PlaceRules;
    var all := rules + [rule];
    forall r | 0 <= r < |rules| + 1 ensures Places(job, all, longer, r) {
      if r < |rules| {
        assert Places(job, rules, drafts, r);
        assert all[r] == rules[r] && all[..r] == rules[..r];
        PlacesAtLonger(job.items, drafts, longer, Offset(job, rules, r), SpanOf(job, rules[r]), SpanOf(job, rules[r]).n);
      } else {
        assert all[r] == rule && all[..r] == rules;
      }
    }
  }

  lemma ApartEarlier(job: Job, rules: seq<PlacementRule>, rule: PlacementRule)
    requires Apart(job, rules + [rule])
    ensures Apart(job, rules)
  {
    var all := rules + [rule];
    forall r, r', q | 0 <= r < r' < |rules| && Covers(job, rules[r], q) ensures !Covers(job, rules[r'], q) {
      assert all[r] == rules[r] && all[r'] == rules[r'];
    }
  }

  lemma NothingWoven(job: Job, newIds: seq<Id>, s: Setting) returns (gaps: seq<seq<Id>>)
    requires Setup(job, newIds, s)
    ensures Interwoven(job, [], newIds, s, gaps)
  {
    gaps := seq(|job.items| + 1, i => []);
    NothingAfter(job, newIds, s);
    PlaceRulesKeep(job, []);
    WovenEmpty(Ids(job.items));
  }

  lemma {:induction false} RulesWeave(job: Job, rules: seq<PlacementRule>, newIds: seq<Id>, s: Setting)
    returns (gaps: seq<seq<Id>>)
    requires Setup(job, newIds, s) && Apart(job, rules)
    requires !HasErrors(PlaceRules(job, rules).issues) && |PlaceRules(job, rules).drafts| <= |newIds|
    ensures Interwoven(job, rules, newIds, s, gaps)
  {
    if rules == [] {
      gaps := NothingWoven(job, newIds, s);
    } else {
      var earlier, rule := rules[..|rules| - 1], rules[|rules| - 1];
      assert rules == earlier + [rule];
      ApartEarlier(job, earlier, rule);
      RuleAdds(job, rule, PlaceRules(job, earlier));
      if HasErrors(PlaceRules(job, earlier).issues) {
        ErrorsStay(PlaceRules(job, earlier).issues, PlaceRules(job, rules).issues);
      }
      var before := RulesWeave(job, earlier, newIds, s);
      gaps := WeavesNext(job, earlier, rule, newIds, s, before);
    }
  }

  lemma WeavesNext(job: Job, rules: seq<PlacementRule>, rule: PlacementRule, newIds: seq<Id>, s: Setting, before: seq<seq<Id>>)
    returns (gaps: seq<seq<Id>>)
    requires Interwoven(job, rules, newIds, s, before) && Apart(job, rules + [rule])
    requires !HasErrors(PlaceRules(job, rules + [rule]).issues) && |PlaceRules(job, rules + [rule]).drafts| <= |newIds|
    ensures Interwoven(job, rules + [rule], newIds, s, gaps)
  {
    hide Apart, Fills, ReservesClaimed, Weaves, Placed, PlaceRule, Reserves, PlacesAt, Places, Grown, HasErrors, SpanOf, Setup;
    SetupIsValid(job, newIds, s);
    var p, span := PlaceRules(job, rules), SpanOf(job, rule);
    LastRule(job, rules, rule);
    var p' := PlaceRules(job, rules + [rule]);
    SpanIsFree(job, rules, rule, newIds, p.reserved, before);
    RuleWeaves(job, rule, p, newIds, s, before);
    gaps := Grown(before, span, newIds, |p.drafts|, span.n);
    SpanSizes(job, rule, p);
    FillsStep(job, rules, rule, newIds, before);
    ReservesStep(job, rules, rule, p.reserved, p'.reserved);
    PlacesStep(job, rules, rule, p.drafts, p'.drafts);
  }

  lemma LastRule(job: Job, rules: seq<PlacementRule>, rule: PlacementRule)
    requires job.Valid()
    ensures PlaceRules(job, rules + [rule]) == PlaceRule(job, rule, PlaceRules(job, rules))
  {
    assert (rules + [rule])[..|rules|] == rules;
  }

  lemma SetupIsValid(job: Job, newIds: seq<Id>, s: Setting)
    requires Setup(job, newIds, s)
    ensures job.Valid()
  {
  }

  lemma SpanSizes(job: Job, rule: PlacementRule, p: Planning)
    ensures SpanOf(job, rule).m <= SpanOf(job, rule).n
  {
  }

  // The items that the woven ids stand for.

  lemma IdsParts(now: Agenda, front: seq<Id>, id: Id, back: seq<Id>)
    requires Ids(now) == front + [id] + back
    ensures |front| < |now| && now[|front|].id == id
    ensures Ids(now[..|front|]) == front && Ids(now[|front| + 1..]) == back
    ensures now == now[..|front|] + [now[|front|]] + now[|front| + 1..]
  {
    assert (front + [id] + back)[..|front|] == front && (front + [id] + back)[|front| + 1..] == back;
    assert Ids(now)[|front|] == id;
  }

  lemma WovenNext<T>(items: seq<T>, gaps: seq<seq<T>>, item: T, gap: seq<T>)
    requires |gaps| == |items| + 1
    ensures Woven(items + [item], gaps + [gap]) == Woven(items, gaps) + [item] + gap
  {
    assert (items + [item])[..|items|] == items && (gaps + [gap])[..|gaps|] == gaps;
  }

  lemma {:induction false} SplitItems(now: Agenda, ids: seq<Id>, gaps: seq<seq<Id>>)
    returns (own: Agenda, inserted: seq<Agenda>)
    requires |gaps| == |ids| + 1 && Ids(now) == Woven(ids, gaps)
    ensures |own| == |ids| && |inserted| == |gaps| && now == Woven(own, inserted)
    ensures forall q :: 0 <= q < |ids| ==> own[q].id == ids[q]
    ensures forall q :: 0 <= q < |gaps| ==> Ids(inserted[q]) == gaps[q]
  {
    hide Ids;
    var n := |ids|;
    if n == 0 {
      own, inserted := [], [now];
    } else {
      var front := Woven(ids[..n - 1], gaps[..n]);
      IdsParts(now, front, ids[n - 1], gaps[n]);
      var own', inserted' := SplitItems(now[..|front|], ids[..n - 1], gaps[..n]);
      own, inserted := own' + [now[|front|]], inserted' + [now[|front| + 1..]];
      WovenNext(own', inserted', now[|front|], now[|front| + 1..]);
    }
  }

  lemma {:induction false} WovenHolds<T>(items: seq<T>, gaps: seq<seq<T>>, q: nat, x: T)
    requires |gaps| == |items| + 1 && q <= |items| && (x in gaps[q] || (q < |items| && x == items[q]))
    ensures x in Woven(items, gaps)
  {
    var n := |items|;
    if q < n - 1 || (q == n - 1 && x in gaps[q]) {
      WovenHolds(items[..n - 1], gaps[..n], q, x);
    }
  }

  lemma ById(now: Agenda, x: AgendaItem)
    requires DistinctIds(now) && x in now
    ensures !Absent(now, x.id) && now[IndexOf(now, x.id)] == x
  {
    var k :| 0 <= k < |now| && now[k] == x;
    Window.IndexInDistinct(now, x.id, k);
  }

  // The theorems.

  /** The block of a placement: its slots, then what it inserted after them. */
  function Block<T>(span: Span, own: seq<T>, inserted: seq<seq<T>>): seq<T>
    requires span.End() <= |own| && |inserted| == |own| + 1
  {
    own[span.c..span.End()] + if span.m < span.n then inserted[span.End()] else []
  }

  /** The block of rule r shows its slice: first in the items that stood there, then
      in new ones. */
  ghost predicate ShowsSlice(job: Job, rules: seq<PlacementRule>, newIds: seq<Id>, s: Setting, r: nat, block: Agenda)
    requires job.Valid() && r < |rules|
  {
    && |block| == Size(job, rules[r])
    && forall i :: 0 <= i < |block| ==> ShowsAt(job, rules, newIds, s, r, block, i)
  }

  ghost predicate ShowsAt(job: Job, rules: seq<PlacementRule>, newIds: seq<Id>, s: Setting, r: nat, block: Agenda, i: nat)
    requires job.Valid() && r < |rules| && i < |block| == Size(job, rules[r])
  {
    var span, j := SpanOf(job, rules[r]), Offset(job, rules, r) + i;
    && (if i < span.m then span.c + i < |job.items| && block[i].id == job.items[span.c + i].id
        else j < |newIds| && block[i].id == newIds[j])
    && Window.ShownAs(block[i], job.resources[job.songIds[SliceStart(rules[r], |job.songIds|) + i]], s)
  }

  /** The original items, each untouched or a slot, and between them the blocks. */
  ghost predicate Rebuilt(job: Job, rules: seq<PlacementRule>, newIds: seq<Id>, s: Setting, own: Agenda, inserted: seq<Agenda>)
    requires job.Valid()
  {
    && |own| == |job.items| && |inserted| == |own| + 1
    && (forall q :: 0 <= q < |own| ==> own[q].id == job.items[q].id)
    && (forall q :: 0 <= q < |own| && !ClaimedBy(job, rules, q) ==> own[q] == job.items[q])
    && (forall q :: 0 <= q <= |own| && NoneInserts(job, rules, q) ==> inserted[q] == [])
    && forall r :: 0 <= r < |rules| ==>
         SpanOf(job, rules[r]).End() <= |own|
         && ShowsSlice(job, rules, newIds, s, r, Block(SpanOf(job, rules[r]), own, inserted))
  }

  lemma PlacedWithoutErrors(job: Job, rules: seq<PlacementRule>, newIds: seq<Id>, s: Setting)
    requires Executable(job, rules, newIds, s)
    ensures Setup(job, newIds, s) && job.Valid()
    ensures !HasErrors(PlaceRules(job, rules).issues) && |PlaceRules(job, rules).drafts| <= |newIds|
  {
    NoEarlierErrors(job, rules, |rules|);
    assert rules[..|rules|] == rules;
    DraftedIsCleaned(job, rules);
  }

  lemma OwnShown(job: Job, p: Planning, newIds: seq<Id>, s: Setting, now: Agenda, item: AgendaItem, j: nat)
    requires AllShown(p.drafts, newIds, now, s) && j < |p.drafts| && DistinctIds(now) && item in now
    requires item.id == Target(p.drafts, newIds, j)
    ensures Window.ShownAs(item, p.drafts[j].body.song, s)
  {
    ById(now, item);
  }

  /** The agenda before cleanup, and the ids in it. */
  ghost predicate Assembled(job: Job, rules: seq<PlacementRule>, newIds: seq<Id>, s: Setting, gaps: seq<seq<Id>>,
                            now: Agenda, own: Agenda, inserted: seq<Agenda>)
  {
    && job.Valid() && DistinctIds(now) && AllShown(PlaceRules(job, rules).drafts, newIds, now, s)
    && |own| == |job.items| && |inserted| == |gaps| == |own| + 1 && now == Woven(own, inserted)
    && (forall q :: 0 <= q < |own| ==> own[q].id == job.items[q].id)
    && forall q :: 0 <= q < |gaps| ==> Ids(inserted[q]) == gaps[q]
  }

  lemma BlockSize(job: Job, rules: seq<PlacementRule>, newIds: seq<Id>, s: Setting, gaps: seq<seq<Id>>,
                  now: Agenda, own: Agenda, inserted: seq<Agenda>, r: nat)
    requires Assembled(job, rules, newIds, s, gaps, now, own, inserted) && r < |rules|
    requires FillsAt(job, rules, newIds, gaps, r) && Places(job, rules, PlaceRules(job, rules).drafts, r)
    ensures SpanOf(job, rules[r]).End() <= |own| && |inserted| == |own| + 1
    ensures |Block(SpanOf(job, rules[r]), own, inserted)| == Size(job, rules[r])
  {
    hide DistinctIds, AllShown, Woven, PlaceRules, SpanOf, Size, PlacesAt;
    var span := SpanOf(job, rules[r]);
    assert span.m < span.n ==> Ids(inserted[span.End()]) == gaps[span.End()];
  }

  /** Where the item of a block stands, and which draft is about it. */
  lemma BlockItem(job: Job, rules: seq<PlacementRule>, newIds: seq<Id>, s: Setting, gaps: seq<seq<Id>>,
                  now: Agenda, own: Agenda, inserted: seq<Agenda>, r: nat, i: nat)
    requires Assembled(job, rules, newIds, s, gaps, now, own, inserted) && r < |rules| && i < Size(job, rules[r])
    requires FillsAt(job, rules, newIds, gaps, r) && Places(job, rules, PlaceRules(job, rules).drafts, r)
    requires SpanOf(job, rules[r]).End() <= |own| && |Block(SpanOf(job, rules[r]), own, inserted)| == Size(job, rules[r])
    ensures var span, j := SpanOf(job, rules[r]), Offset(job, rules, r) + i;
            var drafts, item := PlaceRules(job, rules).drafts, Block(span, own, inserted)[i];
            && item in now && j < |drafts| <= |newIds| && drafts[j].body.PlacesSong()
            && item.id == Target(drafts, newIds, j)
            && (if i < span.m then span.c + i < |job.items| && item.id == job.items[span.c + i].id
                else item.id == newIds[j])
  {
    hide DistinctIds, Woven, PlaceRules, SpanOf, Size, ShowsSong;
    var span, drafts := SpanOf(job, rules[r]), PlaceRules(job, rules).drafts;
    var item := Block(span, own, inserted)[i];
    assert PlacesAt(job.items, drafts, Offset(job, rules, r), span, i);
    if i < span.m {
      assert item == own[span.c + i];
      WovenHolds(own, inserted, span.c + i, item);
    } else {
      assert item == inserted[span.End()][i - span.m] && Ids(inserted[span.End()]) == gaps[span.End()];
      WovenHolds(own, inserted, span.End(), item);
    }
  }

  lemma BlockShown(job: Job, rules: seq<PlacementRule>, newIds: seq<Id>, s: Setting, gaps: seq<seq<Id>>, now: Agenda,
                   own: Agenda, inserted: seq<Agenda>, r: nat)
    requires Executable(job, rules, newIds, s) && Assembled(job, rules, newIds, s, gaps, now, own, inserted) && r < |rules|
    requires FillsAt(job, rules, newIds, gaps, r) && Places(job, rules, PlaceRules(job, rules).drafts, r)
    ensures job.Valid() && SpanOf(job, rules[r]).End() <= |own| && |inserted| == |own| + 1
    ensures ShowsSlice(job, rules, newIds, s, r, Block(SpanOf(job, rules[r]), own, inserted))
  {
    hide Executable, DistinctIds, AllShown, Woven, PlaceRules, SpanOf, Size, Window.ShownAs, FillsAt, Places, Ids, Block;
    BlockSize(job, rules, newIds, s, gaps, now, own, inserted, r);
    var block := Block(SpanOf(job, rules[r]), own, inserted);
    forall i | 0 <= i < |block| ensures ShowsAt(job, rules, newIds, s, r, block, i) {
      BlockItem(job, rules, newIds, s, gaps, now, own, inserted, r, i);
      SizeIs(job, rules[r]);
      SegmentOf(job, rules, newIds, s, r, SliceStart(rules[r], |job.songIds|) + i);
      OwnShown(job, PlaceRules(job, rules), newIds, s, now, block[i], Offset(job, rules, r) + i);
    }
  }

  lemma SizeIs(job: Job, rule: PlacementRule)
    ensures SliceStart(rule, |job.songIds|) + Size(job, rule) == SliceEnd(rule, |job.songIds|)
  {
  }

  lemma AllPlaced(job: Job, rules: seq<PlacementRule>, newIds: seq<Id>, s: Setting) returns (gaps: seq<seq<Id>>)
    requires Executable(job, rules, newIds, s) && Apart(job, rules)
    ensures job.Valid() && Interwoven(job, rules, newIds, s, gaps)
    ensures var p := PlaceRules(job, rules);
            && Runs(job, p.drafts, newIds, s)
            && DistinctIds(After(job, p.drafts, newIds, s).items)
            && UnclaimedUntouched(job.items, p.reserved, After(job, p.drafts, newIds, s).items)
            && AllShown(p.drafts, newIds, After(job, p.drafts, newIds, s).items, s)
  {
    hide Executable, Interwoven, After, DistinctIds, UnclaimedUntouched, AllShown, Runs, Setup;
    PlacedWithoutErrors(job, rules, newIds, s);
    gaps := RulesWeave(job, rules, newIds, s);
    RulesGo(job, rules, newIds, s);
    AfterDistinct(job, PlaceRules(job, rules).drafts, newIds, s);
  }

  lemma UnclaimedStays(job: Job, rules: seq<PlacementRule>, reserved: set<Id>, now: Agenda, item: AgendaItem, q: nat)
    requires q < |job.items| && ReservesClaimed(job, rules, reserved) && !ClaimedBy(job, rules, q)
    requires UnclaimedUntouched(job.items, reserved, now) && DistinctIds(now)
    requires item in now && item.id == job.items[q].id
    ensures item == job.items[q]
  {
    ById(now, item);
  }

  /** Before cleanup the agenda is rebuilt from the original items and the blocks. */
  lemma AgendaIsRebuilt(job: Job, rules: seq<PlacementRule>, newIds: seq<Id>, s: Setting)
    returns (own: Agenda, inserted: seq<Agenda>)
    requires Executable(job, rules, newIds, s) && Apart(job, rules)
    ensures Runs(job, PlaceRules(job, rules).drafts, newIds, s) && Rebuilt(job, rules, newIds, s, own, inserted)
    ensures After(job, PlaceRules(job, rules).drafts, newIds, s).items == Woven(own, inserted)
  {
    hide Executable, Apart, After, DistinctIds, UnclaimedUntouched, AllShown, Runs, Setup, Woven, PlaceRules, SpanOf, Size,
         FillsAt, Places, NoneInserts, ClaimedBy, ReservesClaimed, Window.ShownAs, Placed;
    var gaps := AllPlaced(job, rules, newIds, s);
    var p := PlaceRules(job, rules);
    var now := After(job, p.drafts, newIds, s).items;
    own, inserted := SplitItems(now, Ids(job.items), gaps);
    forall q | 0 <= q < |own| && !ClaimedBy(job, rules, q) ensures own[q] == job.items[q] {
      WovenHolds(own, inserted, q, own[q]);
      UnclaimedStays(job, rules, p.reserved, now, own[q], q);
    }
    forall q | 0 <= q <= |own| && NoneInserts(job, rules, q) ensures inserted[q] == [] {
      assert Ids(inserted[q]) == gaps[q];
    }
    forall r | 0 <= r < |rules|
      ensures SpanOf(job, rules[r]).End() <= |own|
      ensures ShowsSlice(job, rules, newIds, s, r, Block(SpanOf(job, rules[r]), own, inserted))
    {
      BlockShown(job, rules, newIds, s, gaps, now, own, inserted, r);
    }
  }

  /** Any list of placements whose windows are apart, exactly.  The final agenda holds
      the original items, in order, and after the slots of every placement the songs
      it inserted; the block of a placement shows its slice, every item that no
      placement claimed is untouched, and cleanup takes away what it deletes. */
  lemma SlicesAreWoven(job: Job, rules: seq<PlacementRule>, newIds: seq<Id>, s: Setting)
    returns (own: Agenda, inserted: seq<Agenda>)
    requires Executable(job, rules, newIds, s) && Apart(job, rules)
    ensures Rebuilt(job, rules, newIds, s, own, inserted)
    ensures Final(job, rules, newIds, s)
            == Window.Spared(Woven(own, inserted), Drafted(job, rules).drafts, |PlaceRules(job, rules).drafts|)
  {
    hide *;
    own, inserted := AgendaIsRebuilt(job, rules, newIds, s);
    Window.FinalIsSpared(job, rules, newIds, s);
  }

  // One block in it.

  /** Where nothing goes into the first gaps of a window, its items stand side by side. */
  lemma {:induction false} BlockStands<T>(items: seq<T>, gaps: seq<seq<T>>, c: nat, e: nat)
    requires |gaps| == |items| + 1 && c <= e <= |items| && forall q :: c <= q < e ==> gaps[q] == []
    ensures Until(items, gaps, e) == Woven(items[..c], gaps[..c] + [[]]) + items[c..e] + gaps[e]
  {
    if e == c {
      var none := gaps[..c] + [[]];
      assert items[c..c] == [];
      if c == 0 {
        assert items[..0] == [];
      } else {
        assert none[..c] == gaps[..c] == gaps[..c + 1][..c];
      }
    } else {
      BlockStands(items, gaps, c, e - 1);
      assert items[..e][..e - 1] == items[..e - 1] && gaps[..e + 1][..e] == gaps[..e];
      assert items[c..e] == items[c..e - 1] + [items[e - 1]];
      assert gaps[e - 1] == [];
    }
  }

  lemma {:induction false} RestHolds<T>(items: seq<T>, gaps: seq<seq<T>>, e: nat, q: nat)
    requires |gaps| == |items| + 1 && e <= q < |items|
    ensures items[q] in Rest(items, gaps, e)
  {
    if q < |items| - 1 {
      RestHolds(items[..|items| - 1], gaps[..|items|], e, q);
    }
  }

  lemma IdAmong(items: Agenda, item: AgendaItem)
    requires item in items
    ensures item.id in Ids(items)
  {
    var k :| 0 <= k < |items| && items[k] == item;
    assert Ids(items)[k] == item.id;
  }

  lemma FrontHolds(own: Agenda, inserted: seq<Agenda>, c: nat, q: nat)
    requires |inserted| == |own| + 1 && q < c <= |own|
    ensures own[q].id in Ids(Woven(own[..c], inserted[..c] + [[]]))
  {
    WovenHolds(own[..c], inserted[..c] + [[]], q, own[q]);
    IdAmong(Woven(own[..c], inserted[..c] + [[]]), own[q]);
  }

  lemma BackHolds(own: Agenda, inserted: seq<Agenda>, e: nat, q: nat, more: Agenda)
    requires |inserted| == |own| + 1 && e <= q < |own|
    ensures own[q].id in Ids(more + Rest(own, inserted, e))
  {
    RestHolds(own, inserted, e, q);
    IdAmong(more + Rest(own, inserted, e), own[q]);
  }

  /** A block is about the targets of the drafts of its rule. */
  lemma BlockTarget(job: Job, rules: seq<PlacementRule>, newIds: seq<Id>, s: Setting, r: nat, block: Agenda, i: nat)
    requires job.Valid() && r < |rules| && i < |block| == Size(job, rules[r])
    requires Places(job, rules, PlaceRules(job, rules).drafts, r) && |PlaceRules(job, rules).drafts| <= |newIds|
    requires ShowsAt(job, rules, newIds, s, r, block, i)
    ensures Offset(job, rules, r) + i < |PlaceRules(job, rules).drafts|
    ensures Window.TargetIds(PlaceRules(job, rules).drafts, newIds)[Offset(job, rules, r) + i] == block[i].id
  {
    hide SpanOf, Size, PlaceRules, Window.ShownAs;
    assert PlacesAt(job.items, PlaceRules(job, rules).drafts, Offset(job, rules, r), SpanOf(job, rules[r]), i);
  }

  /** Cleanup spares the block. */
  lemma BlockSpared(job: Job, rules: seq<PlacementRule>, newIds: seq<Id>, s: Setting, r: nat, block: Agenda, i: nat)
    requires Executable(job, rules, newIds, s) && job.Valid() && r < |rules| && i < |block| == Size(job, rules[r])
    requires Places(job, rules, PlaceRules(job, rules).drafts, r) && |PlaceRules(job, rules).drafts| <= |newIds|
    requires ShowsAt(job, rules, newIds, s, r, block, i)
    ensures !Deleted(Drafted(job, rules).drafts, |PlaceRules(job, rules).drafts|, block[i].id)
  {
    hide PlaceRules, Drafted, Deleted, Executable, ShowsAt, Places, Size, Window.TargetIds;
    BlockTarget(job, rules, newIds, s, r, block, i);
    Window.ShownIsSpared(job, rules, newIds, s, Offset(job, rules, r) + i);
  }

  /** The gaps inside a window are empty. */
  lemma NothingInside(job: Job, rules: seq<PlacementRule>, r: nat, q: nat)
    requires Apart(job, rules) && r < |rules| && Claims(job, rules[r], q)
    ensures NoneInserts(job, rules, q)
  {
    assert Covers(job, rules[r], q);
    forall r' | 0 <= r' < |rules| ensures !InsertsAt(job, rules[r'], q) {
      assert r' != r ==> !Covers(job, rules[r'], q);
    }
  }

  lemma RegroupInsert<T>(front: seq<T>, slots: seq<T>, gap: seq<T>, rest: seq<T>)
    ensures front + slots + gap + rest == front + (slots + gap) + ([] + rest)
  {
    assert slots + gap + rest == (slots + gap) + ([] + rest);
  }

  lemma RegroupSlots<T>(front: seq<T>, slots: seq<T>, gap: seq<T>, rest: seq<T>)
    ensures front + slots + gap + rest == front + (slots + []) + (gap + rest)
  {
    assert slots + [] == slots;
  }

  /** The parts of the rebuilt agenda around one block. */
  lemma ThreeParts<T>(own: seq<T>, inserted: seq<seq<T>>, span: Span) returns (front: seq<T>, back: seq<T>)
    requires |inserted| == |own| + 1 && span.End() <= |own|
    requires forall q :: span.c <= q < span.End() ==> inserted[q] == []
    ensures Woven(own, inserted) == front + Block(span, own, inserted) + back
    ensures front == Woven(own[..span.c], inserted[..span.c] + [[]])
    ensures back == (if span.m < span.n then [] else inserted[span.End()]) + Rest(own, inserted, span.End())
  {
    hide Woven, Rest, Until;
    var e := span.End();
    SplitWoven(own, inserted, e);
    BlockStands(own, inserted, span.c, e);
    front := Woven(own[..span.c], inserted[..span.c] + [[]]);
    back := (if span.m < span.n then [] else inserted[e]) + Rest(own, inserted, e);
    if span.m < span.n {
      RegroupInsert(front, own[span.c..e], inserted[e], Rest(own, inserted, e));
    } else {
      RegroupSlots(front, own[span.c..e], inserted[e], Rest(own, inserted, e));
    }
  }

  lemma RulePlaces(job: Job, rules: seq<PlacementRule>, newIds: seq<Id>, s: Setting, r: nat)
    requires Executable(job, rules, newIds, s) && Apart(job, rules) && r < |rules|
    ensures job.Valid() && Places(job, rules, PlaceRules(job, rules).drafts, r) && |PlaceRules(job, rules).drafts| <= |newIds|
  {
    hide Executable, Apart, Places, UnclaimedUntouched, AllShown, DistinctIds, After;
    var gaps := AllPlaced(job, rules, newIds, s);
  }

  /** The final agenda around one block. */
  lemma SliceAround(job: Job, rules: seq<PlacementRule>, newIds: seq<Id>, s: Setting, own: Agenda, inserted: seq<Agenda>, r: nat)
    returns (front: Agenda, block: Agenda, back: Agenda)
    requires Executable(job, rules, newIds, s) && Apart(job, rules) && r < |rules|
    requires job.Valid() && Rebuilt(job, rules, newIds, s, own, inserted)
    ensures SpanOf(job, rules[r]).End() <= |own| == |inserted| - 1
    ensures var span, all, k := SpanOf(job, rules[r]), Drafted(job, rules).drafts, |PlaceRules(job, rules).drafts|;
            && Window.Spared(Woven(own, inserted), all, k) == Window.Spared(front, all, k) + block + Window.Spared(back, all, k)
            && front == Woven(own[..span.c], inserted[..span.c] + [[]]) && block == Block(span, own, inserted)
            && back == (if span.m < span.n then [] else inserted[span.End()]) + Rest(own, inserted, span.End())
    ensures ShowsSlice(job, rules, newIds, s, r, block)
  {
    hide Executable, Apart, Woven, Rest, PlaceRules, Drafted, SpanOf, Size, ShowsAt, Places, Window.Spared, Deleted, Block,
         NoneInserts, ClaimedBy;
    var span, all, k := SpanOf(job, rules[r]), Drafted(job, rules).drafts, |PlaceRules(job, rules).drafts|;
    forall q | span.c <= q < span.End() ensures inserted[q] == [] {
      NothingInside(job, rules, r, q);
    }
    front, back := ThreeParts(own, inserted, span);
    block := Block(span, own, inserted);
    RulePlaces(job, rules, newIds, s, r);
    forall j | 0 <= j < |block| ensures !Deleted(all, k, block[j].id) {
      BlockSpared(job, rules, newIds, s, r, block, j);
    }
    Window.SparedThree(front, block, back, all, k);
  }

  /** In the final agenda the songs of every slice stand side by side, in setlist order:
      the items before its window stand before them and the items after it behind,
      apart from what cleanup deletes. */
  lemma SliceStands(job: Job, rules: seq<PlacementRule>, newIds: seq<Id>, s: Setting, r: nat)
    returns (front: Agenda, block: Agenda, back: Agenda)
    requires Executable(job, rules, newIds, s) && Apart(job, rules) && r < |rules|
    ensures var all, k := Drafted(job, rules).drafts, |PlaceRules(job, rules).drafts|;
            Final(job, rules, newIds, s) == Window.Spared(front, all, k) + block + Window.Spared(back, all, k)
    ensures ShowsSlice(job, rules, newIds, s, r, block)
    ensures forall q :: 0 <= q < SpanOf(job, rules[r]).c ==> q < |job.items| && job.items[q].id in Ids(front)
    ensures forall q :: SpanOf(job, rules[r]).End() <= q < |job.items| ==> job.items[q].id in Ids(back)
  {
    hide Executable, Apart, Final, Woven, Rest, PlaceRules, Drafted, SpanOf, ShowsSlice, Ids, Window.Spared, Block,
         NoneInserts, ClaimedBy;
    PlacedWithoutErrors(job, rules, newIds, s);
    var own, inserted := SlicesAreWoven(job, rules, newIds, s);
    front, block, back := SliceAround(job, rules, newIds, s, own, inserted, r);
    var span := SpanOf(job, rules[r]);
    forall q | 0 <= q < span.c ensures q < |job.items| && job.items[q].id in Ids(front) {
      FrontHolds(own, inserted, span.c, q);
    }
    forall q | span.End() <= q < |job.items| ensures job.items[q].id in Ids(back) {
      BackHolds(own, inserted, span.End(), q, if span.m < span.n then [] else inserted[span.End()]);
    }
  }
}
