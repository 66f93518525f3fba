/** Where a placement stands: at the first item that its anchor describes. */
module Anchors {
  import opened Prelude
  import opened Agendas
  import opened Actions
  import opened Layout
  import opened Placements
  import opened PlanTheorems
  import opened Setlist
  import opened Weaving
  import opened Slices
  import opened StandingSongs
  import opened Deletions
  import Window

  /** What an anchor describes: it gives an id, a type or a title that is not empty, and
      whatever it gives holds of the item; titles are compared as normalized text, and
      an item without one has the empty title. */
  predicate Describes(anchor: AgendaAnchor, item: AgendaItem, normalize: string -> string) {
    var title := match item.title case Some(text) => text case None => "";
    && (anchor.itemId.Some? ==> item.id == anchor.itemId.value)
    && (anchor.itemType.Some? ==> item.kind == anchor.itemType.value)
    && (anchor.title.Some? ==> normalize(title) == normalize(anchor.title.value))
    && !(Blank(anchor.itemId) && Blank(anchor.itemType) && Blank(anchor.title))
  }

  predicate Blank(text: Option<string>) { text.None? || |text.value| == 0 }

  predicate DescribesAt(job: Job, rule: PlacementRule, k: int) {
    0 <= k < |job.items| && Describes(rule.anchor, job.items[k], job.normalize)
  }

  lemma MatchDescribes(anchor: AgendaAnchor, item: AgendaItem, normalize: string -> string)
    ensures AnchorMatches(anchor, item, normalize) <==> Describes(anchor, item, normalize)
  {
  }

  lemma {:induction false} FirstOfFilter<T(!new)>(s: seq<T>, p: T -> bool, k: nat)
    requires k < |s| && p(s[k]) && forall i :: 0 <= i < k ==> !p(s[i])
    ensures Filter(s, p) != [] && Filter(s, p)[0] == s[k]
  {
    if k > 0 {
      FirstOfFilter(s[1..], p, k - 1);
    }
  }

  lemma FirstSuch<T(!new)>(s: seq<T>, p: T -> bool) returns (k: nat)
    requires Filter(s, p) != []
    ensures k < |s| && p(s[k]) && forall i :: 0 <= i < k ==> !p(s[i])
  {
    k := FirstIndex(s, p);
    if k == |s| {
      FilterNone(s, p);
    }
  }

  /** The planner's anchor is the first item that is described. */
  lemma AnchorIsFirst(job: Job, rule: PlacementRule) returns (j: nat)
    requires job.Valid() && Matching(rule.anchor, job.items, job.normalize) != []
    ensures DescribesAt(job, rule, j) && forall i :: 0 <= i < j ==> !DescribesAt(job, rule, i)
    ensures AnchorIndex(job.items, Matching(rule.anchor, job.items, job.normalize)) == j
    ensures RuleStart(job, rule).at == if rule.relation == AFTER then j + 1 else j
  {
    var hit := (item: AgendaItem) => AnchorMatches(rule.anchor, item, job.normalize);
    forall i | 0 <= i < |job.items| ensures hit(job.items[i]) <==> DescribesAt(job, rule, i) {
      MatchDescribes(rule.anchor, job.items[i], job.normalize);
    }
    j := FirstSuch(job.items, hit);
    FirstOfFilter(job.items, hit, j);
    ItemStandsAt(job.items, j);
  }

  /** Several items are described only where the first may be taken. */
  lemma SeveralOnlyIfFirst(job: Job, rule: PlacementRule, i: nat, j: nat)
    requires i < j < |job.items| && DescribesAt(job, rule, i) && DescribesAt(job, rule, j)
    ensures |Matching(rule.anchor, job.items, job.normalize)| > 1
  {
    var hit := (item: AgendaItem) => AnchorMatches(rule.anchor, item, job.normalize);
    MatchDescribes(rule.anchor, job.items[i], job.normalize);
    MatchDescribes(rule.anchor, job.items[j], job.normalize);
    var front, back := job.items[..j], job.items[j..];
    assert job.items == front + back && front[i] == job.items[i] && back[0] == job.items[j];
    FilterConcat(front, back, hit);
    FilterMember(front, hit, job.items[i]);
    FilterMember(back, hit, job.items[j]);
  }

  lemma FrontEnds<T>(own: seq<T>, inserted: seq<seq<T>>, c: nat)
    requires |inserted| == |own| + 1 && 0 < c <= |own|
    ensures Woven(own[..c], inserted[..c] + [[]]) == Woven(own[..c - 1], inserted[..c]) + [own[c - 1]]
  {
    var none := inserted[..c] + [[]];
    assert own[..c][..c - 1] == own[..c - 1] && none[..c] == inserted[..c];
    assert Woven(own[..c - 1], inserted[..c]) + [own[c - 1]] + [] == Woven(own[..c - 1], inserted[..c]) + [own[c - 1]];
  }

  /** The agenda right before and right behind the block of a placement. */
  lemma AroundAnchor(own: Agenda, inserted: seq<Agenda>, front: Agenda, back: Agenda, c: nat, j: nat, drafts: seq<Draft>, k: nat)
    requires |inserted| == |own| + 1 && j < |own| && !Deleted(drafts, k, own[j].id)
    requires c == j + 1 || c == j
    requires front == Woven(own[..c], inserted[..c] + [[]]) && (c == j ==> back == [] + Rest(own, inserted, c))
    ensures if c == j then Window.Spared(back, drafts, k) != [] && Window.Spared(back, drafts, k)[0] == own[j]
            else Window.Spared(front, drafts, k) != [] && Window.Spared(front, drafts, k)[|Window.Spared(front, drafts, k)| - 1] == own[j]
  {
    hide Woven, Rest, Window.Spared, Deleted;
    if c == j {
      RestStarts(own, inserted, c);
      var rest := Rest(own, inserted, c);
      assert back == [own[j]] + rest[1..];
      SparedFirst(own[j], rest[1..], drafts, k);
    } else {
      FrontEnds(own, inserted, c);
      SparedLast(Woven(own[..c - 1], inserted[..c]), own[j], drafts, k);
    }
  }

  // In the final agenda.

  /** The first item that the anchor describes. */
  ghost predicate IsAnchor(job: Job, rule: PlacementRule, j: nat) {
    DescribesAt(job, rule, j) && forall i :: 0 <= i < j ==> !DescribesAt(job, rule, i)
  }

  /** The block of a placement stands at its anchor: right behind it if it is AFTER, and
      otherwise right before it -- or, where the anchor is itself a song, the block
      starts with it.  An anchor that cleanup deletes is of course gone. */
  lemma BlockStandsAtAnchor(job: Job, rules: seq<PlacementRule>, newIds: seq<Id>, s: Setting, r: nat)
    returns (j: nat, before: Agenda, block: Agenda, behind: Agenda)
    requires Executable(job, rules, newIds, s) && Apart(job, rules) && r < |rules| && Size(job, rules[r]) > 0
    ensures job.Valid() && IsAnchor(job, rules[r], j)
    ensures Final(job, rules, newIds, s) == before + block + behind && ShowsSlice(job, rules, newIds, s, r, block)
    ensures !PlansDelete(Planned(job, rules), job.items[j].id) ==>
              if rules[r].relation == AFTER then before != [] && before[|before| - 1].id == job.items[j].id
              else if job.items[j].IsSong() then block[0].id == job.items[j].id
              else behind != [] && behind[0].id == job.items[j].id
  {
    hide Executable, Apart, Final, Woven, Rest, PlaceRules, Drafted, SpanOf, ShowsSlice, Window.Spared, Slices.Block, Deleted,
         Matching, NoneInserts, ClaimedBy, DescribesAt, AnchorIndex, PlansDelete, Planned;
    PlacedWithoutErrors(job, rules, newIds, s);
    AdmittedWithout(job, rules, newIds, s, r);
    j := AnchorIsFirst(job, rules[r]);
    AnchorInside(job, rules[r], j);
    var own, inserted := SlicesAreWoven(job, rules, newIds, s);
    var front, back;
    front, block, back := SliceAround(job, rules, newIds, s, own, inserted, r);
    var all, k := Drafted(job, rules).drafts, |PlaceRules(job, rules).drafts|;
    before, behind := Window.Spared(front, all, k), Window.Spared(back, all, k);
    StartOfSpan(job, rules[r], j);
    OwnIds(job, rules, newIds, s, own, inserted, j);
    if !PlansDelete(Planned(job, rules), job.items[j].id) {
      NotDeleted(job, rules, newIds, s, job.items[j].id, k);
      if rules[r].relation == AFTER || !job.items[j].IsSong() {
        AroundAnchor(own, inserted, front, back, SpanOf(job, rules[r]).c, j, all, k);
      } else {
        StartsWithSlot(job, rules, newIds, s, r, block);
      }
    }
  }

  lemma AnchorInside(job: Job, rule: PlacementRule, j: nat)
    requires DescribesAt(job, rule, j)
    ensures j < |job.items|
  {
  }

  lemma OwnIds(job: Job, rules: seq<PlacementRule>, newIds: seq<Id>, s: Setting, own: Agenda, inserted: seq<Agenda>, j: nat)
    requires job.Valid() && Rebuilt(job, rules, newIds, s, own, inserted) && j < |job.items|
    ensures |own| == |job.items| && |inserted| == |own| + 1 && own[j].id == job.items[j].id
  {
  }

  lemma AdmittedWithout(job: Job, rules: seq<PlacementRule>, newIds: seq<Id>, s: Setting, r: nat)
    requires Executable(job, rules, newIds, s) && r < |rules|
    ensures Matching(rules[r].anchor, job.items, job.normalize) != []
  {
    assert rules[..r + 1] == rules[..r] + [rules[r]];
    NoEarlierErrors(job, rules, r + 1);
    LastRule(job, rules[..r], rules[r]);
    RuleAdds(job, rules[r], PlaceRules(job, rules[..r]));
  }

  lemma NotDeleted(job: Job, rules: seq<PlacementRule>, newIds: seq<Id>, s: Setting, id: Id, k: nat)
    requires Executable(job, rules, newIds, s) && job.Valid() && !PlansDelete(Planned(job, rules), id)
    ensures !Deleted(Drafted(job, rules).drafts, k, id)
  {
    DeletedIsPlanned(job, rules, id);
  }

  /** The span starts behind the anchor, or on it; on a song it starts with a slot. */
  lemma StartOfSpan(job: Job, rule: PlacementRule, j: nat)
    requires Matching(rule.anchor, job.items, job.normalize) != [] && Size(job, rule) > 0 && j < |job.items|
    requires RuleStart(job, rule).at == if rule.relation == AFTER then j + 1 else j
    ensures var span := SpanOf(job, rule);
            && span.c == (if rule.relation == AFTER then j + 1 else j)
            && (rule.relation != AFTER ==> if job.items[j].IsSong() then span.m > 0 else span.End() == j && span.m < span.n)
  {
  }

  lemma StartsWithSlot(job: Job, rules: seq<PlacementRule>, newIds: seq<Id>, s: Setting, r: nat, block: Agenda)
    requires job.Valid() && r < |rules| && ShowsSlice(job, rules, newIds, s, r, block) && Size(job, rules[r]) > 0
    requires SpanOf(job, rules[r]).m > 0
    ensures SpanOf(job, rules[r]).c < |job.items| && block != [] && block[0].id == job.items[SpanOf(job, rules[r]).c].id
  {
    hide SpanOf, Size;
    assert ShowsAt(job, rules, newIds, s, r, block, 0);
  }
}
