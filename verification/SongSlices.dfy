/** Which songs a placement is for: the bounds of its slice count from the front, or
    from the end where they are negative, as in a Python slice. */
module SongSlices {
  import opened Prelude
  import opened Agendas
  import opened Actions
  import opened Layout
  import opened Placements
  import opened PlanTheorems
  import opened Setlist
  import opened Slices
  import Window

  /** A start of b >= 0 leaves out the first b songs; a negative one keeps the last -b. */
  predicate FromStart(start: int, n: nat, i: nat) {
    if start >= 0 then i >= start else n - i <= -start
  }

  /** An end of b >= 0 keeps the first b songs; a negative one leaves out the last -b. */
  predicate BeforeEnd(end: Option<int>, n: nat, i: nat) {
    end.Some? ==> if end.value >= 0 then i < end.value else n - i > -end.value
  }

  predicate Selects(rule: PlacementRule, n: nat, i: nat) {
    i < n && FromStart(rule.songStart, n, i) && BeforeEnd(rule.songEnd, n, i)
  }

  /** The selected songs, in setlist order. */
  function Selected(rule: PlacementRule, songIds: seq<Id>): seq<Id> { SelectedOf(rule, songIds, |songIds|) }

  /** Those among the first k. */
  function SelectedOf(rule: PlacementRule, songIds: seq<Id>, k: nat): (chosen: seq<Id>)
    requires k <= |songIds|
    ensures forall i :: 0 <= i < |chosen| ==> chosen[i] in songIds
  {
    if k == 0 then []
    else SelectedOf(rule, songIds, k - 1) + (if Selects(rule, |songIds|, k - 1) then [songIds[k - 1]] else [])
  }

  /** The range that the planner walks through is the selection, for bounds of any sign
      and size. */
  lemma RangeIsSelection(rule: PlacementRule, n: nat, i: nat)
    ensures SliceStart(rule, n) <= i < SliceEnd(rule, n) <==> Selects(rule, n, i)
    ensures i in Indexes(rule, n) <==> Selects(rule, n, i)
  {
  }

  lemma {:induction false} SelectedIsRange(rule: PlacementRule, songIds: seq<Id>, k: nat)
    requires k <= |songIds|
    ensures var lo, hi := SliceStart(rule, |songIds|), SliceEnd(rule, |songIds|);
            SelectedOf(rule, songIds, k) == if k <= lo then [] else songIds[lo..if k < hi then k else hi]
  {
    var lo, hi := SliceStart(rule, |songIds|), SliceEnd(rule, |songIds|);
    if k > 0 {
      SelectedIsRange(rule, songIds, k - 1);
      RangeIsSelection(rule, |songIds|, k - 1);
      if lo < k <= hi {
        assert songIds[lo..k] == songIds[lo..k - 1] + [songIds[k - 1]];
      }
    }
  }

  lemma SelectedAt(rule: PlacementRule, songIds: seq<Id>)
    ensures var lo, hi := SliceStart(rule, |songIds|), SliceEnd(rule, |songIds|);
            && |Selected(rule, songIds)| == hi - lo
            && forall i :: 0 <= i < hi - lo ==> Selected(rule, songIds)[i] == songIds[lo + i]
  {
    SelectedIsRange(rule, songIds, |songIds|);
  }

  // In the plan.

  predicate IsFor(action: Body, song: SongRef) { action.PlacesSong() && action.song == song }

  /** For every selected song, and for no other, the placement makes one action, in
      setlist order. */
  lemma OneActionEach(job: Job, rules: seq<PlacementRule>, newIds: seq<Id>, s: Setting, r: nat)
    requires Executable(job, rules, newIds, s) && r < |rules|
    ensures job.Valid() && Offset(job, rules, r + 1) == Offset(job, rules, r) + |Selected(rules[r], job.songIds)|
    ensures Offset(job, rules, r + 1) <= |Planned(job, rules)|
    ensures forall i :: 0 <= i < |Selected(rules[r], job.songIds)| ==>
              IsFor(Planned(job, rules)[Offset(job, rules, r) + i], job.resources[Selected(rules[r], job.songIds)[i]])
  {
    hide Executable, Drafted, PlaceRules, Offset, SliceStart, SliceEnd;
    PlacedWithoutErrors(job, rules, newIds, s);
    SelectedAt(rules[r], job.songIds);
    var lo, hi := SliceStart(rules[r], |job.songIds|), SliceEnd(rules[r], |job.songIds|);
    RuleActions(job, rules, newIds, s, r);
    forall i | 0 <= i < |Selected(rules[r], job.songIds)|
      ensures IsFor(Planned(job, rules)[Offset(job, rules, r) + i], job.resources[Selected(rules[r], job.songIds)[i]])
    {
      ActionOf(job, rules, newIds, s, r, lo + i);
    }
  }

  lemma RuleActions(job: Job, rules: seq<PlacementRule>, newIds: seq<Id>, s: Setting, r: nat)
    requires Executable(job, rules, newIds, s) && r < |rules| && job.Valid()
    ensures Offset(job, rules, r + 1)
            == Offset(job, rules, r) + (SliceEnd(rules[r], |job.songIds|) - SliceStart(rules[r], |job.songIds|))
    ensures Offset(job, rules, r + 1) <= |Planned(job, rules)|
  {
    DraftedIsCleaned(job, rules);
    RuleSpan(job, rules, r);
  }

  lemma ActionOf(job: Job, rules: seq<PlacementRule>, newIds: seq<Id>, s: Setting, r: nat, i: nat)
    requires Executable(job, rules, newIds, s) && r < |rules| && job.Valid()
    requires SliceStart(rules[r], |job.songIds|) <= i < SliceEnd(rules[r], |job.songIds|)
    ensures var j := Offset(job, rules, r) + (i - SliceStart(rules[r], |job.songIds|));
            j < |Planned(job, rules)| && Planned(job, rules)[j].PlacesSong()
            && Planned(job, rules)[j].song == job.resources[job.songIds[i]]
  {
    SegmentOf(job, rules, newIds, s, r, i);
    var j := ActionIndex(job, rules, r, i);
    assert Planned(job, rules)[j] == Drafted(job, rules).drafts[j].body;
  }

  // In the agenda.

  /** Every selected song of every placement is shown in the final agenda. */
  lemma SelectedAreShown(job: Job, rules: seq<PlacementRule>, newIds: seq<Id>, s: Setting, r: nat, i: nat)
    requires Executable(job, rules, newIds, s) && r < |rules| && Selects(rules[r], |job.songIds|, i)
    ensures job.Valid()
    ensures exists k :: 0 <= k < |Final(job, rules, newIds, s)|
              && Window.ShownAs(Final(job, rules, newIds, s)[k], job.resources[job.songIds[i]], s)
  {
    RangeIsSelection(rules[r], |job.songIds|, i);
    SetlistIsShown(job, rules, newIds, s, r, i);
  }

  /** The block of a placement shows the selected songs, all of them and no other, in
      setlist order. */
  lemma BlockShowsSelected(job: Job, rules: seq<PlacementRule>, newIds: seq<Id>, s: Setting, r: nat)
    returns (front: Agenda, block: Agenda, back: Agenda)
    requires Executable(job, rules, newIds, s) && Apart(job, rules) && r < |rules|
    ensures job.Valid()
    ensures var all, k := Drafted(job, rules).drafts, |PlaceRules(job, rules).drafts|;
            Final(job, rules, newIds, s) == Window.Spared(front, all, k) + block + Window.Spared(back, all, k)
    ensures |block| == |Selected(rules[r], job.songIds)|
    ensures forall i :: 0 <= i < |block| ==>
              Window.ShownAs(block[i], job.resources[Selected(rules[r], job.songIds)[i]], s)
  {
    hide Executable, Apart, Final, Drafted, PlaceRules, SpanOf, Selected, Window.Spared, Window.ShownAs, SliceStart, SliceEnd;
    PlacedWithoutErrors(job, rules, newIds, s);
    front, block, back := SliceStands(job, rules, newIds, s, r);
    SelectedAt(rules[r], job.songIds);
    forall i | 0 <= i < |block|
      ensures Window.ShownAs(block[i], job.resources[Selected(rules[r], job.songIds)[i]], s)
    {
      assert ShowsAt(job, rules, newIds, s, r, block, i);
    }
  }

  /** A placement from -k on, with an open end, is for the last k songs of the setlist. */
  lemma LastSongs(job: Job, rules: seq<PlacementRule>, newIds: seq<Id>, s: Setting, r: nat, k: int)
    returns (front: Agenda, block: Agenda, back: Agenda)
    requires Executable(job, rules, newIds, s) && Apart(job, rules) && r < |rules|
    requires 0 < k <= |job.songIds| && rules[r].songStart == -k && rules[r].songEnd.None?
    ensures job.Valid()
    ensures var all, n := Drafted(job, rules).drafts, |PlaceRules(job, rules).drafts|;
            Final(job, rules, newIds, s) == Window.Spared(front, all, n) + block + Window.Spared(back, all, n)
    ensures |block| == k
    ensures forall i :: 0 <= i < k ==>
              Window.ShownAs(block[i], job.resources[job.songIds[|job.songIds| - k + i]], s)
  {
    hide Executable, Apart, Final, Drafted, PlaceRules, Window.Spared, Window.ShownAs, Selected;
    front, block, back := BlockShowsSelected(job, rules, newIds, s, r);
    SelectedAt(rules[r], job.songIds);
  }

  /** A placement from the first song to -k is for all but the last k songs. */
  lemma AllButLast(job: Job, rules: seq<PlacementRule>, newIds: seq<Id>, s: Setting, r: nat, k: int)
    returns (front: Agenda, block: Agenda, back: Agenda)
    requires Executable(job, rules, newIds, s) && Apart(job, rules) && r < |rules|
    requires 0 < k <= |job.songIds| && rules[r].songStart == 0 && rules[r].songEnd == Some(-k)
    ensures job.Valid()
    ensures var all, n := Drafted(job, rules).drafts, |PlaceRules(job, rules).drafts|;
            Final(job, rules, newIds, s) == Window.Spared(front, all, n) + block + Window.Spared(back, all, n)
    ensures |block| == |job.songIds| - k
    ensures forall i :: 0 <= i < |block| ==> Window.ShownAs(block[i], job.resources[job.songIds[i]], s)
  {
    hide Executable, Apart, Final, Drafted, PlaceRules, Window.Spared, Window.ShownAs, Selected;
    front, block, back := BlockShowsSelected(job, rules, newIds, s, r);
    SelectedAt(rules[r], job.songIds);
  }
}
