/** Why a source event is matched or not, exactly, told without the index and the scan;
    and the order in which the source events are taken. */
module MatchReasons {
  import opened Prelude
  import opened Sorting
  import opened EventMatching

  ghost predicate BrokenSelector(profile: Profile, lex: Lexicon) {
    exists k :: 0 <= k < |profile.selectors| && Given(profile.selectors[k].regex) && !lex.valid(profile.selectors[k].regex.value)
  }

  /** A target event at the right time for which a selector's regular expression times out. */
  ghost predicate Stalls(profile: Profile, lex: Lexicon, source: SourceEvent, targets: seq<TargetEvent>) {
    exists t :: t in targets && TimeMatches(profile, lex, source, t) && Wanted(profile, lex, t).TimedOut?
  }

  predicate IsCandidate(profile: Profile, lex: Lexicon, source: SourceEvent, targets: seq<TargetEvent>, t: TargetEvent) {
    t in targets && TimeMatches(profile, lex, source, t) && Wanted(profile, lex, t).Yes?
  }

  ghost predicate SoleCandidate(profile: Profile, lex: Lexicon, source: SourceEvent, targets: seq<TargetEvent>, t: TargetEvent) {
    && IsCandidate(profile, lex, source, targets, t)
    && forall u :: IsCandidate(profile, lex, source, targets, u) ==> u == t
  }

  /** In order of time, and of id where the times are equal; each once. */
  ghost predicate InOrder(events: seq<TargetEvent>) {
    forall i, j :: 0 <= i < j < |events| ==>
      && events[i].id != events[j].id
      && (events[i].startsAt < events[j].startsAt
          || (events[i].startsAt == events[j].startsAt && StringLeq(events[i].id, events[j].id)))
  }

  ghost predicate Lists(profile: Profile, lex: Lexicon, source: SourceEvent, targets: seq<TargetEvent>, all: seq<TargetEvent>) {
    InOrder(all) && forall t :: t in all <==> IsCandidate(profile, lex, source, targets, t)
  }

  /** What a result says of its source event. */
  ghost predicate Explains(profile: Profile, lex: Lexicon, source: SourceEvent, targets: seq<TargetEvent>, m: EventMatch) {
    && m.source == source
    && (m.issue == Some(InvalidSelector) <==> BrokenSelector(profile, lex))
    && (m.issue == Some(RegexTimeout) <==> !BrokenSelector(profile, lex) && Stalls(profile, lex, source, targets))
    && match m.issue
       case None => m.status.READY? && m.target.Some? && SoleCandidate(profile, lex, source, targets, m.target.value)
       case Some(InvalidSelector) => m.status.FAILED? && m.target == None
       case Some(RegexTimeout) => m.status.FAILED? && m.target == None
       case Some(NotFound) =>
         m.status.SKIPPED? && m.target == None && forall t :: !IsCandidate(profile, lex, source, targets, t)
       case Some(ManyCandidates(ids)) =>
         && m.status.AMBIGUOUS? && m.target == None && |ids| > 1
         && exists all: seq<TargetEvent> :: Lists(profile, lex, source, targets, all) && ids == TargetIds(all)
       case Some(TargetReused(id)) =>
         && m.status.AMBIGUOUS? && m.target == None
         && exists t :: SoleCandidate(profile, lex, source, targets, t) && t.id == id
  }

  lemma ListsCandidates(profile: Profile, lex: Lexicon, source: SourceEvent, targets: seq<TargetEvent>)
    requires DistinctTargets(targets)
    ensures Lists(profile, lex, source, targets, Sort(CandidatesOf(profile, lex, source, targets), EventLeq))
  {
    hide TimeMatches, Wanted, Sort, Timely;
    var chosen := CandidatesOf(profile, lex, source, targets);
    var all := Sort(chosen, EventLeq);
    forall t ensures t in all <==> IsCandidate(profile, lex, source, targets, t) {
      SortPermutes(chosen, EventLeq);
      assert t in multiset(all) <==> t in multiset(chosen);
      CandidateIsTarget(profile, lex, source, targets, t);
    }
    EventOrder();
    SortSorts(chosen, EventLeq);
    SortedDiffers(profile, lex, source, targets);
    forall i, j | 0 <= i < j < |all|
      ensures all[i].id != all[j].id && EventLeq(all[i], all[j])
    {
      assert all[i] in all && all[j] in all;
      SameIdSameEvent(targets, all[i], if all[i].id == all[j].id then all[j] else all[i]);
    }
  }

  lemma SortedDiffers(profile: Profile, lex: Lexicon, source: SourceEvent, targets: seq<TargetEvent>)
    requires DistinctTargets(targets)
    ensures NoRepeats(Sort(CandidatesOf(profile, lex, source, targets), EventLeq))
  {
    hide TimeMatches, Wanted, Sort, EventLeq;
    var timely, chosen := Timely(profile, lex, source, targets), CandidatesOf(profile, lex, source, targets);
    TimelyIsDistinct(profile, lex, source, targets);
    FilterNoRepeats(timely, (t: TargetEvent) => Wanted(profile, lex, t).Yes?);
    SortPermutes(chosen, EventLeq);
    ShuffledDiffers(chosen, Sort(chosen, EventLeq));
  }

  lemma ShuffledDiffers<T(!new)>(a: seq<T>, b: seq<T>)
    requires NoRepeats(a) && multiset(a) == multiset(b)
    ensures NoRepeats(b)
  {
    forall i, j | 0 <= i < j < |b| ensures b[i] != b[j] {
      CountNoRepeats(a, b[i]);
      assert b == b[..i] + [b[i]] + b[i + 1..];
      assert b[i + 1..][j - i - 1] == b[j];
      assert multiset(b)[b[i]] >= 1 + multiset(b[i + 1..])[b[i]];
    }
  }

  lemma JudgeExplains(profile: Profile, lex: Lexicon, source: SourceEvent, targets: seq<TargetEvent>)
    requires DistinctTargets(targets) && !BrokenSelector(profile, lex)
    ensures Explains(profile, lex, source, targets, Judge(profile, lex, source, Timely(profile, lex, source, targets)))
  {
    hide TimeMatches, Wanted, Sort, EventLeq, BrokenSelector;
    var timely := Timely(profile, lex, source, targets);
    StallsInside(profile, lex, source, targets);
    if !TimesOut(profile, lex, timely) {
      var all := Sort(CandidatesOf(profile, lex, source, targets), EventLeq);
      ListsCandidates(profile, lex, source, targets);
      if |all| == 1 {
        assert all[0] in all;
      }
      forall t | all == [] ensures !IsCandidate(profile, lex, source, targets, t) {
        assert t !in all;
      }
    }
  }

  lemma StallsInside(profile: Profile, lex: Lexicon, source: SourceEvent, targets: seq<TargetEvent>)
    ensures TimesOut(profile, lex, Timely(profile, lex, source, targets)) <==> Stalls(profile, lex, source, targets)
  {
    hide TimeMatches, Wanted;
    var timely := Timely(profile, lex, source, targets);
    forall t ensures t in timely <==> t in targets && TimeMatches(profile, lex, source, t) {
      FilterMember(targets, (e: TargetEvent) => TimeMatches(profile, lex, source, e), t);
    }
    if t :| t in targets && TimeMatches(profile, lex, source, t) && Wanted(profile, lex, t).TimedOut? {
      var i :| 0 <= i < |timely| && timely[i] == t;
      assert Wanted(profile, lex, timely[i]).TimedOut?;
    }
  }

  /** Every result says truly why it is what it is: each status and each issue is given
      exactly where its reason holds. */
  lemma StatusExactly(profile: Profile, lex: Lexicon, events: seq<SourceEvent>, targets: seq<TargetEvent>, i: nat)
    requires DistinctTargets(targets) && i < |Sources(events)|
    ensures Explains(profile, lex, Sources(events)[i], targets, Matches(profile, lex, events, targets)[i])
  {
    hide Judge, Timely, Sources, IsCandidate, Lists;
    var source := Sources(events)[i];
    BrokenIsInvalid(profile, lex);
    if !BrokenSelector(profile, lex) {
      JudgeExplains(profile, lex, source, targets);
    }
  }

  lemma BrokenIsInvalid(profile: Profile, lex: Lexicon)
    ensures BrokenSelector(profile, lex) <==> HasInvalid(profile, lex)
  {
    if BrokenSelector(profile, lex) {
      var k :| 0 <= k < |profile.selectors| && Given(profile.selectors[k].regex) && !lex.valid(profile.selectors[k].regex.value);
      assert profile.selectors[k].regex.value != "";
    }
    if HasInvalid(profile, lex) {
      var i :| 0 <= i < |profile.selectors| && profile.selectors[i].regex.Some?
               && profile.selectors[i].regex.value != "" && !lex.valid(profile.selectors[i].regex.value);
      assert Given(profile.selectors[i].regex);
    }
  }

  // The order of the sources.

  ghost predicate IsFirst(starts: seq<Instant>, t: Instant) {
    t in starts && forall k :: 0 <= k < |starts| ==> t <= starts[k]
  }

  lemma {:induction false} EarliestIsFirst(starts: seq<Instant>)
    requires starts != []
    ensures IsFirst(starts, Earliest(starts))
  {
    if |starts| > 1 {
      EarliestIsFirst(starts[1..]);
      assert forall k :: 0 < k < |starts| ==> starts[k] == starts[1..][k - 1];
    }
  }

  lemma {:induction false} FilterSorted<T(!new)>(s: seq<T>, p: T -> bool, leq: (T, T) -> bool)
    requires Sorted(s, leq)
    ensures Sorted(Filter(s, p), leq)
  {
    if s != [] {
      FilterSorted(s[1..], p, leq);
      var rest := Filter(s[1..], p);
      forall j | 0 <= j < |rest| ensures leq(s[0], rest[j]) {
        FilterMember(s[1..], p, rest[j]);
        var k :| 0 <= k < |s[1..]| && s[1..][k] == rest[j];
        assert leq(s[0], s[k + 1]);
      }
    }
  }

  /** Results come in order of the first start, and of id where those are equal. */
  lemma SourcesInOrder(events: seq<SourceEvent>, i: nat, j: nat, x: Instant, y: Instant)
    requires i < j < |Sources(events)|
    requires IsFirst(Sources(events)[i].startsAt, x) && IsFirst(Sources(events)[j].startsAt, y)
    ensures x < y || (x == y && StringLeq(Sources(events)[i].id, Sources(events)[j].id))
  {
    hide Sort;
    SourceOrder();
    SortSorts(events, SourceLeq);
    FilterSorted(Sort(events, SourceLeq), (e: SourceEvent) => e.songIds != [], SourceLeq);
    var a, b := Sources(events)[i], Sources(events)[j];
    assert SourceLeq(a, b);
    EarliestIsFirst(a.startsAt);
    EarliestIsFirst(b.startsAt);
  }
}
