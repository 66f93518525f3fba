/** Which source event goes with which target event (matching.py, match_events): a
    time index over the target events, selectors, ambiguity, and the rule that no
    target is written for two sources. */
module EventMatching {
  import opened Prelude
  import opened Sorting
  import SongMatching

  type Id = string
  type Instant = int

  datatype SourceEvent = SourceEvent(id: Id, startsAt: seq<Instant>, songIds: seq<Id>)
  datatype TargetEvent = TargetEvent(id: Id, startsAt: Instant, name: string, campus: Option<Id>, calendar: Option<Id>)

  datatype Selector = Selector(campuses: seq<Id>, calendars: seq<Id>, regex: Option<string>, contains: Option<string>)

  datatype Answer = Yes | No | TimedOut

  /** Time zones, text and regular expressions, as the libraries answer. */
  datatype Lexicon = Lexicon(
    sourceDay: Instant -> int, targetDay: Instant -> int,
    normalize: string -> string, search: (string, string) -> Answer, occurs: (string, string) -> bool,
    valid: string -> bool)

  datatype Profile = Profile(exactTime: bool, selectors: seq<Selector>)

  datatype Verdict = READY | AMBIGUOUS | FAILED | SKIPPED
  datatype Issue = InvalidSelector | RegexTimeout | NotFound | ManyCandidates(ids: seq<Id>) | TargetReused(id: Id)
  datatype EventMatch = EventMatch(source: SourceEvent, target: Option<TargetEvent>, status: Verdict, issue: Option<Issue>)

  /** What the index is keyed by: the instant, or the local day. */
  datatype Key = At(instant: Instant) | On(day: int)

  function SourceKey(profile: Profile, lex: Lexicon, start: Instant): Key {
    if profile.exactTime then At(start) else On(lex.sourceDay(start))
  }

  function TargetKey(profile: Profile, lex: Lexicon, target: TargetEvent): Key {
    if profile.exactTime then At(target.startsAt) else On(lex.targetDay(target.startsAt))
  }

  /** `_event_time_matches`. */
  predicate TimeMatches(profile: Profile, lex: Lexicon, source: SourceEvent, target: TargetEvent) {
    exists i :: 0 <= i < |source.startsAt| && SourceKey(profile, lex, source.startsAt[i]) == TargetKey(profile, lex, target)
  }

  /** `selector_matches`, with the order in which it gives up. */
  function Selects(selector: Selector, lex: Lexicon, event: TargetEvent): Answer {
    if selector.campuses != [] && !(event.campus.Some? && event.campus.value in selector.campuses) then No
    else if selector.calendars != [] && !(event.calendar.Some? && event.calendar.value in selector.calendars) then No
    else
      var found := if selector.regex.Some? && selector.regex.value != "" then lex.search(selector.regex.value, event.name) else Yes;
      if !found.Yes? then found
      else if selector.contains.Some? && selector.contains.value != ""
              && !lex.occurs(lex.normalize(selector.contains.value), lex.normalize(event.name)) then No
      else Yes
  }

  /** Python's `any`: the first yes decides, a timeout before it is raised. */
  function AnySelects(selectors: seq<Selector>, lex: Lexicon, event: TargetEvent): Answer {
    if selectors == [] then No
    else if Selects(selectors[0], lex, event).No? then AnySelects(selectors[1..], lex, event)
    else Selects(selectors[0], lex, event)
  }

  function Wanted(profile: Profile, lex: Lexicon, event: TargetEvent): Answer {
    if profile.selectors == [] then Yes else AnySelects(profile.selectors, lex, event)
  }

  function EventLeq(a: TargetEvent, b: TargetEvent): bool {
    a.startsAt < b.startsAt || (a.startsAt == b.startsAt && StringLeq(a.id, b.id))
  }

  // The plain specification: scan all targets.

  function Timely(profile: Profile, lex: Lexicon, source: SourceEvent, targets: seq<TargetEvent>): seq<TargetEvent> {
    Filter(targets, (t: TargetEvent) => TimeMatches(profile, lex, source, t))
  }

  predicate TimesOut(profile: Profile, lex: Lexicon, events: seq<TargetEvent>) {
    exists i :: 0 <= i < |events| && Wanted(profile, lex, events[i]).TimedOut?
  }

  function Selected(profile: Profile, lex: Lexicon, events: seq<TargetEvent>): seq<TargetEvent> {
    Filter(events, (t: TargetEvent) => Wanted(profile, lex, t).Yes?)
  }

  function TargetIds(events: seq<TargetEvent>): seq<Id> {
    seq(|events|, i requires 0 <= i < |events| => events[i].id)
  }

  /** One source event, before targets claimed twice are withdrawn. */
  function Judge(profile: Profile, lex: Lexicon, source: SourceEvent, timely: seq<TargetEvent>): EventMatch {
    if TimesOut(profile, lex, timely) then EventMatch(source, None, FAILED, Some(RegexTimeout))
    else
      var candidates := Sort(Selected(profile, lex, timely), EventLeq);
      if candidates == [] then EventMatch(source, None, SKIPPED, Some(NotFound))
      else if |candidates| > 1 then EventMatch(source, None, AMBIGUOUS, Some(ManyCandidates(TargetIds(candidates))))
      else EventMatch(source, Some(candidates[0]), READY, None)
  }

  function SourceLeq(a: SourceEvent, b: SourceEvent): bool {
    var x, y := Earliest(a.startsAt), Earliest(b.startsAt);
    x < y || (x == y && StringLeq(a.id, b.id))
  }

  /** `min`; every source event has a start. */
  function Earliest(starts: seq<Instant>): Instant {
    if starts == [] then 0
    else if |starts| == 1 then starts[0]
    else
      var rest := Earliest(starts[1..]);
      if starts[0] < rest then starts[0] else rest
  }

  /** The source events to judge: those with songs, in order of start and id. */
  function Sources(events: seq<SourceEvent>): seq<SourceEvent> {
    Filter(Sort(events, SourceLeq), (e: SourceEvent) => e.songIds != [])
  }

  function Preliminary(profile: Profile, lex: Lexicon, sources: seq<SourceEvent>, targets: seq<TargetEvent>): (r: seq<EventMatch>)
    ensures |r| == |sources|
    ensures forall i :: 0 <= i < |sources| ==> r[i] == Judge(profile, lex, sources[i], Timely(profile, lex, sources[i], targets))
  {
    seq(|sources|, i requires 0 <= i < |sources| =>
      Judge(profile, lex, sources[i], Timely(profile, lex, sources[i], targets)))
  }

  function CountOf(matches: seq<EventMatch>, id: Id): nat {
    if matches == [] then 0
    else
      var last := matches[|matches| - 1];
      CountOf(matches[..|matches| - 1], id) + (if last.target.Some? && last.target.value.id == id then 1 else 0)
  }

  function Withdrawn(m: EventMatch, matches: seq<EventMatch>): EventMatch {
    if m.target.Some? && CountOf(matches, m.target.value.id) > 1
    then EventMatch(m.source, None, AMBIGUOUS, Some(TargetReused(m.target.value.id)))
    else m
  }

  /** A selector whose regular expression is too long or does not compile. */
  predicate HasInvalid(profile: Profile, lex: Lexicon) {
    exists i :: 0 <= i < |profile.selectors| && profile.selectors[i].regex.Some?
                && profile.selectors[i].regex.value != "" && !lex.valid(profile.selectors[i].regex.value)
  }

  function Final(matches: seq<EventMatch>): (r: seq<EventMatch>)
    ensures |r| == |matches|
    ensures forall i :: 0 <= i < |matches| ==> r[i] == Withdrawn(matches[i], matches)
  {
    seq(|matches|, i requires 0 <= i < |matches| => Withdrawn(matches[i], matches))
  }

  function AllFailed(sources: seq<SourceEvent>): (r: seq<EventMatch>)
    ensures |r| == |sources|
    ensures forall i :: 0 <= i < |sources| ==> r[i] == EventMatch(sources[i], None, FAILED, Some(InvalidSelector))
  {
    seq(|sources|, i requires 0 <= i < |sources| => EventMatch(sources[i], None, FAILED, Some(InvalidSelector)))
  }

  function Matches(profile: Profile, lex: Lexicon, events: seq<SourceEvent>, targets: seq<TargetEvent>): (r: seq<EventMatch>)
    ensures |r| == |Sources(events)|
  {
    if HasInvalid(profile, lex) then AllFailed(Sources(events))
    else Final(Preliminary(profile, lex, Sources(events), targets))
  }

  // The loops.

  function Keyed(profile: Profile, lex: Lexicon, targets: seq<TargetEvent>, key: Key): seq<TargetEvent> {
    Filter(targets, (t: TargetEvent) => TargetKey(profile, lex, t) == key)
  }

  ghost predicate Indexes(profile: Profile, lex: Lexicon, index: map<Key, seq<TargetEvent>>, targets: seq<TargetEvent>) {
    forall key: Key :: SongMatching.Bucket(index, key) == Keyed(profile, lex, targets, key)
  }

  lemma IndexNext(profile: Profile, lex: Lexicon, targets: seq<TargetEvent>, t: TargetEvent, key: Key)
    ensures Keyed(profile, lex, targets + [t], key)
            == Keyed(profile, lex, targets, key) + (if TargetKey(profile, lex, t) == key then [t] else [])
  {
    FilterConcat(targets, [t], (e: TargetEvent) => TargetKey(profile, lex, e) == key);
  }

  /** `_index_target_events`. */
  method IndexTargets(profile: Profile, lex: Lexicon, targets: seq<TargetEvent>) returns (index: map<Key, seq<TargetEvent>>)
    ensures Indexes(profile, lex, index, targets)
  {
    index := map[];
    var k := 0;
    while k < |targets|
      invariant 0 <= k <= |targets|
      invariant Indexes(profile, lex, index, targets[..k])
    {
      var key := TargetKey(profile, lex, targets[k]);
      index := index[key := SongMatching.Bucket(index, key) + [targets[k]]];
      assert targets[..k + 1] == targets[..k] + [targets[k]];
      forall other: Key
        ensures SongMatching.Bucket(index, other) == Keyed(profile, lex, targets[..k + 1], other)
      {
        IndexNext(profile, lex, targets[..k], targets[k], other);
      }
      k := k + 1;
    }
    assert targets[..k] == targets;
  }

  ghost predicate DistinctTargets(targets: seq<TargetEvent>) {
    forall i, j :: 0 <= i < j < |targets| ==> targets[i].id != targets[j].id
  }

  /** Python's `d[event.id] = event`, with the entries in order of insertion. */
  function Put(events: seq<TargetEvent>, event: TargetEvent): seq<TargetEvent> {
    var k := FirstIndex(events, (e: TargetEvent) => e.id == event.id);
    if k < |events| then events[k := event] else events + [event]
  }

  ghost predicate NoRepeats<T>(s: seq<T>) {
    forall i, j :: 0 <= i < j < |s| ==> s[i] != s[j]
  }

  /** Among distinct target events, an entry is only ever replaced by itself. */
  lemma PutAdds(targets: seq<TargetEvent>, events: seq<TargetEvent>, event: TargetEvent)
    requires DistinctTargets(targets) && event in targets && forall e :: e in events ==> e in targets
    requires NoRepeats(events)
    ensures NoRepeats(Put(events, event))
    ensures forall e :: e in Put(events, event) <==> e in events || e == event
  {
    var k := FirstIndex(events, (e: TargetEvent) => e.id == event.id);
    if k < |events| {
      SameIdSameEvent(targets, events[k], event);
      assert events[k := event] == events;
    } else {
      assert event !in events;
    }
  }

  lemma SameIdSameEvent(targets: seq<TargetEvent>, a: TargetEvent, b: TargetEvent)
    requires DistinctTargets(targets) && a in targets && b in targets && a.id == b.id
    ensures a == b
  {
  }

  lemma {:induction false} CountNoRepeats<T>(s: seq<T>, x: T)
    requires NoRepeats(s)
    ensures multiset(s)[x] == if x in s then 1 else 0
  {
    if s != [] {
      CountNoRepeats(s[1..], x);
      assert s == [s[0]] + s[1..];
    }
  }

  lemma SameMembers<T>(a: seq<T>, b: seq<T>)
    requires NoRepeats(a) && NoRepeats(b) && forall x :: x in a <==> x in b
    ensures multiset(a) == multiset(b)
  {
    forall x ensures multiset(a)[x] == multiset(b)[x] {
      CountNoRepeats(a, x);
      CountNoRepeats(b, x);
    }
  }

  lemma {:induction false} FilterNoRepeats<T(!new)>(s: seq<T>, p: T -> bool)
    requires NoRepeats(s)
    ensures NoRepeats(Filter(s, p))
  {
    if s != [] {
      FilterNoRepeats(s[1..], p);
      var rest := Filter(s[1..], p);
      forall j | 0 <= j < |rest| ensures rest[j] != s[0] {
        FilterMember(s[1..], p, rest[j]);
      }
    }
  }

  /** `_candidate_events`: it finds exactly the target events that a scan finds. */
  method Candidates(profile: Profile, lex: Lexicon, source: SourceEvent, index: map<Key, seq<TargetEvent>>,
                    ghost targets: seq<TargetEvent>) returns (events: seq<TargetEvent>)
    requires Indexes(profile, lex, index, targets) && DistinctTargets(targets)
    ensures multiset(events) == multiset(Timely(profile, lex, source, targets))
  {
    events := [];
    var k := 0;
    while k < |source.startsAt|
      invariant 0 <= k <= |source.startsAt|
      invariant NoRepeats(events)
      invariant forall t :: t in events <==> t in targets && Reaches(profile, lex, source, k, t)
    {
      var key := SourceKey(profile, lex, source.startsAt[k]);
      var bucket := SongMatching.Bucket(index, key);
      ghost var before := events;
      var i := 0;
      while i < |bucket|
        invariant 0 <= i <= |bucket|
        invariant NoRepeats(events)
        invariant forall t :: t in events <==> t in before || t in bucket[..i]
      {
        BucketIsTargets(profile, lex, targets, key, bucket[i]);
        forall e | e in events ensures e in targets {
          BucketIsTargets(profile, lex, targets, key, e);
        }
        PutAdds(targets, events, bucket[i]);
        events := Put(events, bucket[i]);
        assert bucket[..i + 1] == bucket[..i] + [bucket[i]];
        i := i + 1;
      }
      assert bucket[..i] == bucket;
      forall t ensures t in events <==> t in targets && Reaches(profile, lex, source, k + 1, t) {
        BucketIsTargets(profile, lex, targets, key, t);
        ReachesNext(profile, lex, source, k, t);
      }
      k := k + 1;
    }
    forall t ensures t in events <==> t in Timely(profile, lex, source, targets) {
      FilterMember(targets, (e: TargetEvent) => TimeMatches(profile, lex, source, e), t);
    }
    FilterNoRepeats(targets, (e: TargetEvent) => TimeMatches(profile, lex, source, e));
    SameMembers(events, Timely(profile, lex, source, targets));
  }

  lemma BucketIsTargets(profile: Profile, lex: Lexicon, targets: seq<TargetEvent>, key: Key, t: TargetEvent)
    ensures t in Keyed(profile, lex, targets, key) <==> t in targets && TargetKey(profile, lex, t) == key
  {
    FilterMember(targets, (e: TargetEvent) => TargetKey(profile, lex, e) == key, t);
  }

  /** One of the first k starts matches. */
  ghost predicate Reaches(profile: Profile, lex: Lexicon, source: SourceEvent, k: nat, t: TargetEvent) {
    exists i :: 0 <= i < k && i < |source.startsAt| && SourceKey(profile, lex, source.startsAt[i]) == TargetKey(profile, lex, t)
  }

  lemma ReachesNext(profile: Profile, lex: Lexicon, source: SourceEvent, k: nat, t: TargetEvent)
    requires k < |source.startsAt|
    ensures Reaches(profile, lex, source, k + 1, t)
            <==> Reaches(profile, lex, source, k, t)
                 || SourceKey(profile, lex, source.startsAt[k]) == TargetKey(profile, lex, t)
  {
  }

  /** One source event, over the candidates in whatever order they were found. */
  method JudgeOne(profile: Profile, lex: Lexicon, source: SourceEvent, index: map<Key, seq<TargetEvent>>,
                  ghost targets: seq<TargetEvent>) returns (m: EventMatch)
    requires Indexes(profile, lex, index, targets) && DistinctTargets(targets)
    ensures m == Judge(profile, lex, source, Timely(profile, lex, source, targets))
  {
    var events := Candidates(profile, lex, source, index, targets);
    var chosen: seq<TargetEvent> := [];
    var k := 0;
    TimelyIsDistinct(profile, lex, source, targets);
    JudgePermutes(profile, lex, source, events, Timely(profile, lex, source, targets));
    while k < |events|
      invariant 0 <= k <= |events|
      invariant forall i :: 0 <= i < k ==> !Wanted(profile, lex, events[i]).TimedOut?
      invariant chosen == Selected(profile, lex, events[..k])
    {
      var answer := Wanted(profile, lex, events[k]);
      if answer.TimedOut? {
        return EventMatch(source, None, FAILED, Some(RegexTimeout));
      }
      SelectedNext(profile, lex, events[..k], events[k]);
      assert events[..k + 1] == events[..k] + [events[k]];
      if answer.Yes? {
        chosen := chosen + [events[k]];
      }
      k := k + 1;
    }
    assert events[..k] == events;
    var candidates := Sort(chosen, EventLeq);
    if candidates == [] {
      m := EventMatch(source, None, SKIPPED, Some(NotFound));
    } else if |candidates| > 1 {
      m := EventMatch(source, None, AMBIGUOUS, Some(ManyCandidates(TargetIds(candidates))));
    } else {
      m := EventMatch(source, Some(candidates[0]), READY, None);
    }
  }

  lemma {:induction false} TimelyIsDistinct(profile: Profile, lex: Lexicon, source: SourceEvent, targets: seq<TargetEvent>)
    requires DistinctTargets(targets)
    ensures DistinctTargets(Timely(profile, lex, source, targets))
  {
    var timely := (t: TargetEvent) => TimeMatches(profile, lex, source, t);
    FilterNoRepeats(targets, timely);
    forall i, j | 0 <= i < j < |Timely(profile, lex, source, targets)|
      ensures Timely(profile, lex, source, targets)[i].id != Timely(profile, lex, source, targets)[j].id
    {
      FilterMember(targets, timely, Timely(profile, lex, source, targets)[i]);
      FilterMember(targets, timely, Timely(profile, lex, source, targets)[j]);
    }
  }

  lemma SelectedNext(profile: Profile, lex: Lexicon, events: seq<TargetEvent>, t: TargetEvent)
    ensures Selected(profile, lex, events + [t])
            == Selected(profile, lex, events) + (if Wanted(profile, lex, t).Yes? then [t] else [])
  {
    FilterConcat(events, [t], (e: TargetEvent) => Wanted(profile, lex, e).Yes?);
  }

  lemma EventOrder()
    ensures Preorder(EventLeq)
    ensures forall a, b :: EventLeq(a, b) && EventLeq(b, a) ==> a.id == b.id
  {
    StringOrder();
  }

  lemma NoTiedTargets(targets: seq<TargetEvent>, events: seq<TargetEvent>)
    requires DistinctTargets(targets) && forall e :: e in events ==> e in targets
    ensures NoTies(events, EventLeq)
  {
    EventOrder();
    forall a, b | a in events && b in events && EventLeq(a, b) && EventLeq(b, a) ensures a == b {
      SameIdSameEvent(targets, a, b);
    }
  }

  /** The verdict does not depend on the order in which candidates are found. */
  lemma JudgePermutes(profile: Profile, lex: Lexicon, source: SourceEvent, a: seq<TargetEvent>, b: seq<TargetEvent>)
    requires multiset(a) == multiset(b) && DistinctTargets(b)
    ensures Judge(profile, lex, source, a) == Judge(profile, lex, source, b)
  {
    TimesOutPermutes(profile, lex, a, b);
    SongMatching.FilterPermutes(a, b, (t: TargetEvent) => Wanted(profile, lex, t).Yes?);
    forall e | e in Selected(profile, lex, a) ensures e in b {
      FilterMember(a, (t: TargetEvent) => Wanted(profile, lex, t).Yes?, e);
      assert e in multiset(a);
    }
    NoTiedTargets(b, Selected(profile, lex, a));
    EventOrder();
    SortIgnoresOrder(Selected(profile, lex, a), Selected(profile, lex, b), EventLeq);
  }

  lemma TimesOutPermutes(profile: Profile, lex: Lexicon, a: seq<TargetEvent>, b: seq<TargetEvent>)
    requires multiset(a) == multiset(b)
    ensures TimesOut(profile, lex, a) <==> TimesOut(profile, lex, b)
  {
    assert forall t :: t in a <==> t in multiset(a);
    assert forall t :: t in b <==> t in multiset(b);
    if TimesOut(profile, lex, a) {
      var i :| 0 <= i < |a| && Wanted(profile, lex, a[i]).TimedOut?;
      assert a[i] in b;
    }
    if TimesOut(profile, lex, b) {
      var i :| 0 <= i < |b| && Wanted(profile, lex, b[i]).TimedOut?;
      assert b[i] in a;
    }
  }

  /** `match_events`. */
  method MatchEvents(profile: Profile, lex: Lexicon, events: seq<SourceEvent>, targets: seq<TargetEvent>)
    returns (final: seq<EventMatch>)
    requires DistinctTargets(targets)
    ensures final == Matches(profile, lex, events, targets)
  {
    hide Judge, Timely, Sources;
    var sources := Sources(events);
    if HasInvalid(profile, lex) {
      return AllFailed(sources);
    }
    var index := IndexTargets(profile, lex, targets);
    var result: seq<EventMatch> := [];
    var k := 0;
    ghost var all := Preliminary(profile, lex, sources, targets);
    while k < |sources|
      invariant 0 <= k <= |sources| && result == all[..k]
    {
      var m := JudgeOne(profile, lex, sources[k], index, targets);
      result := result + [m];
      k := k + 1;
    }
    assert result == all;
    final := Withdraw(result);
  }

  /** A target may never be written for two source events in the same run. */
  method Withdraw(result: seq<EventMatch>) returns (final: seq<EventMatch>)
    ensures final == Final(result)
  {
    var counts := CountTargets(result);
    final := [];
    var k := 0;
    while k < |result|
      invariant 0 <= k <= |result| && final == Final(result)[..k]
    {
      var m := result[k];
      if m.target.Some? && counts[m.target.value.id] > 1 {
        final := final + [EventMatch(m.source, None, AMBIGUOUS, Some(TargetReused(m.target.value.id)))];
      } else {
        final := final + [m];
      }
      k := k + 1;
    }
    assert Final(result)[..k] == Final(result);
  }

  method CountTargets(matches: seq<EventMatch>) returns (counts: map<Id, nat>)
    ensures forall i :: 0 <= i < |matches| && matches[i].target.Some? ==> matches[i].target.value.id in counts
    ensures forall id :: id in counts ==> counts[id] == CountOf(matches, id)
  {
    counts := map[];
    var k := 0;
    while k < |matches|
      invariant 0 <= k <= |matches|
      invariant forall i :: 0 <= i < k && matches[i].target.Some? ==> matches[i].target.value.id in counts
      invariant forall id :: id in counts ==> counts[id] == CountOf(matches[..k], id)
      invariant forall id :: id !in counts ==> CountOf(matches[..k], id) == 0
    {
      assert matches[..k + 1][..k] == matches[..k];
      if matches[k].target.Some? {
        var id := matches[k].target.value.id;
        counts := counts[id := (if id in counts then counts[id] else 0) + 1];
      }
      k := k + 1;
    }
    assert matches[..k] == matches;
  }

  // What the result means.

  predicate Targets(m: EventMatch, id: Id) { m.target.Some? && m.target.value.id == id }

  lemma {:induction false} CountsOne(matches: seq<EventMatch>, id: Id)
    ensures CountOf(matches, id) >= 1 <==> exists i :: 0 <= i < |matches| && Targets(matches[i], id)
  {
    if matches != [] {
      var n := |matches| - 1;
      CountsOne(matches[..n], id);
      if CountOf(matches[..n], id) >= 1 {
        var i :| 0 <= i < |matches[..n]| && Targets(matches[..n][i], id);
        assert Targets(matches[i], id);
      }
      if exists i :: 0 <= i < n && Targets(matches[i], id) {
        var i :| 0 <= i < n && Targets(matches[i], id);
        assert Targets(matches[..n][i], id);
      }
    }
  }

  /** More than one match, exactly if two different entries have the target. */
  lemma {:induction false} CountsTwo(matches: seq<EventMatch>, id: Id, i: nat)
    requires i < |matches| && Targets(matches[i], id)
    ensures CountOf(matches, id) > 1 <==> exists j :: 0 <= j < |matches| && j != i && Targets(matches[j], id)
  {
    var n := |matches| - 1;
    CountsOne(matches[..n], id);
    if i < n {
      CountsTwo(matches[..n], id, i);
      if exists j :: 0 <= j < |matches[..n]| && j != i && Targets(matches[..n][j], id) {
        var j :| 0 <= j < |matches[..n]| && j != i && Targets(matches[..n][j], id);
        assert Targets(matches[j], id);
      }
      assert matches[..n][i] == matches[i];
    } else {
      if exists j :: 0 <= j < |matches[..n]| && Targets(matches[..n][j], id) {
        var j :| 0 <= j < |matches[..n]| && Targets(matches[..n][j], id);
        assert Targets(matches[j], id);
      }
    }
    if exists j :: 0 <= j < |matches| && j != i && Targets(matches[j], id) {
      var j :| 0 <= j < |matches| && j != i && Targets(matches[j], id);
      assert j < n ==> Targets(matches[..n][j], id);
    }
  }

  /** The candidates of a source event: target events at its time that a selector wants. */
  function CandidatesOf(profile: Profile, lex: Lexicon, source: SourceEvent, targets: seq<TargetEvent>): seq<TargetEvent> {
    Selected(profile, lex, Timely(profile, lex, source, targets))
  }

  /** A selector's regular expression times out on a candidate of the source event. */
  predicate Fails(profile: Profile, lex: Lexicon, source: SourceEvent, targets: seq<TargetEvent>) {
    TimesOut(profile, lex, Timely(profile, lex, source, targets))
  }

  /** A source event is READY if and only if the selectors are valid, none times out on
      it, it has exactly one candidate, and no other source event that can be judged has
      that one as its only candidate. */
  lemma ReadyExactly(profile: Profile, lex: Lexicon, events: seq<SourceEvent>, targets: seq<TargetEvent>, i: nat)
    requires DistinctTargets(targets) && i < |Sources(events)|
    ensures var sources := Sources(events);
            Matches(profile, lex, events, targets)[i].status.READY? <==>
              && !HasInvalid(profile, lex) && !Fails(profile, lex, sources[i], targets)
              && |CandidatesOf(profile, lex, sources[i], targets)| == 1
              && forall j :: 0 <= j < |sources| && j != i ==>
                   Fails(profile, lex, sources[j], targets)
                   || CandidatesOf(profile, lex, sources[j], targets) != CandidatesOf(profile, lex, sources[i], targets)
  {
    hide Timely, Selected, Judge, HasInvalid, Sources, CountOf, TimesOut;
    var sources := Sources(events);
    var matches := Preliminary(profile, lex, sources, targets);
    forall j | 0 <= j < |sources|
      ensures if Fails(profile, lex, sources[j], targets) then !matches[j].status.READY? && matches[j].target == None
              else JudgedBy(matches[j], CandidatesOf(profile, lex, sources[j], targets))
    {
      JudgedOrFailed(profile, lex, sources[j], targets);
    }
    if !Fails(profile, lex, sources[i], targets) && |CandidatesOf(profile, lex, sources[i], targets)| == 1 {
      var id := CandidatesOf(profile, lex, sources[i], targets)[0].id;
      CountsTwo(matches, id, i);
      forall j | 0 <= j < |sources| && j != i
        ensures Targets(matches[j], id)
                <==> !Fails(profile, lex, sources[j], targets)
                     && CandidatesOf(profile, lex, sources[j], targets) == CandidatesOf(profile, lex, sources[i], targets)
      {
        SameSole(profile, lex, sources[i], sources[j], targets);
      }
    }
  }

  /** READY with the only candidate, or not READY and without a target. */
  ghost predicate JudgedBy(m: EventMatch, candidates: seq<TargetEvent>) {
    if |candidates| == 1 then m.status.READY? && m.target == Some(candidates[0])
    else !m.status.READY? && m.target == None
  }

  lemma JudgedOrFailed(profile: Profile, lex: Lexicon, source: SourceEvent, targets: seq<TargetEvent>)
    ensures var m := Judge(profile, lex, source, Timely(profile, lex, source, targets));
            if Fails(profile, lex, source, targets) then !m.status.READY? && m.target == None
            else JudgedBy(m, CandidatesOf(profile, lex, source, targets))
  {
    hide Timely, Selected;
    var candidates := CandidatesOf(profile, lex, source, targets);
    SortPermutes(candidates, EventLeq);
    assert |Sort(candidates, EventLeq)| == |multiset(Sort(candidates, EventLeq))| == |multiset(candidates)| == |candidates|;
    if |candidates| == 1 {
      assert Sort(candidates, EventLeq)[0] in multiset(candidates);
    }
  }

  lemma SameSole(profile: Profile, lex: Lexicon, a: SourceEvent, b: SourceEvent, targets: seq<TargetEvent>)
    requires DistinctTargets(targets)
    ensures var x, y := CandidatesOf(profile, lex, a, targets), CandidatesOf(profile, lex, b, targets);
            |x| == 1 && |y| == 1 ==> (x[0].id == y[0].id <==> x == y)
  {
    var x, y := CandidatesOf(profile, lex, a, targets), CandidatesOf(profile, lex, b, targets);
    if |x| == 1 && |y| == 1 && x[0].id == y[0].id {
      CandidateIsTarget(profile, lex, a, targets, x[0]);
      CandidateIsTarget(profile, lex, b, targets, y[0]);
      SameIdSameEvent(targets, x[0], y[0]);
    }
  }

  /** A candidate is a target event at the right time that is wanted, and conversely. */
  lemma CandidateIsTarget(profile: Profile, lex: Lexicon, source: SourceEvent, targets: seq<TargetEvent>, t: TargetEvent)
    ensures t in CandidatesOf(profile, lex, source, targets)
            <==> t in targets && TimeMatches(profile, lex, source, t) && Wanted(profile, lex, t).Yes?
  {
    FilterMember(targets, (e: TargetEvent) => TimeMatches(profile, lex, source, e), t);
    FilterMember(Timely(profile, lex, source, targets), (e: TargetEvent) => Wanted(profile, lex, e).Yes?, t);
  }

  /** Two READY events never share a target. */
  lemma ReadyTargetsDiffer(profile: Profile, lex: Lexicon, events: seq<SourceEvent>, targets: seq<TargetEvent>, i: nat, j: nat)
    requires i < j < |Sources(events)|
    requires Matches(profile, lex, events, targets)[i].status.READY? && Matches(profile, lex, events, targets)[j].status.READY?
    ensures var matches := Matches(profile, lex, events, targets);
            matches[i].target.Some? && matches[j].target.Some?
            && matches[i].target.value.id != matches[j].target.value.id
  {
    var matches := Preliminary(profile, lex, Sources(events), targets);
    CountsTwo(matches, matches[i].target.value.id, i);
    assert Targets(matches[j], matches[j].target.value.id);
  }

  lemma SourceOrder()
    ensures Preorder(SourceLeq)
  {
    StringOrder();
  }

  /** The sources are the events with songs, each once, in order of start and id. */
  lemma SourcesAreEvents(events: seq<SourceEvent>)
    ensures Sorted(Sort(events, SourceLeq), SourceLeq)
    ensures multiset(Sources(events)) == multiset(Filter(events, (e: SourceEvent) => e.songIds != []))
  {
    hide SourceLeq;
    SourceOrder();
    SortSorts(events, SourceLeq);
    SortPermutes(events, SourceLeq);
    SongMatching.FilterPermutes(Sort(events, SourceLeq), events, (e: SourceEvent) => e.songIds != []);
  }

  /** One result per source event with songs, in order of start and id. */
  lemma OneResultEach(profile: Profile, lex: Lexicon, events: seq<SourceEvent>, targets: seq<TargetEvent>, i: nat)
    requires i < |Sources(events)|
    ensures Matches(profile, lex, events, targets)[i].source == Sources(events)[i]
    ensures Sources(events)[i] in events && Sources(events)[i].songIds != []
    ensures multiset(Sources(events)) == multiset(Filter(events, (e: SourceEvent) => e.songIds != []))
  {
    var withSongs := (e: SourceEvent) => e.songIds != [];
    SourcesAreEvents(events);
    FilterMember(events, withSongs, Sources(events)[i]);
    assert Sources(events)[i] in multiset(Sources(events));
    JudgedSource(profile, lex, events, targets, i);
  }

  lemma JudgedSource(profile: Profile, lex: Lexicon, events: seq<SourceEvent>, targets: seq<TargetEvent>, i: nat)
    requires i < |Sources(events)|
    ensures Matches(profile, lex, events, targets)[i].source == Sources(events)[i]
  {
  }

  // What a selector wants, told condition by condition.

  /** Everything that can be seen without a regular expression. */
  predicate Passes(selector: Selector, event: TargetEvent) {
    && (|selector.campuses| > 0 ==> event.campus.Some? && event.campus.value in selector.campuses)
    && (|selector.calendars| > 0 ==> event.calendar.Some? && event.calendar.value in selector.calendars)
  }

  predicate Given(text: Option<string>) { text.Some? && |text.value| > 0 }

  lemma SelectsExactly(selector: Selector, lex: Lexicon, event: TargetEvent)
    ensures Selects(selector, lex, event).Yes? <==>
              && Passes(selector, event)
              && (Given(selector.regex) ==> lex.search(selector.regex.value, event.name).Yes?)
              && (Given(selector.contains) ==> lex.occurs(lex.normalize(selector.contains.value), lex.normalize(event.name)))
    ensures Selects(selector, lex, event).TimedOut? <==>
              Passes(selector, event) && Given(selector.regex) && lex.search(selector.regex.value, event.name).TimedOut?
  {
  }

  lemma {:induction false} AnySelectsExactly(selectors: seq<Selector>, lex: Lexicon, event: TargetEvent)
    ensures AnySelects(selectors, lex, event).No? <==> forall k :: 0 <= k < |selectors| ==> Selects(selectors[k], lex, event).No?
    ensures !AnySelects(selectors, lex, event).No? ==>
              exists k :: 0 <= k < |selectors| && Selects(selectors[k], lex, event) == AnySelects(selectors, lex, event)
                          && forall j :: 0 <= j < k ==> Selects(selectors[j], lex, event).No?
  {
    hide Selects;
    if selectors != [] && Selects(selectors[0], lex, event).No? {
      AnySelectsExactly(selectors[1..], lex, event);
      var rest := selectors[1..];
      assert forall k :: 0 <= k < |rest| ==> rest[k] == selectors[k + 1];
      if !AnySelects(selectors, lex, event).No? {
        var k :| 0 <= k < |rest| && Selects(rest[k], lex, event) == AnySelects(rest, lex, event)
                 && forall j :: 0 <= j < k ==> Selects(rest[j], lex, event).No?;
        forall j | 0 <= j < k + 1 ensures Selects(selectors[j], lex, event).No? {
          assert j > 0 ==> Selects(rest[j - 1], lex, event).No?;
        }
        assert Selects(selectors[k + 1], lex, event) == AnySelects(selectors, lex, event);
      }
      if forall k :: 0 <= k < |selectors| ==> Selects(selectors[k], lex, event).No? {
        forall k | 0 <= k < |rest| ensures Selects(rest[k], lex, event).No? { assert rest[k] == selectors[k + 1]; }
      }
      forall k | AnySelects(rest, lex, event).No? && 0 <= k < |selectors| ensures Selects(selectors[k], lex, event).No? {
        assert k > 0 ==> Selects(rest[k - 1], lex, event).No?;
      }
    }
  }

  /** An event is wanted if there are no selectors, or if the first one that does not
      decline it selects it: an earlier selector that declines does not matter, an
      earlier timeout does. */
  lemma WantedExactly(profile: Profile, lex: Lexicon, event: TargetEvent)
    ensures Wanted(profile, lex, event).Yes? <==>
              || profile.selectors == []
              || exists k :: 0 <= k < |profile.selectors| && Selects(profile.selectors[k], lex, event).Yes?
                             && forall j :: 0 <= j < k ==> Selects(profile.selectors[j], lex, event).No?
  {
    hide Selects, AnySelects;
    AnySelectsExactly(profile.selectors, lex, event);
  }

  /** Events match in time if a start of the source is the target's instant, or falls on
      the target's local day, as the profile asks. */
  lemma TimeMatchesExactly(profile: Profile, lex: Lexicon, source: SourceEvent, target: TargetEvent)
    ensures TimeMatches(profile, lex, source, target) <==>
              exists i :: 0 <= i < |source.startsAt|
                && if profile.exactTime then source.startsAt[i] == target.startsAt
                   else lex.sourceDay(source.startsAt[i]) == lex.targetDay(target.startsAt)
  {
  }
}
