/** Planning a run (engine.py, execute; planner.py, plan): matching, leaving out the
    events that have not changed since they were synced, and planning the others. */
module RunPlanning {
  import opened Prelude
  import opened Agendas
  import opened Assembly
  import opened AssemblyTheorems
  import opened Fingerprints
  import EventMatching
  import SongMatching

  /** What is recorded when an event has been synced, before hashing. */
  datatype Checkpoint = Checkpoint(image: seq<SongImage>, config: ConfigImage)

  datatype Connections = Connections(source: Id, target: Id)

  datatype Texts = Texts(norm: SongMatching.Norm, json: Canonical)

  type EventKey = (Id, Id)

  function CheckpointOf(p: ProfileConfig, at: Connections, songIds: seq<Id>, songs: seq<SongMatching.SourceSong>, texts: Texts): Checkpoint {
    Checkpoint(SourceImage(songIds, songs, texts.norm, texts.json), ConfigPreimage(p, at.source, at.target))
  }

  function KeyOf(m: EventMatching.EventMatch): EventKey
    requires m.target.Some?
  {
    (m.source.id, m.target.value.id)
  }

  /** A matched event of a profile that follows source changes only, with the
      checkpoint that it would get now. */
  predicate Unchanged(p: ProfileConfig, at: Connections, m: EventMatching.EventMatch, songs: seq<SongMatching.SourceSong>,
                      texts: Texts, checkpoints: map<EventKey, Checkpoint>)
  {
    && p.sourceChangesOnly && m.status.READY? && m.target.Some? && KeyOf(m) in checkpoints
    && checkpoints[KeyOf(m)] == CheckpointOf(p, at, m.source.songIds, songs, texts)
  }

  /** Matched events have targets of their own. */
  ghost predicate OwnTargets(matches: seq<EventMatching.EventMatch>) {
    && (forall i :: 0 <= i < |matches| && matches[i].target.Some? ==> matches[i].status.READY?)
    && (forall i :: 0 <= i < |matches| && matches[i].status.READY? ==> matches[i].target.Some?)
    && forall i, j :: 0 <= i < j < |matches| && matches[i].target.Some? && matches[j].target.Some? ==>
         matches[i].target.value.id != matches[j].target.value.id
  }

  // Which events have not changed.

  /** The fingerprints of the matched events (engine.py), by source and target event. */
  method FingerprintsOf(matches: seq<EventMatching.EventMatch>, songs: seq<SongMatching.SourceSong>, texts: Texts)
    returns (images: map<EventKey, seq<SongImage>>)
    requires OwnTargets(matches)
    ensures forall key :: key in images ==> exists i :: 0 <= i < |matches| && matches[i].target.Some? && KeyOf(matches[i]) == key
    ensures forall i :: 0 <= i < |matches| && matches[i].target.Some? ==>
              && KeyOf(matches[i]) in images
              && images[KeyOf(matches[i])] == SourceImage(matches[i].source.songIds, songs, texts.norm, texts.json)
  {
    images := map[];
    for k := 0 to |matches|
      invariant forall key :: key in images ==> exists i :: 0 <= i < k && matches[i].target.Some? && KeyOf(matches[i]) == key
      invariant forall i :: 0 <= i < k && matches[i].target.Some? ==>
                  && KeyOf(matches[i]) in images
                  && images[KeyOf(matches[i])] == SourceImage(matches[i].source.songIds, songs, texts.norm, texts.json)
    {
      if matches[k].status.READY? && matches[k].target.Some? {
        var image := SourcePreimage(matches[k].source.songIds, songs, texts.norm, texts.json);
        images := images[KeyOf(matches[k]) := image];
      }
    }
  }

  method UnchangedKeys(p: ProfileConfig, at: Connections, matches: seq<EventMatching.EventMatch>,
                       songs: seq<SongMatching.SourceSong>, texts: Texts, checkpoints: map<EventKey, Checkpoint>)
    returns (keys: set<EventKey>)
    requires OwnTargets(matches)
    ensures forall i :: 0 <= i < |matches| && matches[i].target.Some? ==>
              (KeyOf(matches[i]) in keys <==> Unchanged(p, at, matches[i], songs, texts, checkpoints))
  {
    hide SourceImage;
    var images := FingerprintsOf(matches, songs, texts);
    var config := ConfigPreimage(p, at.source, at.target);
    keys := {};
    if p.sourceChangesOnly {
      keys := set key | key in images && key in checkpoints && checkpoints[key].image == images[key] && checkpoints[key].config == config;
    }
  }

  /** A match as the planner goes on with it (planner.py): unchanged events are skipped. */
  function Marked(m: EventMatching.EventMatch, known: set<EventKey>): MatchedEvent {
    MatchedEvent(m.source.id, m.source.songIds, if m.target.Some? then Some(m.target.value.id) else None,
                 if m.target.Some? && KeyOf(m) in known then EventMatching.SKIPPED else m.status)
  }

  function AllMarked(matches: seq<EventMatching.EventMatch>, known: set<EventKey>): (r: seq<MatchedEvent>)
    ensures |r| == |matches|
    ensures forall i :: 0 <= i < |matches| ==> r[i] == Marked(matches[i], known)
  {
    seq(|matches|, i requires 0 <= i < |matches| => Marked(matches[i], known))
  }

  lemma MatchesOwnTargets(profile: EventMatching.Profile, lex: EventMatching.Lexicon, events: seq<EventMatching.SourceEvent>,
                          targets: seq<EventMatching.TargetEvent>)
    requires EventMatching.DistinctTargets(targets)
    ensures OwnTargets(EventMatching.Matches(profile, lex, events, targets))
  {
    hide EventMatching.Judge, EventMatching.Sources;
    var matches := EventMatching.Matches(profile, lex, events, targets);
    forall i | 0 <= i < |matches| ensures matches[i].target.Some? <==> matches[i].status.READY? {
      EventMatching.JudgedOrFailed(profile, lex, EventMatching.Sources(events)[i], targets);
    }
    forall i, j | 0 <= i < j < |matches| && matches[i].target.Some? && matches[j].target.Some?
      ensures matches[i].target.value.id != matches[j].target.value.id
    {
      EventMatching.ReadyTargetsDiffer(profile, lex, events, targets, i, j);
    }
  }

  // The plan.

  /** The songs that an event itself needs. */
  function OwnSongs(m: MatchedEvent): set<Id> { Members(m.songIds) }

  /** The plan of an event by itself. */
  ghost predicate PlannedAlone(inputs: Inputs, m: MatchedEvent, plan: EventPlan) {
    && Resourced(m, ResourceMap(inputs, OwnSongs(m)), IssueMap(inputs, OwnSongs(m)))
    && exists first :: plan == PlanOf(inputs, m, ResourceMap(inputs, OwnSongs(m)), IssueMap(inputs, OwnSongs(m)), first)
  }

  lemma OnItsOwn(inputs: Inputs, matches: seq<MatchedEvent>, k: nat, first: nat)
    requires k < |matches| && AllResourced(matches, ResourceMap(inputs, Required(matches)), IssueMap(inputs, Required(matches)))
    ensures var m, all := matches[k], Required(matches);
            && Resourced(m, ResourceMap(inputs, OwnSongs(m)), IssueMap(inputs, OwnSongs(m)))
            && PlanOf(inputs, m, ResourceMap(inputs, all), IssueMap(inputs, all), first)
               == PlanOf(inputs, m, ResourceMap(inputs, OwnSongs(m)), IssueMap(inputs, OwnSongs(m)), first)
  {
    hide ResourceMap, IssueMap, NeedOf;
    var m, all := matches[k], Required(matches);
    assert Resourced(m, ResourceMap(inputs, all), IssueMap(inputs, all));
    if m.IsReady() {
      forall i | 0 <= i < |m.songIds| ensures m.songIds[i] in all {
        RequiredMember(matches, m.songIds[i]);
      }
      UnchangedMeansSamePlan(inputs, inputs, m, all, OwnSongs(m), first, d => "");
    }
  }

  /** Whatever else a run plans, the plan of an event depends on the event's own songs
      only -- and the number it starts at. */
  lemma PlannedOnItsOwn(inputs: Inputs, matches: seq<MatchedEvent>, ids: seq<Id>, k: nat)
    requires SongOrder(ids, matches) && k < |matches|
    ensures |PlanSpec(inputs, matches, ids).events| == |matches|
    ensures PlannedAlone(inputs, matches[k], PlanSpec(inputs, matches, ids).events[k])
  {
    hide PlanOf, ResourceMap, IssueMap, NeedOf;
    var all, m := Required(matches), matches[k];
    EventsAreResourced(inputs, matches, all);
    PlansAt(inputs, matches, ResourceMap(inputs, all), IssueMap(inputs, all), |Preparations(inputs, ids)|, k);
    var first := NumberAfter(inputs, matches[..k], ResourceMap(inputs, all), IssueMap(inputs, all), |Preparations(inputs, ids)|);
    OnItsOwn(inputs, matches, k, first);
  }

  lemma PlanSize(inputs: Inputs, matches: seq<MatchedEvent>, ids: seq<Id>)
    requires SongOrder(ids, matches)
    ensures |PlanSpec(inputs, matches, ids).events| == |matches|
  {
  }

  lemma SkippedPlan(inputs: Inputs, m: MatchedEvent, plan: EventPlan)
    requires PlannedAlone(inputs, m, plan) && m.status.SKIPPED?
    ensures plan == EventPlan(m.sourceId, m.targetId, EventMatching.SKIPPED, None, [], [NotMatched])
  {
  }

  /** `execute` up to the stored plan: match, leave out what has not changed, match
      again and plan.  Every source event with songs gets one plan, in order; an
      unchanged one is skipped, and every other one gets the plan that it would get by
      itself, whatever else is planned or skipped in the run. */
  method PlanRun(p: ProfileConfig, at: Connections, lex: EventMatching.Lexicon, inputs: Inputs, texts: Texts,
                 events: seq<EventMatching.SourceEvent>, targets: seq<EventMatching.TargetEvent>,
                 checkpoints: map<EventKey, Checkpoint>)
    returns (matches: seq<EventMatching.EventMatch>, plan: Plan)
    requires EventMatching.DistinctTargets(targets) && WellFormed(inputs)
    ensures matches == EventMatching.Matches(EventMatching.Profile(p.exactTime, p.selectors), lex, events, targets)
    ensures |plan.events| == |matches|
    ensures forall k :: 0 <= k < |matches| ==>
              if Unchanged(p, at, matches[k], inputs.sourceSongs, texts, checkpoints)
              then plan.events[k] == EventPlan(matches[k].source.id, Some(matches[k].target.value.id), EventMatching.SKIPPED, None, [], [NotMatched])
              else PlannedAlone(inputs, Marked(matches[k], {}), plan.events[k])
    ensures forall k :: 0 <= k < |matches| && matches[k].target.Some? && p.sourceChangesOnly
                        && (matches[k].source.id, matches[k].target.value.id) in checkpoints
                        && checkpoints[(matches[k].source.id, matches[k].target.value.id)]
                           == Checkpoint(SourceImage(matches[k].source.songIds, inputs.sourceSongs, texts.norm, texts.json),
                                         ConfigPreimage(p, at.source, at.target)) ==>
              plan.events[k].status == EventMatching.SKIPPED && plan.events[k].actions == []
    ensures forall k :: 0 <= k < |matches| && matches[k].target.Some?
                        && (!p.sourceChangesOnly || (matches[k].source.id, matches[k].target.value.id) !in checkpoints) ==>
              PlannedAlone(inputs, MatchedEvent(matches[k].source.id, matches[k].source.songIds, Some(matches[k].target.value.id),
                                                matches[k].status), plan.events[k])
  {
    hide CheckpointOf, PlanSpec, SongOrder, PlannedAlone, EventMatching.Matches, OwnSongs, NeedOf;
    var profile := EventMatching.Profile(p.exactTime, p.selectors);
    MatchesOwnTargets(profile, lex, events, targets);
    matches := EventMatching.MatchEvents(profile, lex, events, targets);
    var known := UnchangedKeys(p, at, matches, inputs.sourceSongs, texts, checkpoints);
    var again := EventMatching.MatchEvents(profile, lex, events, targets);
    var marked := AllMarked(again, known);
    plan := MakePlan(inputs, marked);
    ghost var ids :| SongOrder(ids, marked);
    forall k | 0 <= k < |matches|
      ensures k < |plan.events| && PlannedAlone(inputs, marked[k], plan.events[k])
    {
      PlannedOnItsOwn(inputs, marked, ids, k);
    }
    PlanSize(inputs, marked, ids);
    forall k | 0 <= k < |matches| && Unchanged(p, at, matches[k], inputs.sourceSongs, texts, checkpoints)
      ensures plan.events[k] == EventPlan(matches[k].source.id, Some(matches[k].target.value.id), EventMatching.SKIPPED, None, [], [NotMatched])
    {
      SkippedPlan(inputs, marked[k], plan.events[k]);
    }
    forall k | 0 <= k < |matches| && matches[k].target.Some?
      ensures CheckpointOf(p, at, matches[k].source.songIds, inputs.sourceSongs, texts)
              == Checkpoint(SourceImage(matches[k].source.songIds, inputs.sourceSongs, texts.norm, texts.json),
                            ConfigPreimage(p, at.source, at.target))
    {
      CheckpointIs(p, at, matches[k].source.songIds, inputs.sourceSongs, texts);
    }
  }

  lemma CheckpointIs(p: ProfileConfig, at: Connections, songIds: seq<Id>, songs: seq<SongMatching.SourceSong>, texts: Texts)
    ensures CheckpointOf(p, at, songIds, songs, texts)
            == Checkpoint(SourceImage(songIds, songs, texts.norm, texts.json), ConfigPreimage(p, at.source, at.target))
  {
  }

  // Leaving out is safe.

  /** An event that a run leaves out as unchanged has exactly the plan that it had when
      its checkpoint was recorded, from whatever profile settings and catalogue that
      was: same setlist, and the same status, issues and actions. */
  lemma SkippedIsCovered(earlier: ProfileConfig, p: ProfileConfig, at: Connections, a: Inputs, b: Inputs, songIds: seq<Id>,
                         m: EventMatching.EventMatch, texts: Texts, checkpoints: map<EventKey, Checkpoint>, first: nat)
    requires Unchanged(p, at, m, b.sourceSongs, texts, checkpoints)
    requires checkpoints[KeyOf(m)] == CheckpointOf(earlier, at, songIds, a.sourceSongs, texts)
    requires earlier.id == p.id && Configured(a, earlier) && Configured(b, p) && SameTarget(a, b) && a.norm == texts.norm
    ensures songIds == m.source.songIds
    ensures var e := MatchedEvent(m.source.id, songIds, Some(m.target.value.id), EventMatching.READY);
            && Resourced(e, ResourceMap(a, OwnSongs(e)), IssueMap(a, OwnSongs(e)))
            && Resourced(e, ResourceMap(b, OwnSongs(e)), IssueMap(b, OwnSongs(e)))
            && PlanOf(a, e, ResourceMap(a, OwnSongs(e)), IssueMap(a, OwnSongs(e)), first)
               == PlanOf(b, e, ResourceMap(b, OwnSongs(e)), IssueMap(b, OwnSongs(e)), first)
  {
    hide PlanOf, ResourceMap, IssueMap, NeedOf;
    var before, now := SourceImage(songIds, a.sourceSongs, texts.norm, texts.json), SourceImage(m.source.songIds, b.sourceSongs, texts.norm, texts.json);
    forall i | 0 <= i < |songIds| ensures songIds[i] == m.source.songIds[i] {
      assert before[i].id == now[i].id;
    }
    assert songIds == m.source.songIds;
    var e := MatchedEvent(m.source.id, songIds, Some(m.target.value.id), EventMatching.READY);
    CheckpointCoversPlan(earlier, p, a, b, e, at.source, at.target, OwnSongs(e), OwnSongs(e), first, texts.json);
  }
}
