/** What holds of every plan: its dependencies are met in order, nothing is created
    that no READY event needs, and its actions are numbered in order of execution. */
module AssemblyTheorems {
  import opened Prelude
  import opened Agendas
  import opened Actions
  import opened Sorting
  import opened Placements
  import opened PlacementLoops
  import opened Setlist
  import opened PlanTheorems
  import opened Assembly

  // Inside an event.

  ghost predicate OfSong(job: Job, d: Key) {
    exists k :: 0 <= k < |job.songIds| && job.songIds[k] in job.resources
                && d in job.resources[job.songIds[k]].Dependencies()
  }

  ghost predicate MadeBefore(drafts: seq<Draft>, i: nat, d: Key) {
    exists j :: 0 <= j < i && j < |drafts| && drafts[j].body.InsertItem? && drafts[j].body.resourceKey == d
  }

  /** Draft i waits for songs of the event and for earlier inserts only. */
  ghost predicate Waits(job: Job, drafts: seq<Draft>, i: nat)
    requires i < |drafts|
  {
    forall d :: d in drafts[i].dependencies ==> OfSong(job, d) || MadeBefore(drafts, i, d)
  }

  ghost predicate AllWait(job: Job, drafts: seq<Draft>) {
    forall i :: 0 <= i < |drafts| ==> Waits(job, drafts, i)
  }

  lemma AllWaitNext(job: Job, drafts: seq<Draft>, draft: Draft)
    requires AllWait(job, drafts)
    requires forall d :: d in draft.dependencies ==> OfSong(job, d) || MadeBefore(drafts, |drafts|, d)
    ensures AllWait(job, drafts + [draft])
  {
    var all := drafts + [draft];
    forall i | 0 <= i < |all| ensures Waits(job, all, i) {
      forall d | d in all[i].dependencies ensures OfSong(job, d) || MadeBefore(all, i, d) {
        if i < |drafts| {
          assert Waits(job, drafts, i);
        }
        if MadeBefore(drafts, i, d) {
          var j :| 0 <= j < i && j < |drafts| && drafts[j].body.InsertItem? && drafts[j].body.resourceKey == d;
          assert all[j] == drafts[j];
        }
      }
    }
  }

  /** The key to chain to belongs to an insert already drafted. */
  ghost predicate KeyIsMade(p: Planning, c: Cursor) {
    c.lastKey.Some? ==> MadeBefore(p.drafts, |p.drafts|, c.lastKey.value)
  }

  lemma SongWaits(job: Job, rule: PlacementRule, i: nat, p: Planning, c: Cursor)
    requires job.Valid() && i < |job.songIds| && AllWait(job, p.drafts) && KeyIsMade(p, c)
    ensures var (p', c') := PlaceSong(job, rule, i, p, c);
            AllWait(job, p'.drafts) && (!c'.blocked ==> KeyIsMade(p', c'))
  {
    if !c.blocked {
      var song, key := job.resources[job.songIds[i]], SourceKey(rule.id, i, job.songIds[i]);
      var at := SkipReserved(job.items, c.at, p.reserved);
      forall d | d in song.Dependencies() ensures OfSong(job, d) {}
      if at < |job.items| && job.items[at].IsSong() {
        if !OwnedByOther(job, job.items[at].id) {
          AllWaitNext(job, p.drafts, SlotDraft(job, rule, key, song, job.items[at]));
        }
      } else {
        var draft := InsertDraft(job, rule, key, song, at, c.lastId, c.lastKey);
        AllWaitNext(job, p.drafts, draft);
        assert (p.drafts + [draft])[|p.drafts|] == draft;
      }
    }
  }

  lemma {:induction false} SongsWait(job: Job, rule: PlacementRule, lo: nat, k: nat, p: Planning, c: Cursor)
    requires job.Valid() && lo <= k <= |job.songIds| && AllWait(job, p.drafts) && KeyIsMade(p, c) && !c.blocked
    ensures var (p', c') := PlaceSongs(job, rule, lo, k, p, c);
            AllWait(job, p'.drafts) && (!c'.blocked ==> KeyIsMade(p', c'))
  {
    hide AllWait, KeyIsMade, PlaceSong;
    if k > lo {
      var (p1, c1) := PlaceSongs(job, rule, lo, k - 1, p, c);
      SongsWait(job, rule, lo, k - 1, p, c);
      if c1.blocked {
        BlockedSkips(job, rule, k - 1, p1, c1);
      } else {
        SongWaits(job, rule, k - 1, p1, c1);
      }
    }
  }

  lemma RuleWaits(job: Job, rule: PlacementRule, p: Planning)
    requires job.Valid() && AllWait(job, p.drafts)
    ensures AllWait(job, PlaceRule(job, rule, p).drafts)
  {
    if Admitted(job, rule, p) {
      SongsWait(job, rule, SliceStart(rule, |job.songIds|), SliceEnd(rule, |job.songIds|), StartOf(job, rule, p),
                RuleStart(job, rule));
    }
  }

  lemma {:induction false} RulesWait(job: Job, rules: seq<PlacementRule>)
    requires job.Valid()
    ensures AllWait(job, PlaceRules(job, rules).drafts)
  {
    if rules != [] {
      RulesWait(job, rules[..|rules| - 1]);
      RuleWaits(job, rules[|rules| - 1], PlaceRules(job, rules[..|rules| - 1]));
    }
  }

  lemma {:induction false} CleanUpWaits(job: Job, rows: seq<Ownership>, p: Planning)
    requires AllWait(job, p.drafts)
    ensures AllWait(job, CleanUpAll(job, rows, p).drafts)
  {
    if rows != [] {
      var o, p1 := rows[|rows| - 1], CleanUpAll(job, rows[..|rows| - 1], p);
      CleanUpWaits(job, rows[..|rows| - 1], p);
      AllWaitNext(job, p1.drafts, CleanupDraft(job, o));
    }
  }

  lemma DraftsWait(job: Job, rules: seq<PlacementRule>)
    requires job.Valid()
    ensures AllWait(job, Drafted(job, rules).drafts)
  {
    RulesWait(job, rules);
    CleanUpWaits(job, Sort(job.ownerships, OwnershipLeq), PlaceRules(job, rules));
  }

  // Across the plan.

  lemma {:induction false} PlansAt(inputs: Inputs, matches: seq<MatchedEvent>, resources: map<Id, SongRef>,
                                   issues: map<Id, SongIssue>, first: nat, k: nat)
    requires AllResourced(matches, resources, issues) && k < |matches|
    ensures AllResourced(matches[..k], resources, issues)
    ensures PlansOf(inputs, matches, resources, issues, first)[k]
            == PlanOf(inputs, matches[k], resources, issues, NumberAfter(inputs, matches[..k], resources, issues, first))
  {
    hide PlanOf, Used;
    var n := |matches| - 1;
    if k < n {
      PlansAt(inputs, matches[..n], resources, issues, first, k);
      assert matches[..n][..k] == matches[..k];
    }
  }

  lemma {:induction false} PreparationOf(inputs: Inputs, ids: seq<Id>, id: Id) returns (j: nat)
    requires id in ids && NeedOf(inputs, id).Prepare?
    ensures j < |Preparations(inputs, ids)| && Preparations(inputs, ids)[j] == Draft(NeedOf(inputs, id).body, [])
  {
    var n := |ids| - 1;
    if ids[n] == id {
      j := |Preparations(inputs, ids)| - 1;
    } else {
      assert id in ids[..n];
      j := PreparationOf(inputs, ids[..n], id);
    }
  }

  lemma NeedProduces(inputs: Inputs, id: Id, d: Key)
    requires !NeedOf(inputs, id).Problem? && d in NeedOf(inputs, id).ref.Dependencies()
    ensures NeedOf(inputs, id).Prepare? && d in Produces(NeedOf(inputs, id).body)
    ensures SourceSongOf(NeedOf(inputs, id).body) == Some(id)
  {
  }

  lemma {:induction false} NeededMember(events: seq<EventPlan>, k: nat, i: nat, d: Key)
    requires k < |events| && events[k].status.READY? && i < |events[k].actions| && d in events[k].actions[i].dependencies
    ensures d in Needed(events)
  {
    var n := |events| - 1;
    if k < n {
      NeededMember(events[..n], k, i, d);
    } else {
      NeededByMember(events[k].actions, i, d);
    }
  }

  lemma {:induction false} NeededByMember(actions: seq<PlannedAction>, i: nat, d: Key)
    requires i < |actions| && d in actions[i].dependencies
    ensures d in NeededBy(actions)
  {
    if i < |actions| - 1 {
      NeededByMember(actions[..|actions| - 1], i, d);
    }
  }

  lemma {:induction false} NeededComes(events: seq<EventPlan>, d: Key) returns (k: nat, i: nat)
    requires d in Needed(events)
    ensures k < |events| && events[k].status.READY? && i < |events[k].actions| && d in events[k].actions[i].dependencies
  {
    var n := |events| - 1;
    if d in Needed(events[..n]) {
      k, i := NeededComes(events[..n], d);
    } else {
      k := n;
      i := NeededByComes(events[n].actions, d);
    }
  }

  lemma {:induction false} NeededByComes(actions: seq<PlannedAction>, d: Key) returns (i: nat)
    requires d in NeededBy(actions)
    ensures i < |actions| && d in actions[i].dependencies
  {
    var n := |actions| - 1;
    if d in actions[n].dependencies {
      i := n;
    } else {
      i := NeededByComes(actions[..n], d);
    }
  }

  lemma {:induction false} ViableMember(matches: seq<MatchedEvent>, issues: map<Id, SongIssue>, k: nat, id: Id)
    requires k < |matches| && matches[k].IsReady() && id in matches[k].songIds
    requires forall i :: 0 <= i < |matches[k].songIds| ==> matches[k].songIds[i] !in issues
    ensures id in ViableSongs(matches, issues)
  {
    var n := |matches| - 1;
    if k < n {
      ViableMember(matches[..n], issues, k, id);
    }
  }

  /** A READY event plan has exactly the numbered drafts of its job. */
  lemma ReadyIsDrafted(inputs: Inputs, m: MatchedEvent, resources: map<Id, SongRef>, issues: map<Id, SongIssue>, first: nat)
    requires Resourced(m, resources, issues) && PlanOf(inputs, m, resources, issues, first).status.READY?
    requires WellFormed(inputs) && (m.status.READY? ==> m.targetId.Some?)
    ensures m.IsReady() && m.targetId.value in inputs.agendas
    ensures forall i :: 0 <= i < |m.songIds| ==> m.songIds[i] in resources && m.songIds[i] !in issues
    ensures JobOf(inputs, m, resources).Valid()
    ensures PlanOf(inputs, m, resources, issues, first).actions
            == Numbered(Drafted(JobOf(inputs, m, resources), inputs.rules).drafts, first, Some(m.sourceId))
  {
    if m.IsReady() && SongProblems(Once(m.songIds), issues) == [] {
      EventIsResourced(m, resources, issues);
    }
  }

  ghost predicate Coherent(matches: seq<MatchedEvent>) {
    forall k :: 0 <= k < |matches| && matches[k].status.READY? ==> matches[k].targetId.Some?
  }

  /** A kept preparation action makes `d`. */
  ghost predicate Prepared(plan: Plan, d: Key) {
    exists a :: a in plan.preparation && d in Produces(a.body)
  }

  ghost predicate MadeEarlier(actions: seq<PlannedAction>, i: nat, d: Key) {
    exists j :: 0 <= j < i && j < |actions| && d in Produces(actions[j].body)
  }

  lemma SongIsPrepared(inputs: Inputs, matches: seq<MatchedEvent>, ids: seq<Id>, k: nat, id: Id, d: Key)
    requires Members(ids) == Required(matches) && k < |matches| && matches[k].IsReady() && id in matches[k].songIds
    requires forall i :: 0 <= i < |matches[k].songIds| ==>
               matches[k].songIds[i] in Required(matches) && !NeedOf(inputs, matches[k].songIds[i]).Problem?
    requires !NeedOf(inputs, id).Problem? && d in NeedOf(inputs, id).ref.Dependencies()
    requires d in Needed(PlanSpec(inputs, matches, ids).events)
    ensures Prepared(PlanSpec(inputs, matches, ids), d)
  {
    var plan, issues := PlanSpec(inputs, matches, ids), IssueMap(inputs, Required(matches));
    var drafts := Preparations(inputs, ids);
    NeedProduces(inputs, id, d);
    var j := PreparationOf(inputs, ids, id);
    NumberedAt(drafts, 0, None, j);
    var action := Numbered(drafts, 0, None)[j];
    ViableMember(matches, issues, k, id);
    FilterMember(Numbered(drafts, 0, None), (a: PlannedAction) => Wants(a, ViableSongs(matches, issues)), action);
    FilterMember(Filter(Numbered(drafts, 0, None), (a: PlannedAction) => Wants(a, ViableSongs(matches, issues))),
                 (a: PlannedAction) => IsNeeded(a, Needed(plan.events)), action);
    assert d in Produces(action.body);
  }

  /** Every dependency of an action in a READY event is made by a kept preparation
      action or by an earlier action of the same event. */
  lemma DependenciesAreMet(inputs: Inputs, matches: seq<MatchedEvent>, ids: seq<Id>, k: nat, i: nat, d: Key)
    requires WellFormed(inputs) && Coherent(matches) && Members(ids) == Required(matches)
    requires var events := PlanSpec(inputs, matches, ids).events;
             k < |events| && events[k].status.READY? && i < |events[k].actions| && d in events[k].actions[i].dependencies
    ensures var plan := PlanSpec(inputs, matches, ids);
            Prepared(plan, d) || MadeEarlier(plan.events[k].actions, i, d)
  {
    hide *;
    var job, first := ReadyEvent(inputs, matches, ids, k);
    var events := PlanSpec(inputs, matches, ids).events;
    NeededMember(events, k, i, d);
    EventDependency(job, inputs.rules, first, Some(matches[k].sourceId), i, d);
    if OfSong(job, d) {
      var x := WaitingSong(job, d);
      SongIsPrepared(inputs, matches, ids, k, job.songIds[x], d);
    }
  }

  lemma WaitingSong(job: Job, d: Key) returns (x: nat)
    requires OfSong(job, d)
    ensures x < |job.songIds| && job.songIds[x] in job.resources && d in job.resources[job.songIds[x]].Dependencies()
  {
    x :| 0 <= x < |job.songIds| && job.songIds[x] in job.resources && d in job.resources[job.songIds[x]].Dependencies();
  }

  /** A READY event of a plan: its job, whose songs all have a resource. */
  lemma ReadyEvent(inputs: Inputs, matches: seq<MatchedEvent>, ids: seq<Id>, k: nat) returns (job: Job, first: nat)
    requires WellFormed(inputs) && Coherent(matches) && Members(ids) == Required(matches)
    requires k < |PlanSpec(inputs, matches, ids).events| && PlanSpec(inputs, matches, ids).events[k].status.READY?
    ensures k < |matches| && matches[k].IsReady() && job.Valid() && job.songIds == matches[k].songIds
    ensures PlanSpec(inputs, matches, ids).events[k].actions
            == Numbered(Drafted(job, inputs.rules).drafts, first, Some(matches[k].sourceId))
    ensures |Drafted(job, inputs.rules).drafts| == |PlanSpec(inputs, matches, ids).events[k].actions|
    ensures forall i :: 0 <= i < |matches[k].songIds| ==>
              matches[k].songIds[i] in Required(matches) && !NeedOf(inputs, matches[k].songIds[i]).Problem?
    ensures forall id :: id in job.resources ==> !NeedOf(inputs, id).Problem? && job.resources[id] == NeedOf(inputs, id).ref
  {
    hide PlansOf, PlanOf, Used, NumberAfter, Required, Numbered, Drafted, NeedOf, Preparations, Kept, Needed, ViableSongs,
         AllResourced, Resourced, Job.Valid, WellFormed;
    EventsAreResourced(inputs, matches, Required(matches));
    var resources, issues := ResourceMap(inputs, Required(matches)), IssueMap(inputs, Required(matches));
    PlansAt(inputs, matches, resources, issues, |Preparations(inputs, ids)|, k);
    first := NumberAfter(inputs, matches[..k], resources, issues, |Preparations(inputs, ids)|);
    ResourcedAt(matches, resources, issues, k);
    ReadyIsDrafted(inputs, matches[k], resources, issues, first);
    job := JobOf(inputs, matches[k], resources);
  }

  lemma ResourcedAt(matches: seq<MatchedEvent>, resources: map<Id, SongRef>, issues: map<Id, SongIssue>, k: nat)
    requires AllResourced(matches, resources, issues) && k < |matches|
    ensures Resourced(matches[k], resources, issues)
  {
  }

  lemma EventDependency(job: Job, rules: seq<PlacementRule>, first: nat, eventPlanId: Option<Id>, i: nat, d: Key)
    requires job.Valid() && i < |Drafted(job, rules).drafts|
    requires d in Numbered(Drafted(job, rules).drafts, first, eventPlanId)[i].dependencies
    ensures OfSong(job, d) || MadeEarlier(Numbered(Drafted(job, rules).drafts, first, eventPlanId), i, d)
  {
    var drafts := Drafted(job, rules).drafts;
    DraftsWait(job, rules);
    NumberedAt(drafts, first, eventPlanId, i);
    assert Waits(job, drafts, i);
    if MadeBefore(drafts, i, d) {
      var j :| 0 <= j < i && j < |drafts| && drafts[j].body.InsertItem? && drafts[j].body.resourceKey == d;
      NumberedAt(drafts, first, eventPlanId, j);
      assert d in Produces(Numbered(drafts, first, eventPlanId)[j].body);
    }
  }

  /** Nothing is created in vain: every kept preparation action makes a key that some
      action of a READY event waits for. */
  lemma PreparationIsNeeded(inputs: Inputs, matches: seq<MatchedEvent>, ids: seq<Id>, a: PlannedAction)
    returns (d: Key, k: nat, i: nat)
    requires Members(ids) == Required(matches) && a in PlanSpec(inputs, matches, ids).preparation
    ensures d in Produces(a.body)
    ensures var events := PlanSpec(inputs, matches, ids).events;
            k < |events| && events[k].status.READY? && i < |events[k].actions| && d in events[k].actions[i].dependencies
  {
    var plan, issues := PlanSpec(inputs, matches, ids), IssueMap(inputs, Required(matches));
    FilterMember(Filter(Numbered(Preparations(inputs, ids), 0, None), (b: PlannedAction) => Wants(b, ViableSongs(matches, issues))),
                 (b: PlannedAction) => IsNeeded(b, Needed(plan.events)), a);
    var n :| 0 <= n < |Produces(a.body)| && Produces(a.body)[n] in Needed(plan.events);
    d := Produces(a.body)[n];
    k, i := NeededComes(plan.events, d);
  }

  // Numbers.

  /** Strictly increasing numbers in [lo, hi). */
  ghost predicate Counts(actions: seq<PlannedAction>, lo: nat, hi: nat) {
    && (forall i :: 0 <= i < |actions| ==> lo <= actions[i].ordinal < hi)
    && forall i, j :: 0 <= i < j < |actions| ==> actions[i].ordinal < actions[j].ordinal
  }

  lemma CountsConcat(a: seq<PlannedAction>, b: seq<PlannedAction>, lo: nat, mid: nat, hi: nat)
    requires lo <= mid <= hi && Counts(a, lo, mid) && Counts(b, mid, hi)
    ensures Counts(a + b, lo, hi)
  {
  }

  lemma {:induction false} CountsFilter(actions: seq<PlannedAction>, keep: PlannedAction -> bool, lo: nat, hi: nat)
    requires Counts(actions, lo, hi)
    ensures Counts(Filter(actions, keep), lo, hi)
  {
    if actions != [] {
      var rest := actions[1..];
      assert forall i :: 0 <= i < |rest| ==> rest[i] == actions[i + 1];
      CountsFilter(rest, keep, lo, hi);
      forall i | 0 <= i < |Filter(rest, keep)| ensures actions[0].ordinal < Filter(rest, keep)[i].ordinal {
        FilterMember(rest, keep, Filter(rest, keep)[i]);
      }
    }
  }

  lemma {:induction false} NumberedCounts(drafts: seq<Draft>, first: nat, eventPlanId: Option<Id>)
    ensures Counts(Numbered(drafts, first, eventPlanId), first, first + |drafts|)
  {
    if drafts != [] {
      NumberedCounts(drafts[..|drafts| - 1], first, eventPlanId);
    }
  }

  function EventActions(events: seq<EventPlan>): seq<PlannedAction> {
    if events == [] then [] else EventActions(events[..|events| - 1]) + events[|events| - 1].actions
  }

  lemma EventCounts(inputs: Inputs, m: MatchedEvent, resources: map<Id, SongRef>, issues: map<Id, SongIssue>, first: nat)
    requires Resourced(m, resources, issues)
    ensures Counts(PlanOf(inputs, m, resources, issues, first).actions, first, first + Used(inputs, m, resources, issues))
  {
    if Plannable(inputs, m, issues) {
      EventIsResourced(m, resources, issues);
      NumberedCounts(Drafted(JobOf(inputs, m, resources), inputs.rules).drafts, first, Some(m.sourceId));
    }
  }

  lemma {:induction false} EventsCount(inputs: Inputs, matches: seq<MatchedEvent>, resources: map<Id, SongRef>,
                                       issues: map<Id, SongIssue>, first: nat)
    requires AllResourced(matches, resources, issues)
    ensures Counts(EventActions(PlansOf(inputs, matches, resources, issues, first)), first,
                   NumberAfter(inputs, matches, resources, issues, first))
  {
    hide PlanOf, Used;
    if matches != [] {
      var n := |matches| - 1;
      var before := NumberAfter(inputs, matches[..n], resources, issues, first);
      EventsCount(inputs, matches[..n], resources, issues, first);
      EventCounts(inputs, matches[n], resources, issues, before);
      CountsConcat(EventActions(PlansOf(inputs, matches[..n], resources, issues, first)),
                   PlanOf(inputs, matches[n], resources, issues, before).actions,
                   first, before, NumberAfter(inputs, matches, resources, issues, first));
    }
  }

  /** In the order of execution -- preparation first, then event by event -- the
      numbers of a plan's actions increase strictly, whatever was filtered out or
      discarded on the way. */
  lemma NumbersIncrease(inputs: Inputs, matches: seq<MatchedEvent>, ids: seq<Id>, i: nat, j: nat)
    requires Members(ids) == Required(matches)
    requires var plan := PlanSpec(inputs, matches, ids);
             i < j < |plan.preparation + EventActions(plan.events)|
    ensures var plan := PlanSpec(inputs, matches, ids);
            var all := plan.preparation + EventActions(plan.events);
            all[i].ordinal < all[j].ordinal
  {
    var plan, issues := PlanSpec(inputs, matches, ids), IssueMap(inputs, Required(matches));
    var drafts := Preparations(inputs, ids);
    EventsAreResourced(inputs, matches, Required(matches));
    NumberedCounts(drafts, 0, None);
    CountsFilter(Numbered(drafts, 0, None), (a: PlannedAction) => Wants(a, ViableSongs(matches, issues)), 0, |drafts|);
    CountsFilter(Filter(Numbered(drafts, 0, None), (a: PlannedAction) => Wants(a, ViableSongs(matches, issues))),
                 (a: PlannedAction) => IsNeeded(a, Needed(plan.events)), 0, |drafts|);
    EventsCount(inputs, matches, ResourceMap(inputs, Required(matches)), issues, |drafts|);
    CountsConcat(plan.preparation, EventActions(plan.events), 0, |drafts|,
                 NumberAfter(inputs, matches, ResourceMap(inputs, Required(matches)), issues, |drafts|));
  }

  // The status of an event's plan.

  predicate HasProblem(m: MatchedEvent, issues: map<Id, SongIssue>) {
    exists i :: 0 <= i < |m.songIds| && m.songIds[i] in issues
  }

  predicate HasAmbiguousSong(m: MatchedEvent, issues: map<Id, SongIssue>) {
    exists i :: 0 <= i < |m.songIds| && m.songIds[i] in issues
                && (issues[m.songIds[i]].SourceSongAmbiguous? || issues[m.songIds[i]].TargetSongAmbiguous?)
  }

  lemma {:induction false} ProblemComes(ids: seq<Id>, issues: map<Id, SongIssue>, i: nat) returns (j: nat)
    requires i < |ids| && ids[i] in issues
    ensures j < |SongProblems(ids, issues)| && SongProblems(ids, issues)[j] == SongProblem(ids[i], issues[ids[i]])
  {
    var n := |ids| - 1;
    if i == n {
      j := |SongProblems(ids[..n], issues)|;
    } else {
      j := ProblemComes(ids[..n], issues, i);
    }
  }

  lemma {:induction false} ProblemIs(ids: seq<Id>, issues: map<Id, SongIssue>, j: nat) returns (i: nat)
    requires j < |SongProblems(ids, issues)|
    ensures i < |ids| && ids[i] in issues && SongProblems(ids, issues)[j] == SongProblem(ids[i], issues[ids[i]])
  {
    var n := |ids| - 1;
    if j < |SongProblems(ids[..n], issues)| {
      i := ProblemIs(ids[..n], issues, j);
    } else {
      i := n;
    }
  }

  lemma ProblemsExactly(m: MatchedEvent, issues: map<Id, SongIssue>)
    ensures var problems := SongProblems(Once(m.songIds), issues);
            && (problems != [] <==> HasProblem(m, issues))
            && ((exists i :: 0 <= i < |problems| && IsAmbiguous(problems[i])) <==> HasAmbiguousSong(m, issues))
  {
    var ids := Once(m.songIds);
    var problems := SongProblems(ids, issues);
    if i :| 0 <= i < |m.songIds| && m.songIds[i] in issues {
      OnceMember(m.songIds, m.songIds[i]);
      var k :| 0 <= k < |ids| && ids[k] == m.songIds[i];
      var j := ProblemComes(ids, issues, k);
    }
    if problems != [] {
      var i := ProblemIs(ids, issues, 0);
      OnceMember(m.songIds, ids[i]);
    }
    if j :| 0 <= j < |problems| && IsAmbiguous(problems[j]) {
      var i := ProblemIs(ids, issues, j);
      OnceMember(m.songIds, ids[i]);
      var k :| 0 <= k < |m.songIds| && m.songIds[k] == ids[i];
    }
    if i :| 0 <= i < |m.songIds| && m.songIds[i] in issues
            && (issues[m.songIds[i]].SourceSongAmbiguous? || issues[m.songIds[i]].TargetSongAmbiguous?) {
      OnceMember(m.songIds, m.songIds[i]);
      var k :| 0 <= k < |ids| && ids[k] == m.songIds[i];
      var j := ProblemComes(ids, issues, k);
    }
  }

  /** `a` occurs in `ids` before `b` does. */
  ghost predicate Precedes(ids: seq<Id>, a: Id, b: Id) {
    exists i :: 0 <= i < |ids| && ids[i] == a && b !in ids[..i + 1]
  }

  lemma {:induction false} OnceInOrder(ids: seq<Id>, j: nat, k: nat)
    requires j < k < |Once(ids)|
    ensures Precedes(ids, Once(ids)[j], Once(ids)[k])
  {
    var n := |ids| - 1;
    var rest := Once(ids[..n]);
    if k < |rest| {
      OnceInOrder(ids[..n], j, k);
      var i :| 0 <= i < n && ids[..n][i] == rest[j] && rest[k] !in ids[..n][..i + 1];
      assert ids[..n][..i + 1] == ids[..i + 1];
    } else {
      OnceMember(ids[..n], rest[j]);
      OnceMember(ids[..n], ids[n]);
      var i :| 0 <= i < n && ids[..n][i] == rest[j];
      assert forall x :: x in ids[..i + 1] ==> x in ids[..n];
    }
  }

  lemma {:induction false} ProblemsInOrder(ids: seq<Id>, issues: map<Id, SongIssue>, j: nat, k: nat) returns (a: nat, b: nat)
    requires j < k < |SongProblems(ids, issues)|
    ensures a < b < |ids|
    ensures SongProblems(ids, issues)[j].SongProblem? && SongProblems(ids, issues)[j].songId == ids[a]
    ensures SongProblems(ids, issues)[k].SongProblem? && SongProblems(ids, issues)[k].songId == ids[b]
  {
    var n := |ids| - 1;
    if k < |SongProblems(ids[..n], issues)| {
      a, b := ProblemsInOrder(ids[..n], issues, j, k);
    } else {
      a := ProblemIs(ids[..n], issues, j);
      b := n;
    }
  }

  /** The problems of an event's songs: one for each song that has one, in the order in
      which the songs first occur. */
  ghost predicate Reports(m: MatchedEvent, issues: map<Id, SongIssue>, problems: seq<EventIssue>) {
    && (forall i :: 0 <= i < |m.songIds| && m.songIds[i] in issues ==> SongProblem(m.songIds[i], issues[m.songIds[i]]) in problems)
    && (forall j :: 0 <= j < |problems| ==>
          problems[j].SongProblem? && problems[j].songId in m.songIds && problems[j].songId in issues
          && problems[j].issue == issues[problems[j].songId])
    && forall j, k :: 0 <= j < k < |problems| ==> Precedes(m.songIds, problems[j].songId, problems[k].songId)
  }

  lemma ProblemsAreReported(m: MatchedEvent, issues: map<Id, SongIssue>)
    ensures Reports(m, issues, SongProblems(Once(m.songIds), issues))
  {
    hide Precedes;
    var ids := Once(m.songIds);
    var problems := SongProblems(ids, issues);
    forall i | 0 <= i < |m.songIds| && m.songIds[i] in issues
      ensures SongProblem(m.songIds[i], issues[m.songIds[i]]) in problems
    {
      OnceMember(m.songIds, m.songIds[i]);
      var k :| 0 <= k < |ids| && ids[k] == m.songIds[i];
      var j := ProblemComes(ids, issues, k);
    }
    forall j | 0 <= j < |problems|
      ensures problems[j].SongProblem? && problems[j].songId in m.songIds && problems[j].songId in issues
      ensures problems[j].issue == issues[problems[j].songId]
    {
      var i := ProblemIs(ids, issues, j);
      OnceMember(m.songIds, ids[i]);
    }
    forall j, k | 0 <= j < k < |problems| ensures Precedes(m.songIds, problems[j].songId, problems[k].songId) {
      var a, b := ProblemsInOrder(ids, issues, j, k);
      OnceInOrder(m.songIds, a, b);
    }
  }

  /** What becomes of a matched event.  It is READY if and only if all its songs are
      settled, it has an agenda, the profile has placements and none of them fails; it
      is AMBIGUOUS if and only if one of its songs is, SKIPPED if and only if it has no
      agenda, and FAILED otherwise.  Only a READY event has actions: those planned for
      this profile, on this agenda and with the rows of this event; and the issues are
      those of its songs, or of its placements, or the one thing that is missing. */
  lemma StatusExactly(inputs: Inputs, m: MatchedEvent, resources: map<Id, SongRef>, issues: map<Id, SongIssue>, first: nat)
    requires WellFormed(inputs) && Resourced(m, resources, issues) && m.IsReady()
    ensures var plan, there := PlanOf(inputs, m, resources, issues, first), m.targetId.value in inputs.agendas;
            && (plan.status.AMBIGUOUS? <==> HasAmbiguousSong(m, issues))
            && (plan.status.SKIPPED? <==> !HasProblem(m, issues) && !there)
            && (plan.status.READY? ==> !HasProblem(m, issues) && there && inputs.rules != [])
            && (!plan.status.READY? ==> plan.actions == [])
            && (HasProblem(m, issues) ==> Reports(m, issues, plan.issues))
            && (!HasProblem(m, issues) && !there ==> plan.issues == [AgendaMissing])
            && (!HasProblem(m, issues) && there && inputs.rules == [] ==> plan.issues == [PlacementsMissing])
    ensures !HasProblem(m, issues) && m.targetId.value in inputs.agendas ==>
              var plan, event := PlanOf(inputs, m, resources, issues, first), m.targetId.value;
              var job := Job(inputs.profileId, event, m.songIds, inputs.title, inputs.agendas[event],
                             if event in inputs.ownerships then inputs.ownerships[event] else [], resources, inputs.norm.text);
              && job.Valid()
              && (inputs.rules != [] ==>
                    && |plan.issues| == |Drafted(job, inputs.rules).issues|
                    && forall i :: 0 <= i < |plan.issues| ==> plan.issues[i] == OfPlacement(Drafted(job, inputs.rules).issues[i]))
              && (plan.status.READY? <==> inputs.rules != [] && !HasErrors(Drafted(job, inputs.rules).issues))
              && |plan.actions| == (if plan.status.READY? then |Planned(job, inputs.rules)| else 0)
              && forall i :: 0 <= i < |plan.actions| ==> plan.actions[i].body == Planned(job, inputs.rules)[i]
  {
    hide Drafted, HasErrors, SongProblems, Once, Numbered, Reports;
    ProblemsExactly(m, issues);
    ProblemsAreReported(m, issues);
    if !HasProblem(m, issues) && m.targetId.value in inputs.agendas {
      EventIsResourced(m, resources, issues);
      NumberedBodies(Drafted(JobOf(inputs, m, resources), inputs.rules).drafts, first, Some(m.sourceId));
    }
  }

  /** An event that was not matched keeps its verdict, and has no actions. */
  lemma UnmatchedStays(inputs: Inputs, m: MatchedEvent, resources: map<Id, SongRef>, issues: map<Id, SongIssue>, first: nat)
    requires !m.IsReady()
    ensures Resourced(m, resources, issues) && PlanOf(inputs, m, resources, issues, first).status == m.status
    ensures PlanOf(inputs, m, resources, issues, first).actions == []
  {
  }
}
