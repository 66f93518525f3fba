/** Putting a plan together (planner.py, plan, _plan_song_resources, _plan_event):
    what each song needs, which songs are created first, and the plans of the events,
    numbered by one factory. */
module Assembly {
  import opened Prelude
  import opened Agendas
  import opened Actions
  import opened Sorting
  import opened Placements
  import opened PlacementLoops
  import SongMatching
  import EventMatching

  datatype Arrangement = Arrangement(id: Id, isDefault: bool)

  datatype MatchedEvent = MatchedEvent(sourceId: Id, songIds: seq<Id>, targetId: Option<Id>, status: EventMatching.Verdict)
  {
    predicate IsReady() { status.READY? && targetId.Some? }
  }

  datatype Inputs = Inputs(
    profileId: Id, rules: seq<PlacementRule>, title: string, autoCreate: bool, category: Option<int>, arrangementName: string,
    sourceSongs: seq<SongMatching.SourceSong>, targetSongs: seq<SongMatching.TargetSong>,
    arrangements: Id -> seq<Arrangement>, norm: SongMatching.Norm,
    agendas: map<Id, Agenda>, ownerships: map<Id, seq<Ownership>>)

  datatype SongIssue = SourceSongMissing | SourceSongAmbiguous | TargetSongAmbiguous | TargetSongMissing

  /** What a song of the setlist needs. */
  datatype SongNeed =
    | Known(ref: SongRef)
    | Prepare(ref: SongRef, body: Body)
    | Problem(issue: SongIssue)

  function SongKey(id: Id): Key { "song:" + id }
  function ArrangementKey(id: Id): Key { "arrangement:" + id }

  /** The default arrangement, or else the one with the smallest id. */
  function SelectArrangement(arrangements: seq<Arrangement>): Option<Arrangement> {
    if arrangements == [] then None
    else
      var k := FirstIndex(arrangements, (a: Arrangement) => a.isDefault);
      if k < |arrangements| then Some(arrangements[k])
      else Some(Smallest(arrangements))
  }

  function Smallest(arrangements: seq<Arrangement>): (a: Arrangement)
    requires arrangements != []
    ensures a in arrangements
  {
    if |arrangements| == 1 then arrangements[0]
    else
      var rest := Smallest(arrangements[1..]);
      if StringLeq(arrangements[0].id, rest.id) then arrangements[0] else rest
  }

  function NeedOf(inputs: Inputs, id: Id): SongNeed {
    var candidates := Filter(inputs.sourceSongs, (s: SongMatching.SourceSong) => s.id == id);
    if candidates == [] then Problem(SourceSongMissing)
    else if |candidates| > 1 then Problem(SourceSongAmbiguous)
    else
      match SongMatching.Scan(candidates[0], inputs.targetSongs, inputs.norm)
      case Ambiguous(_) => Problem(TargetSongAmbiguous)
      case Found(target, _) =>
        var arrangement := SelectArrangement(inputs.arrangements(target.id));
        if arrangement.Some? then Known(SongRef(Some(target.id), None, Some(arrangement.value.id), None))
        else
          Prepare(SongRef(Some(target.id), None, None, Some(ArrangementKey(id))),
                  CreateArrangement(id, target.id, inputs.arrangementName, ArrangementKey(id)))
      case NoMatch =>
        if !inputs.autoCreate then Problem(TargetSongMissing)
        else
          Prepare(SongRef(None, Some(SongKey(id)), None, Some(ArrangementKey(id))),
                  CreateSong(id, candidates[0].name, candidates[0].artist, candidates[0].ccli, inputs.category, SongKey(id),
                             inputs.arrangementName, ArrangementKey(id)))
  }

  function Members<T>(s: seq<T>): set<T> { set x | x in s }

  /** Ids of the songs that READY events use. */
  function Required(matches: seq<MatchedEvent>): set<Id> {
    if matches == [] then {}
    else
      var m := matches[|matches| - 1];
      Required(matches[..|matches| - 1]) + (if m.IsReady() then Members(m.songIds) else {})
  }

  ghost predicate Ascending(ids: seq<Id>) {
    forall i, j :: 0 <= i < j < |ids| ==> StringLeq(ids[i], ids[j]) && ids[i] != ids[j]
  }

  /** The resource of every song that has one. */
  function ResourceMap(inputs: Inputs, ids: set<Id>): map<Id, SongRef> {
    map id | id in ids && !NeedOf(inputs, id).Problem? :: NeedOf(inputs, id).ref
  }

  function IssueMap(inputs: Inputs, ids: set<Id>): map<Id, SongIssue> {
    map id | id in ids && NeedOf(inputs, id).Problem? :: NeedOf(inputs, id).issue
  }

  function Preparations(inputs: Inputs, ids: seq<Id>): seq<Draft> {
    if ids == [] then []
    else
      var id := ids[|ids| - 1];
      Preparations(inputs, ids[..|ids| - 1])
      + (if NeedOf(inputs, id).Prepare? then [Draft(NeedOf(inputs, id).body, [])] else [])
  }

  function Produces(body: Body): seq<Key> {
    match body
    case CreateSong(_, _, _, _, _, songKey, _, arrangementKey) => [songKey, arrangementKey]
    case CreateArrangement(_, _, _, key) => [key]
    case InsertItem(_, _, _, _, key, _, _) => [key]
    case _ => []
  }

  // What each song gets, told without the planner's own decision.

  predicate SoleSource(inputs: Inputs, id: Id, k: nat) {
    && k < |inputs.sourceSongs| && inputs.sourceSongs[k].id == id
    && forall j :: 0 <= j < |inputs.sourceSongs| && j != k ==> inputs.sourceSongs[j].id != id
  }

  predicate NoSource(inputs: Inputs, id: Id) {
    forall j :: 0 <= j < |inputs.sourceSongs| ==> inputs.sourceSongs[j].id != id
  }

  /** The first default arrangement, if there is one, else one with the least id; none
      only where there are none. */
  ghost predicate Chooses(arrangements: seq<Arrangement>, chosen: Option<Id>) {
    if arrangements == [] then chosen == None
    else exists k :: ChoosesAt(arrangements, chosen, k)
  }

  predicate ChoosesAt(arrangements: seq<Arrangement>, chosen: Option<Id>, k: int) {
    && 0 <= k < |arrangements| && chosen == Some(arrangements[k].id)
    && if exists j :: 0 <= j < |arrangements| && arrangements[j].isDefault
       then arrangements[k].isDefault && forall j :: 0 <= j < k ==> !arrangements[j].isDefault
       else forall j :: 0 <= j < |arrangements| ==> StringLeq(arrangements[k].id, arrangements[j].id)
  }

  /** The only preparation for song `id` is `body`, or there is none. */
  ghost predicate PreparedBy(actions: seq<PlannedAction>, id: Id, body: Option<Body>) {
    && (forall j :: 0 <= j < |actions| && SourceSongOf(actions[j].body) == Some(id) ==> Some(actions[j].body) == body)
    && (body.Some? ==> exists j :: 0 <= j < |actions| && actions[j].body == body.value)
  }

  /** The song has a problem, and nothing is prepared for it. */
  ghost predicate Fails(id: Id, issue: SongIssue, resources: map<Id, SongRef>, issues: map<Id, SongIssue>, actions: seq<PlannedAction>) {
    id !in resources && id in issues && issues[id] == issue && PreparedBy(actions, id, None)
  }

  /** What a required song gets: an issue, the song and arrangement it matches, or the
      keys of what is created for it first. */
  ghost predicate Settled(inputs: Inputs, id: Id, resources: map<Id, SongRef>, issues: map<Id, SongIssue>, actions: seq<PlannedAction>) {
    if NoSource(inputs, id) then Fails(id, SourceSongMissing, resources, issues, actions)
    else if forall k :: 0 <= k < |inputs.sourceSongs| ==> !SoleSource(inputs, id, k) then
      Fails(id, SourceSongAmbiguous, resources, issues, actions)
    else
      forall k :: 0 <= k < |inputs.sourceSongs| && SoleSource(inputs, id, k) ==>
        SettledAs(inputs, id, inputs.sourceSongs[k], resources, issues, actions)
  }

  ghost predicate SettledAs(inputs: Inputs, id: Id, source: SongMatching.SourceSong, resources: map<Id, SongRef>,
                            issues: map<Id, SongIssue>, actions: seq<PlannedAction>)
  {
    match SongMatching.Scan(source, inputs.targetSongs, inputs.norm)
    case Ambiguous(_) => Fails(id, TargetSongAmbiguous, resources, issues, actions)
    case Found(target, _) =>
      var arrangements, key := inputs.arrangements(target.id), "arrangement:" + id;
      && id in resources && id !in issues && resources[id].songId == Some(target.id) && resources[id].songKey == None
      && Chooses(arrangements, resources[id].arrangementId)
      && resources[id].arrangementKey == (if arrangements == [] then Some(key) else None)
      && PreparedBy(actions, id,
                    if arrangements == [] then Some(CreateArrangement(id, target.id, inputs.arrangementName, key)) else None)
    case NoMatch =>
      if !inputs.autoCreate then Fails(id, TargetSongMissing, resources, issues, actions)
      else
        var song, arrangement := "song:" + id, "arrangement:" + id;
        && id in resources && id !in issues
        && resources[id] == SongRef(None, Some(song), None, Some(arrangement))
        && PreparedBy(actions, id, Some(CreateSong(id, source.name, source.artist, source.ccli, inputs.category, song,
                                                   inputs.arrangementName, arrangement)))
  }

  lemma {:induction false} SmallestIsLeast(arrangements: seq<Arrangement>, k: nat)
    requires k < |arrangements|
    ensures StringLeq(Smallest(arrangements).id, arrangements[k].id)
  {
    StringOrder();
    if |arrangements| > 1 {
      if k > 0 {
        SmallestIsLeast(arrangements[1..], k - 1);
      } else {
        SmallestIsLeast(arrangements[1..], 0);
      }
    }
  }

  lemma SelectChooses(arrangements: seq<Arrangement>)
    ensures var chosen := SelectArrangement(arrangements);
            Chooses(arrangements, if chosen.Some? then Some(chosen.value.id) else None)
  {
    if arrangements != [] {
      var k := FirstIndex(arrangements, (a: Arrangement) => a.isDefault);
      if k < |arrangements| {
        assert ChoosesAt(arrangements, Some(arrangements[k].id), k);
      } else {
        var least := Smallest(arrangements);
        var i :| 0 <= i < |arrangements| && arrangements[i] == least;
        forall j | 0 <= j < |arrangements| ensures StringLeq(least.id, arrangements[j].id) {
          SmallestIsLeast(arrangements, j);
        }
        assert ChoosesAt(arrangements, Some(least.id), i);
      }
    }
  }

  function CandidatesOf(inputs: Inputs, id: Id): seq<SongMatching.SourceSong> {
    Filter(inputs.sourceSongs, (s: SongMatching.SourceSong) => s.id == id)
  }

  lemma SoleCandidate(inputs: Inputs, id: Id, k: nat)
    requires SoleSource(inputs, id, k)
    ensures CandidatesOf(inputs, id) == [inputs.sourceSongs[k]]
  {
    FilterSole(inputs.sourceSongs, (s: SongMatching.SourceSong) => s.id == id, k);
  }

  lemma ManyCandidates(inputs: Inputs, id: Id, i: nat, j: nat)
    requires i < j < |inputs.sourceSongs| && inputs.sourceSongs[i].id == id == inputs.sourceSongs[j].id
    ensures |CandidatesOf(inputs, id)| > 1
  {
    FilterMany(inputs.sourceSongs, (s: SongMatching.SourceSong) => s.id == id, i, j);
  }

  lemma {:induction false} PreparedFrom(inputs: Inputs, ids: seq<Id>, j: nat)
    requires j < |Preparations(inputs, ids)|
    ensures exists id :: id in ids && NeedOf(inputs, id).Prepare? && Preparations(inputs, ids)[j].body == NeedOf(inputs, id).body
  {
    hide NeedOf;
    var n := |ids| - 1;
    if j < |Preparations(inputs, ids[..n])| {
      PreparedFrom(inputs, ids[..n], j);
    } else {
      assert ids[n] in ids;
    }
  }

  lemma {:induction false} PreparedFor(inputs: Inputs, ids: seq<Id>, id: Id) returns (j: nat)
    requires id in ids && NeedOf(inputs, id).Prepare?
    ensures j < |Preparations(inputs, ids)| && Preparations(inputs, ids)[j].body == NeedOf(inputs, id).body
  {
    hide NeedOf;
    var n := |ids| - 1;
    if id == ids[n] {
      j := |Preparations(inputs, ids[..n])|;
    } else {
      j := PreparedFor(inputs, ids[..n], id);
    }
  }

  lemma NeedNames(inputs: Inputs, id: Id)
    requires NeedOf(inputs, id).Prepare?
    ensures SourceSongOf(NeedOf(inputs, id).body) == Some(id)
  {
  }

  lemma {:induction false} NumberedBodies(drafts: seq<Draft>, first: nat, eventPlanId: Option<Id>)
    ensures forall j :: 0 <= j < |drafts| ==> Numbered(drafts, first, eventPlanId)[j].body == drafts[j].body
  {
    if drafts != [] {
      NumberedBodies(drafts[..|drafts| - 1], first, eventPlanId);
    }
  }

  lemma PreparedExactly(inputs: Inputs, ids: seq<Id>, first: nat, id: Id)
    requires id in ids
    ensures PreparedBy(Numbered(Preparations(inputs, ids), first, None), id,
                       if NeedOf(inputs, id).Prepare? then Some(NeedOf(inputs, id).body) else None)
  {
    hide NeedOf;
    var drafts := Preparations(inputs, ids);
    var actions := Numbered(drafts, first, None);
    NumberedBodies(drafts, first, None);
    forall j | 0 <= j < |actions| && SourceSongOf(actions[j].body) == Some(id)
      ensures NeedOf(inputs, id).Prepare? && actions[j].body == NeedOf(inputs, id).body
    {
      PreparedFrom(inputs, ids, j);
      var other :| other in ids && NeedOf(inputs, other).Prepare? && drafts[j].body == NeedOf(inputs, other).body;
      NeedNames(inputs, other);
    }
    if NeedOf(inputs, id).Prepare? {
      var j := PreparedFor(inputs, ids, id);
    }
  }

  /** What the song loop returns is what the song is meant to get. */
  lemma SongIsSettled(inputs: Inputs, ids: seq<Id>, first: nat, id: Id)
    requires id in ids
    ensures Settled(inputs, id, ResourceMap(inputs, Members(ids)), IssueMap(inputs, Members(ids)),
                    Numbered(Preparations(inputs, ids), first, None))
  {
    hide Preparations, Chooses, SelectArrangement, SongMatching.Scan, PreparedBy;
    PreparedExactly(inputs, ids, first, id);
    var songs := inputs.sourceSongs;
    if NoSource(inputs, id) {
      FilterNone(songs, (s: SongMatching.SourceSong) => s.id == id);
    } else if k :| 0 <= k < |songs| && SoleSource(inputs, id, k) {
      SoleCandidate(inputs, id, k);
      SourceIsSettled(inputs, ids, first, id, k);
      forall other | 0 <= other < |songs| && SoleSource(inputs, id, other) ensures other == k {}
    } else {
      var i :| 0 <= i < |songs| && songs[i].id == id;
      assert !SoleSource(inputs, id, i);
      var j :| 0 <= j < |songs| && j != i && songs[j].id == id;
      ManyCandidates(inputs, id, if i < j then i else j, if i < j then j else i);
    }
  }

  lemma SourceIsSettled(inputs: Inputs, ids: seq<Id>, first: nat, id: Id, k: nat)
    requires id in ids && SoleSource(inputs, id, k)
    ensures SettledAs(inputs, id, inputs.sourceSongs[k], ResourceMap(inputs, Members(ids)), IssueMap(inputs, Members(ids)),
                      Numbered(Preparations(inputs, ids), first, None))
  {
    hide Preparations, Chooses, SelectArrangement, SongMatching.Scan, PreparedBy;
    PreparedExactly(inputs, ids, first, id);
    SoleCandidate(inputs, id, k);
    match SongMatching.Scan(inputs.sourceSongs[k], inputs.targetSongs, inputs.norm) {
      case Found(target, _) => SelectChooses(inputs.arrangements(target.id));
      case _ =>
    }
    SelectNone(inputs);
  }

  lemma SelectNone(inputs: Inputs)
    ensures forall id :: SelectArrangement(inputs.arrangements(id)).None? <==> inputs.arrangements(id) == []
  {
  }

  // The song loop.

  method SortIds(ids: set<Id>) returns (sorted: seq<Id>)
    ensures Ascending(sorted) && forall id :: id in sorted <==> id in ids
  {
    var rest := ids;
    var listed: seq<Id> := [];
    while rest != {}
      invariant forall id :: id in ids <==> id in rest || id in listed
      invariant forall id :: id in listed ==> id !in rest
      invariant forall i, j :: 0 <= i < j < |listed| ==> listed[i] != listed[j]
      decreases rest
    {
      var id :| id in rest;
      rest := rest - {id};
      listed := listed + [id];
    }
    sorted := Sort(listed, StringLeq);
    SortedIds(listed);
  }

  lemma SortedIds(ids: seq<Id>)
    requires forall i, j :: 0 <= i < j < |ids| ==> ids[i] != ids[j]
    ensures Ascending(Sort(ids, StringLeq)) && forall id :: id in Sort(ids, StringLeq) <==> id in ids
  {
    var sorted := Sort(ids, StringLeq);
    StringOrder();
    SortSorts(ids, StringLeq);
    SortPermutes(ids, StringLeq);
    assert forall id :: id in sorted <==> id in multiset(sorted);
    assert forall id :: id in ids <==> id in multiset(ids);
    forall i, j | 0 <= i < j < |sorted| ensures sorted[i] != sorted[j] {
      if sorted[i] == sorted[j] {
        Twice(sorted, i, j);
        EventMatching.CountNoRepeats(ids, sorted[i]);
      }
    }
  }

  lemma Twice<T>(s: seq<T>, i: nat, j: nat)
    requires i < j < |s| && s[i] == s[j]
    ensures multiset(s)[s[i]] >= 2
  {
    assert s == s[..j] + s[j..];
    assert s[..j][i] == s[i] && s[j..][0] == s[j];
  }

  ghost function First(ids: seq<Id>, k: nat): set<Id>
    requires k <= |ids|
  {
    set i | 0 <= i < k :: ids[i]
  }

  lemma NextSong(inputs: Inputs, ids: seq<Id>, k: nat)
    requires k < |ids| && Ascending(ids)
    ensures var need, before, after := NeedOf(inputs, ids[k]), First(ids, k), First(ids, k + 1);
            && ResourceMap(inputs, after)
               == (if need.Problem? then ResourceMap(inputs, before) else ResourceMap(inputs, before)[ids[k] := need.ref])
            && IssueMap(inputs, after)
               == (if need.Problem? then IssueMap(inputs, before)[ids[k] := need.issue] else IssueMap(inputs, before))
            && Preparations(inputs, ids[..k + 1])
               == (if need.Prepare? then Preparations(inputs, ids[..k]) + [Draft(need.body, [])]
                   else Preparations(inputs, ids[..k]))
  {
    hide NeedOf;
    assert ids[..k + 1][..k] == ids[..k];
    assert First(ids, k + 1) == First(ids, k) + {ids[k]};
  }

  lemma NoSongs(inputs: Inputs, ids: seq<Id>)
    ensures First(ids, 0) == {} && ResourceMap(inputs, {}) == map[] && IssueMap(inputs, {}) == map[]
    ensures Preparations(inputs, ids[..0]) == [] && ids[..|ids|] == ids
    ensures First(ids, |ids|) == Members(ids)
  {
    assert forall id :: id in ids ==> id in First(ids, |ids|);
  }

  /** `_plan_song_resources`, up to the filter at its end. */
  method PlanSongResources(inputs: Inputs, ids: seq<Id>, factory: ActionFactory)
    returns (resources: map<Id, SongRef>, issues: map<Id, SongIssue>, actions: seq<PlannedAction>)
    requires Ascending(ids)
    modifies factory
    ensures resources == ResourceMap(inputs, Members(ids)) && issues == IssueMap(inputs, Members(ids))
    ensures actions == Numbered(Preparations(inputs, ids), old(factory.ordinal), None)
    ensures forall id :: id in ids ==> Settled(inputs, id, resources, issues, actions)
    ensures factory.ordinal == old(factory.ordinal) + |Preparations(inputs, ids)|
  {
    hide *;
    resources, issues, actions := map[], map[], [];
    var index := new SongMatching.SongIndex(inputs.targetSongs, inputs.norm);
    ghost var first := factory.ordinal;
    NoSongs(inputs, ids);
    NothingNumbered(first);
    for k := 0 to |ids|
      invariant index.norm == inputs.norm && index.Indexes(inputs.targetSongs)
      invariant resources == ResourceMap(inputs, First(ids, k)) && issues == IssueMap(inputs, First(ids, k))
      invariant actions == Numbered(Preparations(inputs, ids[..k]), first, None)
      invariant factory.ordinal == first + |Preparations(inputs, ids[..k])|
    {
      var id := ids[k];
      NextSong(inputs, ids, k);
      var need := DecideSong(inputs, id, index);
      match need {
        case Problem(issue) => issues := issues[id := issue];
        case Known(ref) => resources := resources[id := ref];
        case Prepare(ref, body) =>
          NumberedAppend(Preparations(inputs, ids[..k]), Draft(body, []), first, None);
          var action := factory.Make(Draft(body, []), None);
          actions := actions + [action];
          resources := resources[id := ref];
      }
    }
    forall id | id in ids ensures Settled(inputs, id, resources, issues, actions) {
      assert ids[..|ids|] == ids;
      SongIsSettled(inputs, ids, first, id);
    }
  }

  lemma NothingNumbered(first: nat)
    ensures Numbered([], first, None) == []
  {
  }

  /** The body of the loop: what one song needs, found with the index. */
  method DecideSong(inputs: Inputs, id: Id, index: SongMatching.SongIndex) returns (need: SongNeed)
    requires index.norm == inputs.norm && index.Indexes(inputs.targetSongs)
    ensures need == NeedOf(inputs, id)
  {
    var candidates := Filter(inputs.sourceSongs, (s: SongMatching.SourceSong) => s.id == id);
    if candidates == [] {
      return Problem(SourceSongMissing);
    }
    if |candidates| > 1 {
      return Problem(SourceSongAmbiguous);
    }
    var source := candidates[0];
    var found := index.Match(source, inputs.targetSongs);
    match found {
      case Ambiguous(_) => need := Problem(TargetSongAmbiguous);
      case Found(target, _) =>
        var arrangement := SelectArrangement(inputs.arrangements(target.id));
        if arrangement.Some? {
          return Known(SongRef(Some(target.id), None, Some(arrangement.value.id), None));
        }
        need := Prepare(SongRef(Some(target.id), None, None, Some(ArrangementKey(id))),
                        CreateArrangement(id, target.id, inputs.arrangementName, ArrangementKey(id)));
      case NoMatch =>
        if !inputs.autoCreate {
          return Problem(TargetSongMissing);
        }
        need := Prepare(SongRef(None, Some(SongKey(id)), None, Some(ArrangementKey(id))),
                        CreateSong(id, source.name, source.artist, source.ccli, inputs.category, SongKey(id),
                                   inputs.arrangementName, ArrangementKey(id)));
    }
  }

  // The events.

  datatype EventIssue =
    | NotMatched
    | SongProblem(songId: Id, issue: SongIssue)
    | AgendaMissing
    | PlacementsMissing
    | OfPlacement(found: Issue)

  datatype EventPlan = EventPlan(
    sourceId: Id, targetId: Option<Id>, status: EventMatching.Verdict, agenda: Option<Agenda>,
    actions: seq<PlannedAction>, issues: seq<EventIssue>)

  function JobOf(inputs: Inputs, m: MatchedEvent, resources: map<Id, SongRef>): Job
    requires m.IsReady() && m.targetId.value in inputs.agendas
  {
    Job(inputs.profileId, m.targetId.value, m.songIds, inputs.title, inputs.agendas[m.targetId.value],
        if m.targetId.value in inputs.ownerships then inputs.ownerships[m.targetId.value] else [],
        resources, inputs.norm.text)
  }

  /** Python's `dict.fromkeys`: first occurrences, in order. */
  function Once(ids: seq<Id>): seq<Id> {
    if ids == [] then []
    else
      var rest := Once(ids[..|ids| - 1]);
      if ids[|ids| - 1] in rest then rest else rest + [ids[|ids| - 1]]
  }

  lemma {:induction false} OnceMember(ids: seq<Id>, id: Id)
    ensures id in Once(ids) <==> id in ids
  {
    if ids != [] {
      OnceMember(ids[..|ids| - 1], id);
      assert ids == ids[..|ids| - 1] + [ids[|ids| - 1]];
    }
  }

  function SongProblems(ids: seq<Id>, issues: map<Id, SongIssue>): seq<EventIssue> {
    if ids == [] then []
    else
      var id := ids[|ids| - 1];
      SongProblems(ids[..|ids| - 1], issues) + (if id in issues then [SongProblem(id, issues[id])] else [])
  }

  predicate IsAmbiguous(issue: EventIssue) {
    issue.SongProblem? && (issue.issue.SourceSongAmbiguous? || issue.issue.TargetSongAmbiguous?)
  }

  /** The agendas of the plan's events are well formed (see Placements.Job.Valid). */
  ghost predicate WellFormed(inputs: Inputs) {
    forall id :: id in inputs.agendas ==> DistinctIds(inputs.agendas[id])
  }

  ghost predicate Resourced(m: MatchedEvent, resources: map<Id, SongRef>, issues: map<Id, SongIssue>) {
    m.IsReady() ==> forall i :: 0 <= i < |m.songIds| ==> m.songIds[i] in resources || m.songIds[i] in issues
  }

  lemma {:induction false} ProblemsEmpty(ids: seq<Id>, issues: map<Id, SongIssue>)
    ensures SongProblems(ids, issues) == [] <==> forall i :: 0 <= i < |ids| ==> ids[i] !in issues
  {
    if ids != [] {
      var n := |ids| - 1;
      ProblemsEmpty(ids[..n], issues);
      assert forall i :: 0 <= i < n ==> ids[..n][i] == ids[i];
      assert SongProblems(ids, issues) == [] <==> SongProblems(ids[..n], issues) == [] && ids[n] !in issues;
    }
  }

  /** What an event needs before its placements are planned. */
  predicate Plannable(inputs: Inputs, m: MatchedEvent, issues: map<Id, SongIssue>) {
    && m.IsReady() && SongProblems(Once(m.songIds), issues) == []
    && m.targetId.value in inputs.agendas && inputs.rules != []
  }

  /** `_plan_event`; `first` is the number the factory stands at. */
  ghost function PlanOf(inputs: Inputs, m: MatchedEvent, resources: map<Id, SongRef>, issues: map<Id, SongIssue>, first: nat): EventPlan
    requires Resourced(m, resources, issues)
  {
    if !m.IsReady() then EventPlan(m.sourceId, m.targetId, m.status, None, [], [NotMatched])
    else
      var problems := SongProblems(Once(m.songIds), issues);
      if problems != [] then
        EventPlan(m.sourceId, m.targetId,
                  if exists i :: 0 <= i < |problems| && IsAmbiguous(problems[i]) then EventMatching.AMBIGUOUS
                  else EventMatching.FAILED,
                  None, [], problems)
      else if m.targetId.value !in inputs.agendas then
        EventPlan(m.sourceId, m.targetId, EventMatching.SKIPPED, None, [], [AgendaMissing])
      else if inputs.rules == [] then
        EventPlan(m.sourceId, m.targetId, EventMatching.FAILED, Some(inputs.agendas[m.targetId.value]), [], [PlacementsMissing])
      else
        EventIsResourced(m, resources, issues);
        var job := JobOf(inputs, m, resources);
        var planning := Drafted(job, inputs.rules);
        EventPlan(m.sourceId, m.targetId, if HasErrors(planning.issues) then EventMatching.FAILED else EventMatching.READY,
                  Some(job.items),
                  if HasErrors(planning.issues) then [] else Numbered(planning.drafts, first, Some(m.sourceId)),
                  OfPlacements(planning.issues))
  }

  function OfPlacements(issues: seq<Issue>): seq<EventIssue> {
    seq(|issues|, i requires 0 <= i < |issues| => OfPlacement(issues[i]))
  }

  /** How many numbers planning the event uses up, even where its actions are discarded. */
  ghost function Used(inputs: Inputs, m: MatchedEvent, resources: map<Id, SongRef>, issues: map<Id, SongIssue>): nat
    requires Resourced(m, resources, issues)
  {
    if Plannable(inputs, m, issues) then
      EventIsResourced(m, resources, issues);
      |Drafted(JobOf(inputs, m, resources), inputs.rules).drafts|
    else 0
  }

  method PlanEvent(inputs: Inputs, m: MatchedEvent, resources: map<Id, SongRef>, issues: map<Id, SongIssue>,
                   factory: ActionFactory) returns (plan: EventPlan)
    requires WellFormed(inputs) && Resourced(m, resources, issues)
    modifies factory
    ensures plan == PlanOf(inputs, m, resources, issues, old(factory.ordinal))
    ensures factory.ordinal == old(factory.ordinal) + Used(inputs, m, resources, issues)
  {
    if !m.IsReady() {
      return EventPlan(m.sourceId, m.targetId, m.status, None, [], [NotMatched]);
    }
    var problems := SongProblems(Once(m.songIds), issues);
    if problems != [] {
      var ambiguous := exists i :: 0 <= i < |problems| && IsAmbiguous(problems[i]);
      return EventPlan(m.sourceId, m.targetId, if ambiguous then EventMatching.AMBIGUOUS else EventMatching.FAILED, None, [], problems);
    }
    if m.targetId.value !in inputs.agendas {
      return EventPlan(m.sourceId, m.targetId, EventMatching.SKIPPED, None, [], [AgendaMissing]);
    }
    if inputs.rules == [] {
      return EventPlan(m.sourceId, m.targetId, EventMatching.FAILED, Some(inputs.agendas[m.targetId.value]), [], [PlacementsMissing]);
    }
    EventIsResourced(m, resources, issues);
    var job := JobOf(inputs, m, resources);
    var actions, found := PlanPlacements(job, inputs.rules, m.sourceId, factory);
    plan := EventPlan(m.sourceId, m.targetId, if HasErrors(found) then EventMatching.FAILED else EventMatching.READY,
                      Some(job.items), actions, OfPlacements(found));
  }

  lemma EventIsResourced(m: MatchedEvent, resources: map<Id, SongRef>, issues: map<Id, SongIssue>)
    requires Resourced(m, resources, issues) && m.IsReady() && SongProblems(Once(m.songIds), issues) == []
    ensures forall i :: 0 <= i < |m.songIds| ==> m.songIds[i] in resources && m.songIds[i] !in issues
  {
    ProblemsEmpty(Once(m.songIds), issues);
    forall i | 0 <= i < |m.songIds| ensures m.songIds[i] !in issues {
      OnceMember(m.songIds, m.songIds[i]);
    }
  }

  // The whole plan.

  datatype Plan = Plan(preparation: seq<PlannedAction>, events: seq<EventPlan>)

  ghost predicate AllResourced(matches: seq<MatchedEvent>, resources: map<Id, SongRef>, issues: map<Id, SongIssue>) {
    forall k :: 0 <= k < |matches| ==> Resourced(matches[k], resources, issues)
  }

  /** The factory's number after the first events. */
  ghost function NumberAfter(inputs: Inputs, matches: seq<MatchedEvent>, resources: map<Id, SongRef>,
                             issues: map<Id, SongIssue>, first: nat): (n: nat)
    requires AllResourced(matches, resources, issues)
    ensures n >= first
  {
    if matches == [] then first
    else
      var k := |matches| - 1;
      NumberAfter(inputs, matches[..k], resources, issues, first) + Used(inputs, matches[k], resources, issues)
  }

  ghost function PlansOf(inputs: Inputs, matches: seq<MatchedEvent>, resources: map<Id, SongRef>,
                         issues: map<Id, SongIssue>, first: nat): (plans: seq<EventPlan>)
    requires AllResourced(matches, resources, issues)
    ensures |plans| == |matches|
  {
    if matches == [] then []
    else
      var k := |matches| - 1;
      PlansOf(inputs, matches[..k], resources, issues, first)
      + [PlanOf(inputs, matches[k], resources, issues, NumberAfter(inputs, matches[..k], resources, issues, first))]
  }

  /** Keys that some action of a READY event waits for. */
  function NeededBy(actions: seq<PlannedAction>): set<Key> {
    if actions == [] then {}
    else NeededBy(actions[..|actions| - 1]) + Members(actions[|actions| - 1].dependencies)
  }

  function Needed(events: seq<EventPlan>): set<Key> {
    if events == [] then {}
    else
      var last := events[|events| - 1];
      Needed(events[..|events| - 1]) + (if last.status.READY? then NeededBy(last.actions) else {})
  }

  function SourceSongOf(body: Body): Option<Id> {
    match body
    case CreateSong(id, _, _, _, _, _, _, _) => Some(id)
    case CreateArrangement(id, _, _, _) => Some(id)
    case _ => None
  }

  predicate Wants(action: PlannedAction, viable: set<Id>) {
    SourceSongOf(action.body).Some? && SourceSongOf(action.body).value in viable
  }

  predicate IsNeeded(action: PlannedAction, needed: set<Key>) {
    exists i :: 0 <= i < |Produces(action.body)| && Produces(action.body)[i] in needed
  }

  /** Songs of events without song problems. */
  function ViableSongs(matches: seq<MatchedEvent>, issues: map<Id, SongIssue>): set<Id> {
    if matches == [] then {}
    else
      var m := matches[|matches| - 1];
      ViableSongs(matches[..|matches| - 1], issues)
      + (if m.IsReady() && (forall i :: 0 <= i < |m.songIds| ==> m.songIds[i] !in issues) then Members(m.songIds) else {})
  }

  function Kept(actions: seq<PlannedAction>, viable: set<Id>, needed: set<Key>): seq<PlannedAction> {
    Filter(Filter(actions, (a: PlannedAction) => Wants(a, viable)), (a: PlannedAction) => IsNeeded(a, needed))
  }

  lemma {:induction false} RequiredMember(matches: seq<MatchedEvent>, id: Id)
    ensures id in Required(matches) <==> exists k :: 0 <= k < |matches| && matches[k].IsReady() && id in matches[k].songIds
  {
    if matches != [] {
      var n := |matches| - 1;
      RequiredMember(matches[..n], id);
      if id in Required(matches[..n]) {
        var k :| 0 <= k < n && matches[..n][k].IsReady() && id in matches[..n][k].songIds;
        assert matches[k] == matches[..n][k];
      }
      if exists k :: 0 <= k < n && matches[k].IsReady() && id in matches[k].songIds {
        var k :| 0 <= k < n && matches[k].IsReady() && id in matches[k].songIds;
        assert matches[..n][k] == matches[k];
      }
    }
  }

  lemma EventsAreResourced(inputs: Inputs, matches: seq<MatchedEvent>, ids: set<Id>)
    requires ids == Required(matches)
    ensures AllResourced(matches, ResourceMap(inputs, ids), IssueMap(inputs, ids))
  {
    forall k | 0 <= k < |matches| ensures Resourced(matches[k], ResourceMap(inputs, ids), IssueMap(inputs, ids)) {
      if matches[k].IsReady() {
        forall i | 0 <= i < |matches[k].songIds| ensures matches[k].songIds[i] in ids {
          RequiredMember(matches, matches[k].songIds[i]);
        }
      }
    }
  }

  /** What the planner returns, for songs taken in the order `ids`. */
  ghost function PlanSpec(inputs: Inputs, matches: seq<MatchedEvent>, ids: seq<Id>): Plan
    requires Members(ids) == Required(matches)
  {
    EventsAreResourced(inputs, matches, Required(matches));
    var resources, issues := ResourceMap(inputs, Required(matches)), IssueMap(inputs, Required(matches));
    var drafts := Preparations(inputs, ids);
    var events := PlansOf(inputs, matches, resources, issues, |drafts|);
    Plan(Kept(Numbered(drafts, 0, None), ViableSongs(matches, issues), Needed(events)), events)
  }

  /** The order in which the song loop takes the required songs. */
  ghost predicate SongOrder(ids: seq<Id>, matches: seq<MatchedEvent>) {
    Ascending(ids) && Members(ids) == Required(matches)
  }

  lemma SmallestAgree(a: seq<Id>, b: seq<Id>)
    requires Ascending(a) && Ascending(b) && a != [] && b != [] && a[0] in b && b[0] in a
    ensures a[0] == b[0]
  {
    var k, j :| 0 <= k < |a| && a[k] == b[0] && 0 <= j < |b| && b[j] == a[0];
    if k > 0 && j > 0 {
      StringLeqAntisymmetric(a[0], b[0]);
    }
  }

  /** There is only one such order. */
  lemma {:induction false} AscendingIsUnique(a: seq<Id>, b: seq<Id>)
    requires Ascending(a) && Ascending(b) && forall id :: id in a <==> id in b
    ensures a == b
  {
    assert forall i :: 0 <= i < |b| ==> b[i] in a;
    assert b != [] ==> b[0] in a;
    if a != [] {
      assert a[0] in b && b != [];
      SmallestAgree(a, b);
      forall id ensures id in a[1..] <==> id in b[1..] {
        assert id in a <==> id == a[0] || id in a[1..];
        assert id in b <==> id == b[0] || id in b[1..];
      }
      AscendingIsUnique(a[1..], b[1..]);
      assert a == [a[0]] + a[1..] && b == [b[0]] + b[1..];
    }
  }

  /** `plan`, from the matches on. */
  method MakePlan(inputs: Inputs, matches: seq<MatchedEvent>) returns (plan: Plan)
    requires WellFormed(inputs)
    ensures exists ids :: SongOrder(ids, matches)
    ensures forall ids :: SongOrder(ids, matches) ==> plan == PlanSpec(inputs, matches, ids)
  {
    var factory := new ActionFactory();
    var ids := SortIds(Required(matches));
    assert Members(ids) == Required(matches);
    var resources, issues, preparation := PlanSongResources(inputs, ids, factory);
    EventsAreResourced(inputs, matches, Required(matches));
    var events := PlanEvents(inputs, matches, resources, issues, factory);
    plan := Plan(Kept(preparation, ViableSongs(matches, issues), Needed(events)), events);
    assert plan == PlanSpec(inputs, matches, ids) && SongOrder(ids, matches);
    forall other | SongOrder(other, matches) ensures plan == PlanSpec(inputs, matches, other) {
      assert forall id :: id in ids <==> id in Members(ids);
      assert forall id :: id in other <==> id in Members(other);
      AscendingIsUnique(ids, other);
    }
  }

  method PlanEvents(inputs: Inputs, matches: seq<MatchedEvent>, resources: map<Id, SongRef>, issues: map<Id, SongIssue>,
                    factory: ActionFactory) returns (events: seq<EventPlan>)
    requires WellFormed(inputs) && AllResourced(matches, resources, issues)
    modifies factory
    ensures events == PlansOf(inputs, matches, resources, issues, old(factory.ordinal))
  {
    hide PlanOf, Used;
    events := [];
    ghost var first := factory.ordinal;
    for k := 0 to |matches|
      invariant AllResourced(matches[..k], resources, issues)
      invariant events == PlansOf(inputs, matches[..k], resources, issues, first)
      invariant factory.ordinal == NumberAfter(inputs, matches[..k], resources, issues, first)
    {
      assert matches[..k + 1][..k] == matches[..k];
      var event := PlanEvent(inputs, matches[k], resources, issues, factory);
      events := events + [event];
    }
    assert matches[..|matches|] == matches;
  }
}
