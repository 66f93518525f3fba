/** Persisting a plan as JSON and reading it back (models.py, to_primitive and
    SyncPlan.fingerprint; serialization.py). */
module Serialization {
  import opened Prelude

  datatype Json =
    | Null
    | Bool(truth: bool)
    | Num(number: int)
    | Text(text: string)
    | List(items: seq<Json>)
    | Object(fields: map<string, Json>)

  /** A timezone-aware date and time. */
  type Moment = int

  /** Python's conversions: isoformat and fromisoformat, str and int of a JSON value. */
  datatype Python = Python(
    iso: Moment -> string, parse: string -> Option<Moment>, str: Json -> string, whole: Json -> Option<int>)
  {
    /** What the conversions are known to do. */
    ghost predicate Faithful() {
      && (forall t :: parse(iso(t)) == Some(t))
      && (forall s :: str(Text(s)) == s)
      && (forall n :: whole(Num(n)) == Some(n))
    }
  }

  datatype Kind = CREATE_SONG | CREATE_ARRANGEMENT | INSERT_ITEM | REPLACE_ITEM | DELETE_OWNED_ITEM | NOOP
  {
    function Name(): string {
      match this
      case CREATE_SONG => "create_song"
      case CREATE_ARRANGEMENT => "create_arrangement"
      case INSERT_ITEM => "insert_item"
      case REPLACE_ITEM => "replace_item"
      case DELETE_OWNED_ITEM => "delete_owned_item"
      case NOOP => "noop"
    }
  }

  datatype Status = READY | AMBIGUOUS | FAILED | SKIPPED
  {
    function Name(): string {
      match this
      case READY => "ready"
      case AMBIGUOUS => "ambiguous"
      case FAILED => "failed"
      case SKIPPED => "skipped"
    }
  }

  datatype Severity = INFO | WARNING | ERROR
  {
    function Name(): string {
      match this
      case INFO => "info"
      case WARNING => "warning"
      case ERROR => "error"
    }
  }

  function KindNamed(name: string): Option<Kind> {
    if name == "create_song" then Some(CREATE_SONG)
    else if name == "create_arrangement" then Some(CREATE_ARRANGEMENT)
    else if name == "insert_item" then Some(INSERT_ITEM)
    else if name == "replace_item" then Some(REPLACE_ITEM)
    else if name == "delete_owned_item" then Some(DELETE_OWNED_ITEM)
    else if name == "noop" then Some(NOOP)
    else None
  }

  function StatusNamed(name: string): Option<Status> {
    if name == "ready" then Some(READY)
    else if name == "ambiguous" then Some(AMBIGUOUS)
    else if name == "failed" then Some(FAILED)
    else if name == "skipped" then Some(SKIPPED)
    else None
  }

  function SeverityNamed(name: string): Option<Severity> {
    if name == "info" then Some(INFO)
    else if name == "warning" then Some(WARNING)
    else if name == "error" then Some(ERROR)
    else None
  }

  datatype Action = Action(
    id: string, ordinal: int, kind: Kind, payload: map<string, Json>, eventPlanId: Option<string>,
    dependencies: seq<string>)

  datatype Issue = Issue(code: string, message: string, severity: Severity, details: map<string, Json>)

  datatype Event = Event(
    id: string, sourceEventId: string, targetEventId: Option<string>, status: Status,
    sourceName: Option<string>, sourceStarts: Option<seq<Moment>>, targetName: Option<string>, targetStarts: Option<Moment>,
    agendaFingerprint: Option<string>, sourceFingerprint: Option<string>, configFingerprint: Option<string>,
    actions: seq<Action>, issues: seq<Issue>)

  datatype Plan = Plan(
    runId: string, profileId: string, revision: int, createdAt: Moment, preparation: seq<Action>, events: seq<Event>)

  function Map<A, B>(s: seq<A>, f: A -> B): (r: seq<B>)
    ensures |r| == |s|
    ensures forall i :: 0 <= i < |s| ==> r[i] == f(s[i])
  {
    seq(|s|, i requires 0 <= i < |s| => f(s[i]))
  }

  // Writing.

  function MaybeText(value: Option<string>): Json {
    if value.Some? then Text(value.value) else Null
  }

  function TextJson(s: string): Json { Text(s) }

  function ActionJson(a: Action): Json {
    Object(map[
      "id" := Text(a.id), "ordinal" := Num(a.ordinal), "kind" := Text(a.kind.Name()), "payload" := Object(a.payload),
      "event_plan_id" := MaybeText(a.eventPlanId), "dependencies" := List(Map(a.dependencies, TextJson))])
  }

  function IssueJson(i: Issue): Json {
    Object(map[
      "code" := Text(i.code), "message" := Text(i.message), "severity" := Text(i.severity.Name()),
      "details" := Object(i.details)])
  }

  function MomentJson(py: Python): Moment -> Json { (t: Moment) => Text(py.iso(t)) }

  function EventFields(e: Event, py: Python): map<string, Json> {
    map[
      "id" := Text(e.id), "source_event_id" := Text(e.sourceEventId), "target_event_id" := MaybeText(e.targetEventId),
      "status" := Text(e.status.Name()), "source_event_name" := MaybeText(e.sourceName),
      "source_event_starts_at" := if e.sourceStarts.Some? then List(Map(e.sourceStarts.value, MomentJson(py))) else Null,
      "target_event_name" := MaybeText(e.targetName),
      "target_event_starts_at" := if e.targetStarts.Some? then Text(py.iso(e.targetStarts.value)) else Null,
      "initial_agenda_fingerprint" := MaybeText(e.agendaFingerprint),
      "source_fingerprint" := MaybeText(e.sourceFingerprint), "config_fingerprint" := MaybeText(e.configFingerprint),
      "actions" := List(Map(e.actions, ActionJson)), "issues" := List(Map(e.issues, IssueJson))]
  }

  function EventJson(py: Python): Event -> Json { (e: Event) => Object(EventFields(e, py)) }

  /** `as_dict`. */
  function AsDict(p: Plan, py: Python): Json {
    PlanJson(p, py, EventJson(py))
  }

  function PlanJson(p: Plan, py: Python, event: Event -> Json): Json {
    Object(map[
      "run_id" := Text(p.runId), "profile_id" := Text(p.profileId), "profile_revision" := Num(p.revision),
      "created_at" := Text(py.iso(p.createdAt)), "preparation_actions" := List(Map(p.preparation, ActionJson)),
      "events" := List(Map(p.events, event))])
  }

  // Reading.

  function ParseAll<T>(items: seq<Json>, parse: Json -> Option<T>): Option<seq<T>> {
    if items == [] then Some([])
    else
      var first, rest := parse(items[0]), ParseAll(items[1..], parse);
      if first.None? || rest.None? then None else Some([first.value] + rest.value)
  }

  function Get(fields: map<string, Json>, key: string): Json {
    if key in fields then fields[key] else Null
  }

  /** `str(item[key]) if item.get(key) is not None else None`. */
  function MaybeStr(fields: map<string, Json>, key: string, py: Python): Option<string> {
    if Get(fields, key).Null? then None else Some(py.str(Get(fields, key)))
  }

  function StrFrom(py: Python): Json -> Option<string> { (j: Json) => Some(py.str(j)) }

  function MomentFrom(py: Python): Json -> Option<Moment> { (j: Json) => py.parse(py.str(j)) }

  function ListAt<T>(fields: map<string, Json>, key: string, parse: Json -> Option<T>): Option<seq<T>> {
    if Get(fields, key).List? then ParseAll(Get(fields, key).items, parse) else None
  }

  function ActionFrom(py: Python): Json -> Option<Action> {
    (j: Json) =>
      if !j.Object? || !("id" in j.fields && "ordinal" in j.fields && "kind" in j.fields) || !Get(j.fields, "payload").Object? then None
      else
        var dependencies := ListAt(j.fields, "dependencies", StrFrom(py));
        var kind, ordinal := KindNamed(py.str(j.fields["kind"])), py.whole(j.fields["ordinal"]);
        if dependencies.None? || kind.None? || ordinal.None? then None
        else
          Some(Action(py.str(j.fields["id"]), ordinal.value, kind.value, Get(j.fields, "payload").fields,
                      MaybeStr(j.fields, "event_plan_id", py), dependencies.value))
  }

  /** `dict(_mapping(item.get("details") or {}))`: falsy details count as none. */
  function DetailsFrom(details: Json): Option<map<string, Json>> {
    match details
    case Object(fields) => Some(fields)
    case Null => Some(map[])
    case Bool(truth) => if truth then None else Some(map[])
    case Num(number) => if number != 0 then None else Some(map[])
    case Text(text) => if text != "" then None else Some(map[])
    case List(items) => if items != [] then None else Some(map[])
  }

  function IssueFrom(py: Python): Json -> Option<Issue> {
    (j: Json) =>
      if !j.Object? || !("code" in j.fields && "message" in j.fields) then None
      else
        var severity := if "severity" in j.fields then SeverityNamed(py.str(j.fields["severity"])) else Some(ERROR);
        var details := DetailsFrom(Get(j.fields, "details"));
        if severity.None? || details.None? then None
        else Some(Issue(py.str(j.fields["code"]), py.str(j.fields["message"]), severity.value, details.value))
  }

  function EventFromFields(fields: map<string, Json>, py: Python): Option<Event> {
    if !("id" in fields && "source_event_id" in fields && "status" in fields) then None
    else
      var starts := Get(fields, "source_event_starts_at");
      var sourceStarts := if starts.List? then ParseAll(starts.items, MomentFrom(py)) else None;
      var start := Get(fields, "target_event_starts_at");
      var targetStarts := if start.Null? then None else py.parse(py.str(start));
      var status := StatusNamed(py.str(fields["status"]));
      var actions := ListAt(fields, "actions", ActionFrom(py));
      var issues := ListAt(fields, "issues", IssueFrom(py));
      if (!starts.Null? && sourceStarts.None?) || (!start.Null? && targetStarts.None?)
         || status.None? || actions.None? || issues.None?
      then None
      else
        Some(Event(py.str(fields["id"]), py.str(fields["source_event_id"]), MaybeStr(fields, "target_event_id", py),
                   status.value, MaybeStr(fields, "source_event_name", py), sourceStarts,
                   MaybeStr(fields, "target_event_name", py), targetStarts,
                   MaybeStr(fields, "initial_agenda_fingerprint", py), MaybeStr(fields, "source_fingerprint", py),
                   MaybeStr(fields, "config_fingerprint", py), actions.value, issues.value))
  }

  function EventFrom(py: Python): Json -> Option<Event> {
    (j: Json) => if j.Object? then EventFromFields(j.fields, py) else None
  }

  /** `sync_plan_from_dict`; None where the schema is not the plan's. */
  function PlanFrom(j: Json, py: Python): Option<Plan> {
    if !j.Object? || !("run_id" in j.fields && "profile_id" in j.fields && "profile_revision" in j.fields && "created_at" in j.fields) then None
    else
      var preparation := ListAt(j.fields, "preparation_actions", ActionFrom(py));
      var events := ListAt(j.fields, "events", EventFrom(py));
      var createdAt, revision := py.parse(py.str(j.fields["created_at"])), py.whole(j.fields["profile_revision"]);
      if preparation.None? || events.None? || createdAt.None? || revision.None? then None
      else
        Some(Plan(py.str(j.fields["run_id"]), py.str(j.fields["profile_id"]), revision.value, createdAt.value,
                  preparation.value, events.value))
  }

  // The round trip.

  lemma {:induction false} ParseAllReads<A>(values: seq<A>, write: A -> Json, parse: Json -> Option<A>)
    requires forall i :: 0 <= i < |values| ==> parse(write(values[i])) == Some(values[i])
    ensures ParseAll(Map(values, write), parse) == Some(values)
  {
    if values != [] {
      var written := Map(values, write);
      assert written[0] == write(values[0]) && written[1..] == Map(values[1..], write);
      ParseAllReads(values[1..], write, parse);
      assert [values[0]] + values[1..] == values;
    }
  }

  lemma TextsRead(texts: seq<string>, py: Python)
    requires py.Faithful()
    ensures ParseAll(Map(texts, TextJson), StrFrom(py)) == Some(texts)
  {
    forall i | 0 <= i < |texts| ensures StrFrom(py)(TextJson(texts[i])) == Some(texts[i]) {
      assert TextJson(texts[i]) == Text(texts[i]);
    }
    ParseAllReads(texts, TextJson, StrFrom(py));
  }

  lemma NamesRead(k: Kind, s: Status, v: Severity)
    ensures KindNamed(k.Name()) == Some(k) && StatusNamed(s.Name()) == Some(s) && SeverityNamed(v.Name()) == Some(v)
  {
  }

  /** What reading finds under each key of a written action. */
  lemma ActionHas(a: Action)
    ensures var f := ActionJson(a).fields;
            && "id" in f && f["id"] == Text(a.id)
            && "ordinal" in f && f["ordinal"] == Num(a.ordinal)
            && "kind" in f && f["kind"] == Text(a.kind.Name())
            && Get(f, "payload") == Object(a.payload) && Get(f, "event_plan_id") == MaybeText(a.eventPlanId)
            && Get(f, "dependencies") == List(Map(a.dependencies, TextJson))
  {
  }

  lemma ActionReads(a: Action, py: Python)
    requires py.Faithful()
    ensures ActionFrom(py)(ActionJson(a)) == Some(a)
  {
    hide ActionJson, KindNamed;
    ActionHas(a);
    ActionIsObject(a);
    NamesRead(a.kind, READY, ERROR);
    TextsRead(a.dependencies, py);
  }

  lemma ActionIsObject(a: Action)
    ensures ActionJson(a).Object?
  {
  }

  lemma IssueReads(i: Issue, py: Python)
    requires py.Faithful()
    ensures IssueFrom(py)(IssueJson(i)) == Some(i)
  {
  }

  /** What reading finds under each key of a written event. */
  lemma EventHas(e: Event, py: Python)
    ensures var f := EventFields(e, py);
            && "id" in f && f["id"] == Text(e.id)
            && "source_event_id" in f && f["source_event_id"] == Text(e.sourceEventId)
            && "status" in f && f["status"] == Text(e.status.Name())
            && Get(f, "target_event_id") == MaybeText(e.targetEventId)
            && Get(f, "initial_agenda_fingerprint") == MaybeText(e.agendaFingerprint)
            && Get(f, "actions") == List(Map(e.actions, ActionJson))
            && Get(f, "issues") == List(Map(e.issues, IssueJson))
  {
  }

  /** Under the keys that older plans lack. */
  lemma EventMayHave(e: Event, py: Python)
    ensures var f := EventFields(e, py);
            && Get(f, "source_event_name") == MaybeText(e.sourceName)
            && Get(f, "source_event_starts_at")
               == (if e.sourceStarts.Some? then List(Map(e.sourceStarts.value, MomentJson(py))) else Null)
            && Get(f, "target_event_name") == MaybeText(e.targetName)
            && Get(f, "target_event_starts_at") == (if e.targetStarts.Some? then Text(py.iso(e.targetStarts.value)) else Null)
            && Get(f, "source_fingerprint") == MaybeText(e.sourceFingerprint)
            && Get(f, "config_fingerprint") == MaybeText(e.configFingerprint)
  {
  }

  lemma MomentReads(t: Moment, py: Python)
    requires py.Faithful()
    ensures MomentJson(py)(t) == Text(py.iso(t)) && py.parse(py.str(Text(py.iso(t)))) == Some(t)
    ensures MomentFrom(py)(MomentJson(py)(t)) == Some(t)
  {
  }

  lemma MomentsRead(times: seq<Moment>, py: Python)
    requires py.Faithful()
    ensures ParseAll(Map(times, MomentJson(py)), MomentFrom(py)) == Some(times)
  {
    forall i | 0 <= i < |times| ensures MomentFrom(py)(MomentJson(py)(times[i])) == Some(times[i]) {
      MomentReads(times[i], py);
    }
    ParseAllReads(times, MomentJson(py), MomentFrom(py));
  }

  lemma ActionsRead(actions: seq<Action>, py: Python)
    requires py.Faithful()
    ensures ParseAll(Map(actions, ActionJson), ActionFrom(py)) == Some(actions)
  {
    forall i | 0 <= i < |actions| ensures ActionFrom(py)(ActionJson(actions[i])) == Some(actions[i]) {
      ActionReads(actions[i], py);
    }
    ParseAllReads(actions, ActionJson, ActionFrom(py));
  }

  lemma IssuesRead(issues: seq<Issue>, py: Python)
    requires py.Faithful()
    ensures ParseAll(Map(issues, IssueJson), IssueFrom(py)) == Some(issues)
  {
    forall i | 0 <= i < |issues| ensures IssueFrom(py)(IssueJson(issues[i])) == Some(issues[i]) {
      IssueReads(issues[i], py);
    }
    ParseAllReads(issues, IssueJson, IssueFrom(py));
  }

  /** Fields that say what a written event says, optional ones possibly left out. */
  ghost predicate Says(fields: map<string, Json>, e: Event, py: Python) {
    && (forall key :: key in REQUIRED ==> key in fields && key in EventFields(e, py) && fields[key] == EventFields(e, py)[key])
    && forall key :: Get(fields, key) == Get(EventFields(e, py), key)
  }

  const REQUIRED: set<string> := {"id", "source_event_id", "status"}

  lemma SaysRequired(fields: map<string, Json>, e: Event, py: Python)
    requires Says(fields, e, py)
    ensures "id" in fields && fields["id"] == Text(e.id)
    ensures "source_event_id" in fields && fields["source_event_id"] == Text(e.sourceEventId)
    ensures "status" in fields && fields["status"] == Text(e.status.Name())
  {
    hide EventFields;
    EventHas(e, py);
    assert "id" in REQUIRED && "source_event_id" in REQUIRED && "status" in REQUIRED;
  }

  lemma SaysRest(fields: map<string, Json>, e: Event, py: Python)
    requires Says(fields, e, py)
    ensures Get(fields, "target_event_id") == MaybeText(e.targetEventId)
    ensures Get(fields, "initial_agenda_fingerprint") == MaybeText(e.agendaFingerprint)
    ensures Get(fields, "actions") == List(Map(e.actions, ActionJson))
    ensures Get(fields, "issues") == List(Map(e.issues, IssueJson))
    ensures Get(fields, "source_event_name") == MaybeText(e.sourceName)
    ensures Get(fields, "source_event_starts_at")
            == (if e.sourceStarts.Some? then List(Map(e.sourceStarts.value, MomentJson(py))) else Null)
    ensures Get(fields, "target_event_name") == MaybeText(e.targetName)
    ensures Get(fields, "target_event_starts_at")
            == (if e.targetStarts.Some? then Text(py.iso(e.targetStarts.value)) else Null)
    ensures Get(fields, "source_fingerprint") == MaybeText(e.sourceFingerprint)
    ensures Get(fields, "config_fingerprint") == MaybeText(e.configFingerprint)
  {
    hide EventFields, Get, Map, MaybeText, MomentJson, ActionJson, IssueJson;
    EventHas(e, py);
    EventMayHave(e, py);
  }

  lemma MaybeReads(fields: map<string, Json>, key: string, value: Option<string>, py: Python)
    requires py.Faithful() && Get(fields, key) == MaybeText(value)
    ensures MaybeStr(fields, key, py) == value
  {
  }

  lemma EventReads(fields: map<string, Json>, e: Event, py: Python)
    requires py.Faithful() && Says(fields, e, py)
    ensures EventFromFields(fields, py) == Some(e)
  {
    hide Get, Says, EventFields, ActionFrom, IssueFrom, MomentFrom, StatusNamed, MaybeStr, MaybeText, ParseAll;
    SaysRequired(fields, e, py);
    SaysRest(fields, e, py);
    NamesRead(NOOP, e.status, ERROR);
    ActionsRead(e.actions, py);
    IssuesRead(e.issues, py);
    MaybeReads(fields, "target_event_id", e.targetEventId, py);
    MaybeReads(fields, "initial_agenda_fingerprint", e.agendaFingerprint, py);
    MaybeReads(fields, "source_event_name", e.sourceName, py);
    MaybeReads(fields, "target_event_name", e.targetName, py);
    MaybeReads(fields, "source_fingerprint", e.sourceFingerprint, py);
    MaybeReads(fields, "config_fingerprint", e.configFingerprint, py);
    if e.sourceStarts.Some? {
      MomentsRead(e.sourceStarts.value, py);
    }
    if e.targetStarts.Some? {
      MomentReads(e.targetStarts.value, py);
    }
  }

  // Fingerprints, and documents from before some keys existed.

  /** The event keys that a document may lack; absent values leave no trace in the
      fingerprint. */
  const OPTIONAL: set<string> :=
    {"source_fingerprint", "config_fingerprint", "source_event_name", "source_event_starts_at",
     "target_event_name", "target_event_starts_at"}

  function Trimmed(fields: map<string, Json>): map<string, Json> {
    map key | key in fields && !(key in OPTIONAL && fields[key].Null?) :: fields[key]
  }

  function TrimmedJson(py: Python): Event -> Json { (e: Event) => Object(Trimmed(EventFields(e, py))) }

  /** What `SyncPlan.fingerprint` hashes. */
  function Preimage(p: Plan, py: Python): Json {
    PlanJson(p, py, TrimmedJson(py))
  }

  /** The loop that removes the absent values, key by key. */
  method Trim(e: Event, py: Python) returns (fields: map<string, Json>)
    ensures fields == Trimmed(EventFields(e, py))
  {
    var keys := ["source_fingerprint", "config_fingerprint", "source_event_name", "source_event_starts_at",
                 "target_event_name", "target_event_starts_at"];
    fields := EventFields(e, py);
    ghost var all := fields;
    assert OPTIONAL == set k | k in keys;
    hide EventFields;
    for k := 0 to |keys|
      invariant fields == map key | key in all && !(key in keys[..k] && all[key].Null?) :: all[key]
    {
      assert keys[..k + 1] == keys[..k] + [keys[k]];
      if keys[k] in fields && fields[keys[k]].Null? {
        fields := fields - {keys[k]};
      }
    }
    assert keys[..|keys|] == keys;
  }

  /** A document of plan `p`: like its dictionary, with some absent optional values of
      its events left out. */
  ghost predicate Documents(p: Plan, py: Python, event: Event -> Json) {
    forall i :: 0 <= i < |p.events| ==>
      event(p.events[i]).Object? && Says(event(p.events[i]).fields, p.events[i], py)
  }

  lemma PlanHas(p: Plan, py: Python, event: Event -> Json)
    ensures var f := PlanJson(p, py, event).fields;
            && "run_id" in f && f["run_id"] == Text(p.runId)
            && "profile_id" in f && f["profile_id"] == Text(p.profileId)
            && "profile_revision" in f && f["profile_revision"] == Num(p.revision)
            && "created_at" in f && f["created_at"] == Text(py.iso(p.createdAt))
            && Get(f, "preparation_actions") == List(Map(p.preparation, ActionJson))
            && Get(f, "events") == List(Map(p.events, event))
  {
  }

  /** Reading any document of a plan gives back the plan. */
  lemma DocumentReads(p: Plan, py: Python, event: Event -> Json)
    requires py.Faithful() && Documents(p, py, event)
    ensures PlanFrom(PlanJson(p, py, event), py) == Some(p)
  {
    hide EventFields, EventFromFields, Says, ActionFrom, ParseAll;
    PlanHas(p, py, event);
    ActionsRead(p.preparation, py);
    forall i | 0 <= i < |p.events| ensures EventFrom(py)(event(p.events[i])) == Some(p.events[i]) {
      EventReads(event(p.events[i]).fields, p.events[i], py);
    }
    ParseAllReads(p.events, event, EventFrom(py));
    MomentReads(p.createdAt, py);
  }

  lemma FullSays(e: Event, py: Python)
    ensures Says(EventFields(e, py), e, py)
  {
    hide EventFields;
    EventHas(e, py);
  }

  lemma TrimmedSays(e: Event, py: Python)
    ensures Says(Trimmed(EventFields(e, py)), e, py)
  {
    hide EventFields;
    EventHas(e, py);
  }

  /** The round trip: reading a plan's dictionary gives the plan back, so its form and
      its fingerprint stay the same. */
  lemma PlanRoundTrip(p: Plan, py: Python)
    requires py.Faithful()
    ensures PlanFrom(AsDict(p, py), py) == Some(p)
  {
    forall i | 0 <= i < |p.events| ensures Says(EventJson(py)(p.events[i]).fields, p.events[i], py) {
      FullSays(p.events[i], py);
    }
    DocumentReads(p, py, EventJson(py));
  }

  /** A document without the optional keys is read as a plan whose fingerprint is that
      of the document itself. */
  lemma LegacyKeepsFingerprint(p: Plan, py: Python)
    requires py.Faithful()
    ensures PlanFrom(Preimage(p, py), py) == Some(p)
    ensures Preimage(PlanFrom(Preimage(p, py), py).value, py) == Preimage(p, py)
  {
    forall i | 0 <= i < |p.events| ensures Says(TrimmedJson(py)(p.events[i]).fields, p.events[i], py) {
      TrimmedSays(p.events[i], py);
    }
    DocumentReads(p, py, TrimmedJson(py));
  }

  /** Equal fingerprints mean equal plans: what persist_plan compares is enough. */
  lemma FingerprintDeterminesPlan(p: Plan, q: Plan, py: Python)
    requires py.Faithful() && Preimage(p, py) == Preimage(q, py)
    ensures p == q
  {
    LegacyKeepsFingerprint(p, py);
    LegacyKeepsFingerprint(q, py);
  }

  /** The six keys are really gone where their values are absent, and nothing else is. */
  lemma LegacyLacksKeys(e: Event, py: Python)
    requires e.sourceName.None? && e.sourceStarts.None? && e.targetName.None? && e.targetStarts.None?
    requires e.sourceFingerprint.None? && e.configFingerprint.None?
    ensures Trimmed(EventFields(e, py))
            == EventFields(e, py) - {"source_fingerprint", "config_fingerprint", "source_event_name", "source_event_starts_at",
                                     "target_event_name", "target_event_starts_at"}
  {
    var f := EventFields(e, py);
    EventMayHave(e, py);
    forall key | key in f ensures key in Trimmed(f) <==> key !in OPTIONAL {
      assert key in OPTIONAL ==> Get(f, key).Null?;
    }
  }

  // The form of a document.

  /** The keys of a plan, and of what it consists of. */
  lemma PlanKeys(p: Plan, py: Python, event: Event -> Json)
    ensures PlanJson(p, py, event).fields.Keys
            == {"run_id", "profile_id", "profile_revision", "created_at", "preparation_actions", "events"}
  {
    hide ActionJson, Map;
  }

  lemma EventKeys(e: Event, py: Python)
    ensures EventFields(e, py).Keys
            == {"id", "source_event_id", "target_event_id", "status", "source_event_name", "source_event_starts_at",
                "target_event_name", "target_event_starts_at", "initial_agenda_fingerprint", "source_fingerprint",
                "config_fingerprint", "actions", "issues"}
  {
    hide ActionJson, IssueJson, Map, MaybeText, MomentJson, Status.Name;
  }

  lemma ActionKeys(a: Action)
    ensures ActionJson(a).fields.Keys == {"id", "ordinal", "kind", "payload", "event_plan_id", "dependencies"}
  {
    hide MaybeText, Map, Kind.Name;
  }

  lemma IssueKeys(i: Issue)
    ensures IssueJson(i).fields.Keys == {"code", "message", "severity", "details"}
  {
    hide Severity.Name;
  }
}
