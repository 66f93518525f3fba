/** The placement planner (planner.py, _plan_placements): its data, and the plan it
    makes as a fold over placements and songs.  Module PlacementLoops proves that
    the loops compute this fold. */
module Placements {
  import opened Prelude
  import opened Agendas
  import opened Actions
  import opened Sorting

  datatype Relation = BEFORE | AT | AFTER
  datatype AnchorPolicy = FAIL | FIRST

  datatype AgendaAnchor = AgendaAnchor(itemId: Option<Id>, itemType: Option<string>, title: Option<string>)

  datatype PlacementRule = PlacementRule(
    id: Id, anchor: AgendaAnchor, relation: Relation, songStart: int, songEnd: Option<int>, policy: AnchorPolicy)

  /** A remote binding: `profileId` manages the agenda item, last verified to show
      the song and arrangement of its fingerprint. */
  datatype Ownership = Ownership(
    profileId: Id, agendaItemId: Id, sourceKey: Key, placementId: Id,
    songId: Option<Id>, arrangementId: Option<Id>)

  datatype Issue =
    | PlacementOverlap(placementId: Id, indexes: set<nat>)
    | AnchorNotFound(placementId: Id)
    | AnchorNotUnique(placementId: Id, matches: seq<Id>)
    | AnchorMultipleFirstSelected(placementId: Id, matches: seq<Id>, selected: Id)
    | AgendaItemOwnedByOtherProfile(itemId: Id)
    | OwnedAgendaItemChanged(itemId: Id)
  {
    predicate IsError() { !AnchorMultipleFirstSelected? && !OwnedAgendaItemChanged? }
  }

  predicate HasErrors(issues: seq<Issue>) {
    exists i :: 0 <= i < |issues| && issues[i].IsError()
  }

  /** Everything `_plan_placements` reads.  `normalize` stands for normalize_text. */
  datatype Job = Job(
    profileId: Id, eventId: Id, songIds: seq<Id>, title: string, items: Agenda,
    ownerships: seq<Ownership>, resources: map<Id, SongRef>, normalize: string -> string)
  {
    ghost predicate Valid() {
      && DistinctIds(items)
      && forall i :: 0 <= i < |songIds| ==> songIds[i] in resources
    }
  }

  predicate Truthy(value: Option<string>) { value.Some? && value.value != "" }

  predicate AnchorMatches(anchor: AgendaAnchor, item: AgendaItem, normalize: string -> string) {
    && (Truthy(anchor.itemId) || Truthy(anchor.itemType) || Truthy(anchor.title))
    && (anchor.itemId.Some? ==> anchor.itemId.value == item.id)
    && (anchor.itemType.Some? ==> anchor.itemType.value == item.kind)
    && (anchor.title.Some? ==>
          normalize(anchor.title.value) == normalize(if item.title.Some? then item.title.value else ""))
  }

  function Matching(anchor: AgendaAnchor, items: Agenda, normalize: string -> string): Agenda {
    Filter(items, (item: AgendaItem) => AnchorMatches(anchor, item, normalize))
  }

  /** The song indexes of a placement: range(n)[song_start:song_end]. */
  function SliceStart(rule: PlacementRule, n: nat): (lo: nat)
    ensures lo <= n
  {
    SliceBound(n, rule.songStart)
  }

  function SliceEnd(rule: PlacementRule, n: nat): (hi: nat)
    ensures SliceStart(rule, n) <= hi <= n
  {
    var hi := if rule.songEnd.Some? then SliceBound(n, rule.songEnd.value) else n;
    if hi < SliceStart(rule, n) then SliceStart(rule, n) else hi
  }

  predicate Within(lo: nat, i: nat, hi: nat) { lo <= i < hi }

  function Indexes(rule: PlacementRule, n: nat): set<nat> {
    set i: nat | i < n && Within(SliceStart(rule, n), i, SliceEnd(rule, n))
  }

  function SourceKey(placementId: Id, index: nat, songId: Id): Key {
    placementId + ":" + Decimal(index) + ":" + songId
  }

  function AgendaKey(eventId: Id, sourceKey: Key): Key {
    "agenda:" + eventId + ":" + sourceKey
  }

  function OwnershipOf(ownerships: seq<Ownership>, itemId: Id): Option<Ownership> {
    if ownerships == [] then None
    else
      var last := ownerships[|ownerships| - 1];
      if last.agendaItemId == itemId then Some(last)
      else OwnershipOf(ownerships[..|ownerships| - 1], itemId)
  }

  /** An action with the resource keys it must wait for. */
  datatype Draft = Draft(body: Body, dependencies: seq<Key>)

  /** The planner's accumulators. */
  datatype Planning = Planning(
    drafts: seq<Draft>, issues: seq<Issue>, used: set<nat>, reserved: set<Id>, desired: set<Key>)

  /** The moving cursor of one placement and the neighbour for the next insert. */
  datatype Cursor = Cursor(at: nat, lastId: Option<Id>, lastKey: Option<Key>, blocked: bool)

  /** The first position from `at` on whose item no earlier slot has claimed. */
  function SkipReserved(items: Agenda, at: nat, reserved: set<Id>): (k: nat)
    ensures at <= k
    ensures at <= |items| ==> k <= |items|
    ensures k < |items| ==> items[k].id !in reserved
    ensures forall i :: at <= i < k && i < |items| ==> items[i].id in reserved
    decreases |items| - at
  {
    if at < |items| && items[at].id in reserved then SkipReserved(items, at + 1, reserved) else at
  }

  predicate OwnedByOther(job: Job, itemId: Id) {
    var owner := OwnershipOf(job.ownerships, itemId);
    owner.Some? && owner.value.profileId != job.profileId
  }

  predicate AlreadyOwned(job: Job, itemId: Id) {
    var owner := OwnershipOf(job.ownerships, itemId);
    owner.Some? && owner.value.profileId == job.profileId
  }

  /** The slot already shows the wanted song. */
  predicate SlotShows(song: SongRef, item: AgendaItem) {
    song.songId.Some? && song.arrangementId.Some?
    && item.songId == song.songId && item.arrangementId == song.arrangementId
  }

  function SlotDraft(job: Job, rule: PlacementRule, key: Key, song: SongRef, item: AgendaItem): Draft {
    Draft(if SlotShows(song, item) then Noop(key, rule.id, song, item.id, AlreadyOwned(job, item.id))
          else ReplaceItem(key, rule.id, song, job.title, item.id, AlreadyOwned(job, item.id)),
          song.Dependencies())
  }

  function PlaceFor(items: Agenda, at: nat, lastId: Option<Id>, lastKey: Option<Key>): Place {
    if at < |items| then Before(items[at].id)
    else if lastKey.Some? then AfterKey(lastKey.value)
    else if lastId.Some? then AfterId(lastId.value)
    else Nowhere
  }

  function InsertDraft(job: Job, rule: PlacementRule, key: Key, song: SongRef, at: nat,
                       lastId: Option<Id>, lastKey: Option<Key>): Draft
  {
    Draft(InsertItem(key, rule.id, song, job.title, AgendaKey(job.eventId, key), Ids(job.items),
                     PlaceFor(job.items, at, lastId, lastKey)),
          song.Dependencies() + (if lastKey.Some? then [lastKey.value] else []))
  }

  /** One song of a placement: claim the slot under the cursor, or insert before it. */
  function PlaceSong(job: Job, rule: PlacementRule, index: nat, p: Planning, c: Cursor): (Planning, Cursor)
    requires index < |job.songIds| && job.songIds[index] in job.resources
  {
    if c.blocked then (p, c)
    else
      var song := job.resources[job.songIds[index]];
      var key := SourceKey(rule.id, index, job.songIds[index]);
      var wanted := p.(desired := p.desired + {key});
      var at := SkipReserved(job.items, c.at, p.reserved);
      if at < |job.items| && job.items[at].IsSong() then
        var item := job.items[at];
        if OwnedByOther(job, item.id) then
          (wanted.(issues := p.issues + [AgendaItemOwnedByOtherProfile(item.id)]),
           c.(at := at, blocked := true))
        else
          (wanted.(drafts := p.drafts + [SlotDraft(job, rule, key, song, item)],
                   reserved := p.reserved + {item.id}),
           Cursor(at + 1, Some(item.id), None, false))
      else
        (wanted.(drafts := p.drafts + [InsertDraft(job, rule, key, song, at, c.lastId, c.lastKey)]),
         Cursor(at, None, Some(AgendaKey(job.eventId, key)), false))
  }

  lemma BlockedSkips(job: Job, rule: PlacementRule, i: nat, p: Planning, c: Cursor)
    requires i < |job.songIds| && job.songIds[i] in job.resources && c.blocked
    ensures PlaceSong(job, rule, i, p, c) == (p, c)
  {
  }

  /** The songs with indexes [lo, k) of a placement. */
  function PlaceSongs(job: Job, rule: PlacementRule, lo: nat, k: nat, p: Planning, c: Cursor): (Planning, Cursor)
    requires lo <= k <= |job.songIds|
    requires forall i :: 0 <= i < |job.songIds| ==> job.songIds[i] in job.resources
  {
    if k == lo then (p, c)
    else
      var (p', c') := PlaceSongs(job, rule, lo, k - 1, p, c);
      PlaceSong(job, rule, k - 1, p', c')
  }

  function StartCursor(rule: PlacementRule, items: Agenda, anchor: nat): Cursor {
    var at := if rule.relation == AFTER then anchor + 1 else anchor;
    Cursor(at, if 0 < at <= |items| then Some(items[at - 1].id) else None, None, false)
  }

  /** `items.index(anchors[0])`. */
  function AnchorIndex(items: Agenda, anchors: Agenda): nat
    requires anchors != []
  {
    FirstIndex(items, (item: AgendaItem) => item == anchors[0])
  }

  /** The first matching anchor is an item of the agenda. */
  lemma AnchorFound(anchor: AgendaAnchor, items: Agenda, normalize: string -> string)
    requires Matching(anchor, items, normalize) != []
    ensures AnchorIndex(items, Matching(anchor, items, normalize)) < |items|
  {
    var anchors := Matching(anchor, items, normalize);
    FilterMember(items, (item: AgendaItem) => AnchorMatches(anchor, item, normalize), anchors[0]);
    var i :| 0 <= i < |items| && items[i] == anchors[0];
  }

  /** One placement rule, with its three ways to fail. */
  function PlaceRule(job: Job, rule: PlacementRule, p: Planning): Planning
    requires forall i :: 0 <= i < |job.songIds| ==> job.songIds[i] in job.resources
  {
    var n := |job.songIds|;
    var indexes := Indexes(rule, n);
    if p.used * indexes != {} then
      p.(issues := p.issues + [PlacementOverlap(rule.id, p.used * indexes)])
    else
      var claimed := p.(used := p.used + indexes);
      var anchors := Matching(rule.anchor, job.items, job.normalize);
      if anchors == [] then
        claimed.(issues := p.issues + [AnchorNotFound(rule.id)])
      else if |anchors| > 1 && rule.policy == FAIL then
        claimed.(issues := p.issues + [AnchorNotUnique(rule.id, Ids(anchors))])
      else
        var warned := if |anchors| > 1
          then claimed.(issues := p.issues + [AnchorMultipleFirstSelected(rule.id, Ids(anchors), anchors[0].id)])
          else claimed;
        PlaceSongs(job, rule, SliceStart(rule, n), SliceEnd(rule, n), warned,
                   StartCursor(rule, job.items, AnchorIndex(job.items, anchors))).0
  }

  function PlaceRules(job: Job, rules: seq<PlacementRule>): Planning
    requires forall i :: 0 <= i < |job.songIds| ==> job.songIds[i] in job.resources
  {
    if rules == [] then Planning([], [], {}, {}, {})
    else PlaceRule(job, rules[|rules| - 1], PlaceRules(job, rules[..|rules| - 1]))
  }

  // Cleanup of bindings that no placement wants any more.

  function OwnershipLeq(a: Ownership, b: Ownership): bool {
    if a.placementId != b.placementId then StringLeq(a.placementId, b.placementId)
    else if a.sourceKey != b.sourceKey then StringLeq(a.sourceKey, b.sourceKey)
    else StringLeq(a.agendaItemId, b.agendaItemId)
  }

  predicate Surplus(job: Job, o: Ownership, p: Planning) {
    o.profileId == job.profileId && o.sourceKey !in p.desired && o.agendaItemId !in p.reserved
  }

  /** The item still shows exactly the song and arrangement the binding recorded. */
  predicate FingerprintMatches(o: Ownership, item: AgendaItem) {
    item.IsSong() && o.songId.Some? && o.arrangementId.Some?
    && item.songId == o.songId && item.arrangementId == o.arrangementId
  }

  predicate DeleteAuthorized(job: Job, o: Ownership) {
    var k := IndexOf(job.items, o.agendaItemId);
    k < |job.items| && FingerprintMatches(o, job.items[k])
  }

  function CleanupDraft(job: Job, o: Ownership): Draft {
    Draft(if DeleteAuthorized(job, o) then DeleteOwnedItem(o.sourceKey, o.placementId, o.agendaItemId)
          else CleanupNoop(o.sourceKey, o.placementId, o.agendaItemId), [])
  }

  function CleanUp(job: Job, o: Ownership, p: Planning): Planning {
    if !Surplus(job, o, p) then p
    else
      var changed := IndexOf(job.items, o.agendaItemId) < |job.items| && !DeleteAuthorized(job, o);
      p.(drafts := p.drafts + [CleanupDraft(job, o)],
         issues := if changed then p.issues + [OwnedAgendaItemChanged(o.agendaItemId)] else p.issues)
  }

  function CleanUpAll(job: Job, ownerships: seq<Ownership>, p: Planning): Planning {
    if ownerships == [] then p
    else CleanUp(job, ownerships[|ownerships| - 1], CleanUpAll(job, ownerships[..|ownerships| - 1], p))
  }

  /** Drafts and issues before the final error check. */
  function Drafted(job: Job, rules: seq<PlacementRule>): Planning
    requires forall i :: 0 <= i < |job.songIds| ==> job.songIds[i] in job.resources
  {
    CleanUpAll(job, Sort(job.ownerships, OwnershipLeq), PlaceRules(job, rules))
  }

  function Bodies(drafts: seq<Draft>): (bodies: seq<Body>)
    ensures |bodies| == |drafts|
    ensures forall i :: 0 <= i < |drafts| ==> bodies[i] == drafts[i].body
  {
    seq(|drafts|, i requires 0 <= i < |drafts| => drafts[i].body)
  }
}
