/** Recognizing a write that was committed before its worker died (engine.py,
    _reconcile_agenda_effect), and the provider's own rule for an insert whose answer
    was lost (churchtools.py, _insert_position_matches). */
module Reconcile {
  import opened Prelude
  import opened Agendas
  import opened Actions
  import opened Order

  /** The result an execution records: the item it is about and, once known, the
      agenda it saw.  The agenda stands for its own fingerprint. */
  datatype Outcome = Outcome(itemId: Id, seen: Option<Agenda>)

  /** The item next to the neighbour, on the side an insert goes to. */
  function Beside(items: Agenda, neighbour: Neighbour): Option<AgendaItem> {
    match neighbour
    case BeforeItem(id) =>
      var k := IndexOf(items, id);
      if 0 < k < |items| then Some(items[k - 1]) else None
    case AfterItem(id) =>
      var k := IndexOf(items, id);
      if k + 1 < |items| then Some(items[k + 1]) else None
    case AtEnd => if |items| == 1 then Some(items[0]) else None
  }

  function Find(items: Agenda, id: Id): Option<AgendaItem> {
    if IndexOf(items, id) < |items| then Some(items[IndexOf(items, id)]) else None
  }

  /** The item that may carry the effect of `body`. */
  function Candidate(body: Body, items: Agenda, resources: Resources): Option<AgendaItem>
    requires body.InsertItem? ==> NeighbourOf(body.place, resources).Some?
  {
    if body.ReplaceItem? then Find(items, body.itemId)
    else if body.InsertItem? then Beside(items, NeighbourOf(body.place, resources).value)
    else None
  }

  predicate ShowsWanted(item: AgendaItem, song: SongRef, resources: Resources) {
    && SongOf(song, resources).Some? && ArrangementOf(song, resources).Some?
    && item.Shows(SongOf(song, resources).value, ArrangementOf(song, resources).value)
  }

  function Recognize(body: Body, items: Agenda, resources: Resources): Option<Outcome>
    requires body.InsertItem? ==> NeighbourOf(body.place, resources).Some?
  {
    if body.DeleteOwnedItem? then
      if IndexOf(items, body.itemId) == |items| then Some(Outcome(body.itemId, Some(items))) else None
    else
      var candidate := Candidate(body, items, resources);
      if candidate.None? || (body.InsertItem? && candidate.value.id in body.initialIds)
         || !ShowsWanted(candidate.value, body.song, resources)
      then None
      else Some(Outcome(candidate.value.id, Some(items)))
  }

  // Complete: right after its commit, every write is recognized.

  /** An insert is recognized, with its new id, exactly if it names a neighbour or
      went into an empty agenda. */
  lemma InsertIsRecognized(body: Body, on: Effect, catalogue: Catalogue, newId: Id)
    requires body.InsertItem? && Perform(body, on, catalogue, newId).Some?
    requires Resolvable(body.song, on.resources, catalogue)
    requires Absent(on.items, newId) && newId !in body.initialIds
    ensures var after := Perform(body, on, catalogue, newId).value.items;
            Recognize(body, after, on.resources) == Some(Outcome(newId, Some(after)))
            <==> body.place != Nowhere || on.items == []
  {
    hide IndexOf;
    var neighbour := NeighbourOf(body.place, on.resources).value;
    var item := SongItem(newId, body.title, ArrangementOf(body.song, on.resources).value, catalogue);
    var after := Perform(body, on, catalogue, newId).value.items;
    InsertIsAt(on.items, neighbour, item);
    var at := Position(on.items, neighbour);
    assert after[at] == item;
    match neighbour {
      case BeforeItem(id) => IndexAfterInsert(on.items, at, item, id);
      case AfterItem(id) => IndexAfterInsert(on.items, at, item, id);
      case AtEnd =>
    }
  }

  lemma ReplaceIsRecognized(body: Body, on: Effect, catalogue: Catalogue, newId: Id)
    requires body.ReplaceItem? && Perform(body, on, catalogue, newId).Some?
    requires Resolvable(body.song, on.resources, catalogue)
    ensures var after := Perform(body, on, catalogue, newId).value.items;
            Recognize(body, after, on.resources) == Some(Outcome(body.itemId, Some(after)))
  {
    var item := SongItem(body.itemId, body.title, ArrangementOf(body.song, on.resources).value, catalogue);
    IndexAfterReplace(on.items, IndexOf(on.items, body.itemId), item, body.itemId);
  }

  lemma DeleteIsRecognized(body: Body, on: Effect, catalogue: Catalogue, newId: Id)
    requires body.DeleteOwnedItem? && Perform(body, on, catalogue, newId).Some?
    ensures var after := Perform(body, on, catalogue, newId).value.items;
            Recognize(body, after, on.resources) == Some(Outcome(body.itemId, Some(after)))
  {
    DeletedIsGone(on.items, body.itemId, body.itemId);
  }

  /** The write names a neighbour, or none was needed. */
  predicate Recognizable(body: Body, items: Agenda) {
    body.InsertItem? && body.place == Nowhere ==> items == []
  }

  lemma WriteIsRecognized(body: Body, on: Effect, catalogue: Catalogue, newId: Id)
    requires body.MutatesAgenda() && Perform(body, on, catalogue, newId).Some? && Recognizable(body, on.items)
    requires body.InsertItem? || body.ReplaceItem? ==> Resolvable(body.song, on.resources, catalogue)
    requires body.InsertItem? ==> Absent(on.items, newId) && newId !in body.initialIds
    ensures var after := Perform(body, on, catalogue, newId).value.items;
            Recognize(body, after, on.resources)
            == Some(Outcome(if body.InsertItem? then newId else body.itemId, Some(after)))
  {
    if body.InsertItem? {
      InsertIsRecognized(body, on, catalogue, newId);
    } else if body.ReplaceItem? {
      ReplaceIsRecognized(body, on, catalogue, newId);
    } else {
      DeleteIsRecognized(body, on, catalogue, newId);
    }
  }

  // Sound: what is recognized has the effect.

  /** Position `k` is directly beside the neighbour, on the side an insert goes to. */
  predicate Adjacent(items: Agenda, k: nat, neighbour: Neighbour) {
    match neighbour
    case BeforeItem(id) => k + 1 < |items| && items[k + 1].id == id
    case AfterItem(id) => 0 < k <= |items| && items[k - 1].id == id
    case AtEnd => |items| == 1
  }

  /** An insert is never recognized in an item that the planner had seen; the item
      shows the wanted song directly beside the neighbour. */
  lemma RecognizedInsert(body: Body, items: Agenda, resources: Resources)
    requires body.InsertItem? && NeighbourOf(body.place, resources).Some?
    requires Recognize(body, items, resources).Some?
    ensures var id := Recognize(body, items, resources).value.itemId;
            && id !in body.initialIds
            && exists k: nat :: k < |items| && items[k].id == id && ShowsWanted(items[k], body.song, resources)
                 && Adjacent(items, k, NeighbourOf(body.place, resources).value)
  {
    var k: nat := match NeighbourOf(body.place, resources).value
                  case BeforeItem(n) => IndexOf(items, n) - 1
                  case AfterItem(n) => IndexOf(items, n) + 1
                  case AtEnd => 0;
    assert items[k] == Candidate(body, items, resources).value;
    assert Adjacent(items, k, NeighbourOf(body.place, resources).value);
  }

  lemma RecognizedReplace(body: Body, items: Agenda, resources: Resources)
    requires body.ReplaceItem? && Recognize(body, items, resources).Some?
    ensures Recognize(body, items, resources).value.itemId == body.itemId
    ensures exists k :: 0 <= k < |items| && items[k].id == body.itemId && ShowsWanted(items[k], body.song, resources)
  {
    assert items[IndexOf(items, body.itemId)] == Candidate(body, items, resources).value;
  }

  // The provider's companion rule.

  predicate PositionMatches(before: Agenda, after: Agenda, candidate: Id, neighbour: Neighbour) {
    match neighbour
    case BeforeItem(id) =>
      var k := IndexOf(after, id);
      IndexOf(before, id) < |before| && 0 < k < |after| && after[k - 1].id == candidate
    case AfterItem(id) =>
      var k := IndexOf(after, id);
      IndexOf(before, id) < |before| && k + 1 < |after| && after[k + 1].id == candidate
    case AtEnd => before == [] && |after| == 1 && after[0].id == candidate
  }

  /** The engine's rule and the provider's rule look at the same item; the provider
      also wants to have seen the neighbour, or an empty agenda, before the call. */
  lemma RulesAgree(before: Agenda, after: Agenda, candidate: Id, neighbour: Neighbour)
    ensures PositionMatches(before, after, candidate, neighbour)
            <==> && Beside(after, neighbour).Some? && Beside(after, neighbour).value.id == candidate
                 && match neighbour
                    case BeforeItem(id) => !Absent(before, id)
                    case AfterItem(id) => !Absent(before, id)
                    case AtEnd => before == []
  {
  }

  /** The provider recognizes its own insert in exactly the same cases. */
  lemma InsertPositionMatches(before: Agenda, place: Neighbour, item: AgendaItem)
    requires InsertSong(before, place, item).Some? && Absent(before, item.id)
    ensures PositionMatches(before, InsertSong(before, place, item).value, item.id, place)
            <==> place != AtEnd || before == []
  {
    InsertIsAt(before, place, item);
    var at := Position(before, place);
    assert InsertSong(before, place, item).value[at] == item;
    match place {
      case BeforeItem(id) => IndexAfterInsert(before, at, item, id);
      case AfterItem(id) => IndexAfterInsert(before, at, item, id);
      case AtEnd =>
    }
  }
}
