/** The order of items in an agenda, and what one performed action does to it. */
module Order {
  import opened Prelude
  import opened Agendas
  import opened Actions

  /** Both items are there, and `x` stands before `y`. */
  ghost predicate Precedes(items: Agenda, x: Id, y: Id) {
    IndexOf(items, x) < IndexOf(items, y) < |items|
  }

  ghost predicate Absent(items: Agenda, id: Id) { IndexOf(items, id) == |items| }

  lemma IndexIs(items: Agenda, id: Id, k: nat)
    requires k < |items| && items[k].id == id
    requires forall i :: 0 <= i < k ==> items[i].id != id
    ensures IndexOf(items, id) == k
  {
  }

  lemma IndexAfterInsert(items: Agenda, at: nat, item: AgendaItem, id: Id)
    requires at <= |items| && id != item.id
    ensures IndexOf(items[..at] + [item] + items[at..], id)
            == IndexOf(items, id) + (if IndexOf(items, id) < at then 0 else 1)
  {
    var all := items[..at] + [item] + items[at..];
    assert forall i :: 0 <= i < at ==> all[i] == items[i];
    assert forall i :: at <= i < |items| ==> all[i + 1] == items[i];
    assert all[at] == item;
    var k := IndexOf(items, id);
    if k < |items| {
      IndexIs(all, id, if k < at then k else k + 1);
    } else {
      assert forall i :: 0 <= i < |all| ==> all[i].id != id;
    }
  }

  lemma IndexOfInserted(items: Agenda, at: nat, item: AgendaItem)
    requires at <= |items| && Absent(items, item.id)
    ensures IndexOf(items[..at] + [item] + items[at..], item.id) == at
  {
    var all := items[..at] + [item] + items[at..];
    assert forall i :: 0 <= i < at ==> all[i] == items[i];
    IndexIs(all, item.id, at);
  }

  lemma IndexAfterReplace(items: Agenda, at: nat, item: AgendaItem, id: Id)
    requires at < |items| && items[at].id == item.id
    ensures IndexOf(items[at := item], id) == IndexOf(items, id)
  {
    var all := items[at := item];
    var k := IndexOf(items, id);
    if k < |items| {
      IndexIs(all, id, k);
    }
  }

  lemma {:induction false} DeleteKeepsOrder(items: Agenda, gone: Id, x: Id, y: Id)
    requires Precedes(items, x, y) && x != gone && y != gone
    ensures Precedes(DeleteItem(items, gone), x, y)
  {
    var rest := items[1..];
    if items[0].id == gone {
      DeleteKeepsOrder(rest, gone, x, y);
    } else if items[0].id == x {
      DeleteKeeps(rest, gone, y);
      assert DeleteItem(items, gone) == [items[0]] + DeleteItem(rest, gone);
    } else {
      DeleteKeepsOrder(rest, gone, x, y);
      assert DeleteItem(items, gone) == [items[0]] + DeleteItem(rest, gone);
    }
  }

  lemma {:induction false} DeleteKeeps(items: Agenda, gone: Id, id: Id)
    requires !Absent(items, id) && id != gone
    ensures !Absent(DeleteItem(items, gone), id)
    ensures DeleteItem(items, gone)[IndexOf(DeleteItem(items, gone), id)] == items[IndexOf(items, id)]
  {
    if items[0].id != id {
      DeleteKeeps(items[1..], gone, id);
      if items[0].id != gone {
        assert DeleteItem(items, gone) == [items[0]] + DeleteItem(items[1..], gone);
      }
    } else {
      assert DeleteItem(items, gone) == [items[0]] + DeleteItem(items[1..], gone);
    }
  }

  function Position(items: Agenda, place: Neighbour): nat {
    match place
    case BeforeItem(id) => IndexOf(items, id)
    case AfterItem(id) => IndexOf(items, id) + 1
    case AtEnd => |items|
  }

  lemma InsertIsAt(items: Agenda, place: Neighbour, item: AgendaItem)
    requires InsertSong(items, place, item).Some?
    ensures Position(items, place) <= |items|
    ensures var at := Position(items, place);
            InsertSong(items, place, item).value == items[..at] + [item] + items[at..]
  {
  }

  /** Inserting keeps the order of everything else and the items themselves. */
  lemma InsertKeepsOthers(items: Agenda, place: Neighbour, item: AgendaItem, x: Id, y: Id)
    requires InsertSong(items, place, item).Some?
    requires x != item.id && y != item.id
    ensures var after := InsertSong(items, place, item).value;
            && (Precedes(items, x, y) ==> Precedes(after, x, y))
            && (!Absent(items, x) ==> !Absent(after, x) && after[IndexOf(after, x)] == items[IndexOf(items, x)])
  {
    InsertIsAt(items, place, item);
    IndexAfterInsert(items, Position(items, place), item, x);
    IndexAfterInsert(items, Position(items, place), item, y);
  }

  /** The new item stands where asked. */
  lemma InsertedStands(items: Agenda, place: Neighbour, item: AgendaItem)
    requires InsertSong(items, place, item).Some? && Absent(items, item.id)
    ensures var after := InsertSong(items, place, item).value;
            && !Absent(after, item.id) && after[IndexOf(after, item.id)] == item
            && (place.BeforeItem? ==> Precedes(after, item.id, place.id))
            && (place.AfterItem? ==> Precedes(after, place.id, item.id))
  {
    InsertIsAt(items, place, item);
    IndexOfInserted(items, Position(items, place), item);
    if place.BeforeItem? || place.AfterItem? {
      IndexAfterInsert(items, Position(items, place), item, place.id);
    }
  }

  /** What stood before the neighbour stands before the new item too. */
  lemma InsertedFollows(items: Agenda, place: Neighbour, item: AgendaItem, x: Id)
    requires InsertSong(items, place, item).Some? && Absent(items, item.id) && x != item.id
    requires place.BeforeItem? && Precedes(items, x, place.id)
    ensures Precedes(InsertSong(items, place, item).value, x, item.id)
  {
    InsertIsAt(items, place, item);
    IndexOfInserted(items, Position(items, place), item);
    IndexAfterInsert(items, Position(items, place), item, x);
  }

  /** A performed action keeps the order of all items it does not delete. */
  lemma PerformKeepsOrder(action: Body, on: Effect, catalogue: Catalogue, newId: Id, x: Id, y: Id)
    requires Perform(action, on, catalogue, newId).Some?
    requires Absent(on.items, newId) && Precedes(on.items, x, y)
    requires action.DeleteOwnedItem? ==> action.itemId != x && action.itemId != y
    ensures Precedes(Perform(action, on, catalogue, newId).value.items, x, y)
  {
    match action {
      case InsertItem(_, _, song, title, _, _, place) =>
        var item := SongItem(newId, title, ArrangementOf(song, on.resources).value, catalogue);
        InsertKeepsOthers(on.items, NeighbourOf(place, on.resources).value, item, x, y);
      case ReplaceItem(_, _, song, title, itemId, _) =>
        var item := SongItem(itemId, title, ArrangementOf(song, on.resources).value, catalogue);
        IndexAfterReplace(on.items, IndexOf(on.items, itemId), item, x);
        IndexAfterReplace(on.items, IndexOf(on.items, itemId), item, y);
      case DeleteOwnedItem(_, _, itemId) => DeleteKeepsOrder(on.items, itemId, x, y);
      case _ =>
    }
  }

  /** A performed action leaves every item alone that it does not replace or delete. */
  lemma PerformKeepsItem(action: Body, on: Effect, catalogue: Catalogue, newId: Id, x: Id)
    requires Perform(action, on, catalogue, newId).Some?
    requires Absent(on.items, newId) && !Absent(on.items, x)
    requires action.ReplaceItem? || action.DeleteOwnedItem? ==> action.itemId != x
    ensures var after := Perform(action, on, catalogue, newId).value.items;
            !Absent(after, x) && after[IndexOf(after, x)] == on.items[IndexOf(on.items, x)]
  {
    match action {
      case InsertItem(_, _, song, title, _, _, place) =>
        var item := SongItem(newId, title, ArrangementOf(song, on.resources).value, catalogue);
        InsertKeepsOthers(on.items, NeighbourOf(place, on.resources).value, item, x, x);
      case ReplaceItem(_, _, song, title, itemId, _) =>
        var item := SongItem(itemId, title, ArrangementOf(song, on.resources).value, catalogue);
        IndexAfterReplace(on.items, IndexOf(on.items, itemId), item, x);
      case DeleteOwnedItem(_, _, itemId) => DeleteKeeps(on.items, itemId, x);
      case _ =>
    }
  }

  lemma DeletedIsGone(items: Agenda, gone: Id, x: Id)
    ensures !Absent(DeleteItem(items, gone), x) <==> !Absent(items, x) && x != gone
  {
    var after := DeleteItem(items, gone);
    var keep := (item: AgendaItem) => item.id != gone;
    if !Absent(after, x) {
      FilterMember(items, keep, after[IndexOf(after, x)]);
    }
    if !Absent(items, x) && x != gone {
      DeleteKeeps(items, gone, x);
    }
  }

  /** Exactly one id comes (by an insert) or goes (by a delete). */
  lemma PerformIds(action: Body, on: Effect, catalogue: Catalogue, newId: Id, x: Id)
    requires Perform(action, on, catalogue, newId).Some? && Absent(on.items, newId)
    ensures !Absent(Perform(action, on, catalogue, newId).value.items, x)
            <==> (action.InsertItem? && x == newId)
                 || (!Absent(on.items, x) && !(action.DeleteOwnedItem? && action.itemId == x))
  {
    match action {
      case InsertItem(_, _, song, title, _, _, place) =>
        var item := SongItem(newId, title, ArrangementOf(song, on.resources).value, catalogue);
        var neighbour := NeighbourOf(place, on.resources).value;
        InsertIsAt(on.items, neighbour, item);
        if x == newId {
          IndexOfInserted(on.items, Position(on.items, neighbour), item);
        } else {
          IndexAfterInsert(on.items, Position(on.items, neighbour), item, x);
        }
      case ReplaceItem(_, _, song, title, itemId, _) =>
        var item := SongItem(itemId, title, ArrangementOf(song, on.resources).value, catalogue);
        IndexAfterReplace(on.items, IndexOf(on.items, itemId), item, x);
      case DeleteOwnedItem(_, _, itemId) => DeletedIsGone(on.items, itemId, x);
      case _ =>
    }
  }

  /** A performed action keeps the ids distinct. */
  lemma PerformDistinct(action: Body, on: Effect, catalogue: Catalogue, newId: Id)
    requires Perform(action, on, catalogue, newId).Some? && Absent(on.items, newId) && DistinctIds(on.items)
    ensures DistinctIds(Perform(action, on, catalogue, newId).value.items)
  {
    match action {
      case InsertItem(_, _, song, title, _, _, place) =>
        var item := SongItem(newId, title, ArrangementOf(song, on.resources).value, catalogue);
        InsertIsAt(on.items, NeighbourOf(place, on.resources).value, item);
        InsertDistinct(on.items, Position(on.items, NeighbourOf(place, on.resources).value), item);
      case DeleteOwnedItem(_, _, itemId) => DeleteDistinct(on.items, itemId);
      case _ =>
    }
  }

  lemma InsertDistinct(items: Agenda, at: nat, item: AgendaItem)
    requires at <= |items| && Absent(items, item.id) && DistinctIds(items)
    ensures DistinctIds(items[..at] + [item] + items[at..])
  {
    var all := items[..at] + [item] + items[at..];
    forall i, j | 0 <= i < j < |all| ensures all[i].id != all[j].id {
      assert all[i] == if i < at then items[i] else if i == at then item else items[i - 1];
      assert all[j] == if j < at then items[j] else if j == at then item else items[j - 1];
    }
  }

  lemma {:induction false} DeleteDistinct(items: Agenda, gone: Id)
    requires DistinctIds(items)
    ensures DistinctIds(DeleteItem(items, gone))
  {
    if items != [] {
      DeleteDistinct(items[1..], gone);
      var rest, keep := DeleteItem(items[1..], gone), (item: AgendaItem) => item.id != gone;
      forall j | 0 <= j < |rest| ensures rest[j].id != items[0].id {
        FilterMember(items[1..], keep, rest[j]);
      }
    }
  }
}
