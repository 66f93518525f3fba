/** Agendas as the target provider keeps them: a sequence of items in position
    order, and the three writes the sync service may perform on it. */
module Agendas {
  import opened Prelude

  type Id = string

  const SONG: string := "song"

  datatype AgendaItem = AgendaItem(
    id: Id, kind: string, title: Option<string>, songId: Option<Id>, arrangementId: Option<Id>)
  {
    predicate IsSong() { kind == SONG }

    predicate Shows(song: Id, arrangement: Id) {
      IsSong() && songId == Some(song) && arrangementId == Some(arrangement)
    }
  }

  type Agenda = seq<AgendaItem>

  function Ids(items: Agenda): (ids: seq<Id>)
    ensures |ids| == |items|
    ensures forall i :: 0 <= i < |items| ==> ids[i] == items[i].id
  {
    seq(|items|, i requires 0 <= i < |items| => items[i].id)
  }

  ghost predicate DistinctIds(items: Agenda) {
    forall i, j :: 0 <= i < j < |items| ==> items[i].id != items[j].id
  }

  function IndexOf(items: Agenda, id: Id): (k: nat)
    ensures k <= |items|
    ensures k < |items| ==> items[k].id == id
    ensures forall i :: 0 <= i < k ==> items[i].id != id
  {
    if items == [] then 0
    else if items[0].id == id then 0
    else 1 + IndexOf(items[1..], id)
  }

  /** Where a provider insert goes: before_item_id, after_item_id, or neither. */
  datatype Neighbour = BeforeItem(id: Id) | AfterItem(id: Id) | AtEnd

  function InsertSong(items: Agenda, place: Neighbour, item: AgendaItem): Option<Agenda> {
    match place
    case BeforeItem(id) =>
      var k := IndexOf(items, id);
      if k == |items| then None else Some(items[..k] + [item] + items[k..])
    case AfterItem(id) =>
      var k := IndexOf(items, id);
      if k == |items| then None else Some(items[..k + 1] + [item] + items[k + 1..])
    case AtEnd => Some(items + [item])
  }

  function ReplaceSong(items: Agenda, id: Id, item: AgendaItem): Option<Agenda> {
    var k := IndexOf(items, id);
    if k == |items| then None else Some(items[k := item])
  }

  function DeleteItem(items: Agenda, id: Id): Agenda {
    Filter(items, (item: AgendaItem) => item.id != id)
  }

  // Each write, on an agenda written as the items around its target.

  lemma {:induction false} IndexAt(left: Agenda, target: AgendaItem, right: Agenda)
    requires forall i :: 0 <= i < |left| ==> left[i].id != target.id
    ensures IndexOf(left + [target] + right, target.id) == |left|
  {
    var all := left + [target] + right;
    assert all[|left|] == target;
    assert forall i :: 0 <= i < |left| ==> all[i] == left[i];
  }

  lemma InsertBeforeAt(left: Agenda, target: AgendaItem, right: Agenda, item: AgendaItem)
    requires forall i :: 0 <= i < |left| ==> left[i].id != target.id
    ensures InsertSong(left + [target] + right, BeforeItem(target.id), item)
         == Some(left + [item] + [target] + right)
  {
    IndexAt(left, target, right);
    var all := left + [target] + right;
    assert all[..|left|] == left && all[|left|..] == [target] + right;
    assert left + [item] + ([target] + right) == left + [item] + [target] + right;
  }

  lemma InsertAfterAt(left: Agenda, target: AgendaItem, right: Agenda, item: AgendaItem)
    requires forall i :: 0 <= i < |left| ==> left[i].id != target.id
    ensures InsertSong(left + [target] + right, AfterItem(target.id), item)
         == Some(left + [target] + [item] + right)
  {
    IndexAt(left, target, right);
    var all := left + [target] + right;
    assert all[..|left| + 1] == left + [target] && all[|left| + 1..] == right;
  }

  lemma ReplaceAt(left: Agenda, target: AgendaItem, right: Agenda, item: AgendaItem)
    requires forall i :: 0 <= i < |left| ==> left[i].id != target.id
    ensures ReplaceSong(left + [target] + right, target.id, item) == Some(left + [item] + right)
  {
    IndexAt(left, target, right);
    assert (left + [target] + right)[|left| := item] == left + [item] + right;
  }

  lemma DeleteAt(left: Agenda, target: AgendaItem, right: Agenda)
    requires forall i :: 0 <= i < |left| ==> left[i].id != target.id
    requires forall i :: 0 <= i < |right| ==> right[i].id != target.id
    ensures DeleteItem(left + [target] + right, target.id) == left + right
  {
    var keep := (item: AgendaItem) => item.id != target.id;
    FilterConcat(left + [target], right, keep);
    FilterConcat(left, [target], keep);
    FilterAll(left, keep);
    FilterAll(right, keep);
    assert Filter([target], keep) == [];
  }
}
