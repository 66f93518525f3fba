/** A reference description of the agenda a list of actions leads to, written per
    original item and without looking anything up by index: what stands directly
    before the item, what became of the item, and what was chained after it. */
module Layout {
  import opened Prelude
  import opened Agendas
  import opened Actions

  datatype Setting = Setting(resources: Resources, catalogue: Catalogue)

  /** Every song an action wants is resolvable. */
  predicate Placeable(actions: seq<Body>, s: Setting) {
    forall i :: 0 <= i < |actions| && (actions[i].InsertItem? || actions[i].ReplaceItem?) ==>
      Resolvable(actions[i].song, s.resources, s.catalogue)
  }

  function Item(action: Body, id: Id, s: Setting): AgendaItem
    requires action.InsertItem? || action.ReplaceItem?
    requires Resolvable(action.song, s.resources, s.catalogue)
  {
    SongItem(id, action.title, ArrangementOf(action.song, s.resources).value, s.catalogue)
  }

  /** Songs inserted directly before item `id`, oldest first. */
  function BeforeOf(actions: seq<Body>, newIds: seq<Id>, id: Id, s: Setting): Agenda
    requires |newIds| == |actions| && Placeable(actions, s)
  {
    var n := |actions|;
    if n == 0 then []
    else
      var rest := BeforeOf(actions[..n - 1], newIds[..n - 1], id, s);
      var last := actions[n - 1];
      if last.InsertItem? && last.place == Before(id) then rest + [Item(last, newIds[n - 1], s)] else rest
  }

  /** Where the most recent chain of `after` inserts hangs: at an item or at the end. */
  datatype Anchor = NoChain | AtItem(id: Id) | AtTail

  function LatestChain(actions: seq<Body>): Anchor {
    var n := |actions|;
    if n == 0 then NoChain
    else if actions[n - 1].InsertItem? then
      match actions[n - 1].place
      case AfterId(id) => AtItem(id)
      case Nowhere => AtTail
      case AfterKey(_) => LatestChain(actions[..n - 1])
      case Before(_) => NoChain
    else NoChain
  }

  /** Songs chained after item `id`: the newest chain stands first, and inside a
      chain the songs stand in the order they were inserted. */
  function ChainsOf(actions: seq<Body>, newIds: seq<Id>, id: Id, s: Setting): (chains: seq<Agenda>)
    requires |newIds| == |actions| && Placeable(actions, s)
    ensures LatestChain(actions) == AtItem(id) ==> chains != [] && chains[0] != []
  {
    var n := |actions|;
    if n == 0 then []
    else
      var rest := ChainsOf(actions[..n - 1], newIds[..n - 1], id, s);
      var last := actions[n - 1];
      if !last.InsertItem? then rest
      else if last.place == AfterId(id) then [[Item(last, newIds[n - 1], s)]] + rest
      else if last.place.AfterKey? && LatestChain(actions[..n - 1]) == AtItem(id) then
        [rest[0] + [Item(last, newIds[n - 1], s)]] + rest[1..]
      else rest
  }

  /** Songs put at the very end because the placement had no neighbour at all. */
  function TailOf(actions: seq<Body>, newIds: seq<Id>, s: Setting): (tail: Agenda)
    requires |newIds| == |actions| && Placeable(actions, s)
    ensures LatestChain(actions) == AtTail ==> tail != []
  {
    var n := |actions|;
    if n == 0 then []
    else
      var rest := TailOf(actions[..n - 1], newIds[..n - 1], s);
      var last := actions[n - 1];
      if last.InsertItem?
         && (last.place == Nowhere || (last.place.AfterKey? && LatestChain(actions[..n - 1]) == AtTail))
      then rest + [Item(last, newIds[n - 1], s)] else rest
  }

  /** What became of an original item: itself, its replacement, or nothing. */
  function OwnOf(actions: seq<Body>, item: AgendaItem, s: Setting): (own: Agenda)
    requires Placeable(actions, s)
    ensures |own| <= 1 && (own != [] ==> own[0].id == item.id)
  {
    var n := |actions|;
    if n == 0 then [item]
    else
      var last := actions[n - 1];
      if last.ReplaceItem? && last.itemId == item.id then [Item(last, item.id, s)]
      else if last.DeleteOwnedItem? && last.itemId == item.id then []
      else OwnOf(actions[..n - 1], item, s)
  }

  function CellOf(actions: seq<Body>, newIds: seq<Id>, item: AgendaItem, s: Setting): Agenda
    requires |newIds| == |actions| && Placeable(actions, s)
  {
    BeforeOf(actions, newIds, item.id, s) + OwnOf(actions, item, s)
    + Flatten(ChainsOf(actions, newIds, item.id, s))
  }

  function CellsOf(actions: seq<Body>, newIds: seq<Id>, items: Agenda, s: Setting): Agenda
    requires |newIds| == |actions| && Placeable(actions, s)
  {
    if items == [] then []
    else CellOf(actions, newIds, items[0], s) + CellsOf(actions, newIds, items[1..], s)
  }

  function Laid(actions: seq<Body>, newIds: seq<Id>, items: Agenda, s: Setting): Agenda
    requires |newIds| == |actions| && Placeable(actions, s)
  {
    CellsOf(actions, newIds, items, s) + TailOf(actions, newIds, s)
  }

}
