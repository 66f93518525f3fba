/** Performing a well-formed action list yields exactly the agenda that module
    Layout describes. */
module LayoutProofs {
  import opened Prelude
  import opened Agendas
  import opened Actions
  import opened Layout

  ghost predicate From(items: Agenda, ids: set<Id>) {
    forall i :: 0 <= i < |items| ==> items[i].id in ids
  }

  ghost function IdSet(items: Agenda): set<Id> {
    set i | 0 <= i < |items| :: items[i].id
  }

  ghost function AsSet(ids: seq<Id>): set<Id> {
    set i | 0 <= i < |ids| :: ids[i]
  }

  /** The provider's ids are new: distinct, and none is in use. */
  ghost predicate Fresh(newIds: seq<Id>, items: Agenda) {
    && (forall i, j :: 0 <= i < j < |newIds| ==> newIds[i] != newIds[j])
    && (forall i, j :: 0 <= i < |newIds| && 0 <= j < |items| ==> newIds[i] != items[j].id)
  }

  predicate Deletes(action: Body, id: Id) { action.DeleteOwnedItem? && action.itemId == id }

  ghost predicate Present(actions: seq<Body>, items: Agenda, id: Id) {
    && (exists i :: 0 <= i < |items| && items[i].id == id)
    && (forall j :: 0 <= j < |actions| ==> !Deletes(actions[j], id))
  }

  /** Action `last`, coming after `earlier`, refers only to things that exist then. */
  ghost predicate RefersToPresent(earlier: seq<Body>, last: Body, items: Agenda) {
    match last
    case InsertItem(_, _, _, _, _, _, place) =>
      (match place
       case Before(id) => Present(earlier, items, id)
       case AfterId(id) => Present(earlier, items, id)
       case Nowhere => true
       case AfterKey(key) =>
         && earlier != []
         && LatestChain(earlier) != NoChain
         && earlier[|earlier| - 1].InsertItem?
         && earlier[|earlier| - 1].resourceKey == key)
    case ReplaceItem(_, _, _, _, itemId, _) => Present(earlier, items, itemId)
    case DeleteOwnedItem(_, _, itemId) => Present(earlier, items, itemId)
    case Noop(_, _, _, _, _) => true
    case CleanupNoop(_, _, _) => true
    case CreateSong(_, _, _, _, _, _, _, _) => true
    case CreateArrangement(_, _, _, _) => true
  }

  /** The keys of inserted items are not keys of songs or arrangements. */
  ghost predicate KeysApart(actions: seq<Body>) {
    forall i, j ::
      (0 <= i < |actions| && 0 <= j < |actions|
       && actions[i].InsertItem? && (actions[j].InsertItem? || actions[j].ReplaceItem?)) ==>
      actions[j].song.songKey != Some(actions[i].resourceKey)
      && actions[j].song.arrangementKey != Some(actions[i].resourceKey)
  }

  ghost predicate WellPlanned(actions: seq<Body>, items: Agenda) {
    && KeysApart(actions)
    && forall n :: 0 <= n < |actions| ==> RefersToPresent(actions[..n], actions[n], items)
  }

  // Where the songs of a description come from.

  lemma {:induction false} BeforeFrom(actions: seq<Body>, newIds: seq<Id>, id: Id, s: Setting)
    requires |newIds| == |actions| && Placeable(actions, s)
    ensures From(BeforeOf(actions, newIds, id, s), AsSet(newIds))
  {
    var n := |actions|;
    if n > 0 {
      BeforeFrom(actions[..n - 1], newIds[..n - 1], id, s);
      assert newIds[n - 1] in AsSet(newIds);
      assert AsSet(newIds[..n - 1]) <= AsSet(newIds);
    }
  }

  lemma {:induction false} TailFrom(actions: seq<Body>, newIds: seq<Id>, s: Setting)
    requires |newIds| == |actions| && Placeable(actions, s)
    ensures From(TailOf(actions, newIds, s), AsSet(newIds))
  {
    var n := |actions|;
    if n > 0 {
      TailFrom(actions[..n - 1], newIds[..n - 1], s);
      assert newIds[n - 1] in AsSet(newIds);
      assert AsSet(newIds[..n - 1]) <= AsSet(newIds);
    }
  }

  lemma ChainsStepFrom(actions: seq<Body>, newIds: seq<Id>, id: Id, s: Setting, ids: set<Id>)
    requires |newIds| == |actions| && Placeable(actions, s) && actions != [] && newIds[|newIds| - 1] in ids
    requires From(Flatten(ChainsOf(actions[..|actions| - 1], newIds[..|actions| - 1], id, s)), ids)
    ensures From(Flatten(ChainsOf(actions, newIds, id, s)), ids)
  {
    var n := |actions|;
    var rest := ChainsOf(actions[..n - 1], newIds[..n - 1], id, s);
    var chains := ChainsOf(actions, newIds, id, s);
    if chains != rest && |chains| == |rest| {
      assert Flatten(rest) == rest[0] + Flatten(rest[1..]);
      assert chains[1..] == rest[1..];
      assert forall i :: 0 <= i < |rest[0]| ==> Flatten(rest)[i] == rest[0][i];
      assert forall i :: 0 <= i < |Flatten(rest[1..])| ==> Flatten(rest)[|rest[0]| + i] == Flatten(rest[1..])[i];
    } else if chains != rest {
      assert chains[1..] == rest;
    }
  }

  lemma {:induction false} ChainsFrom(actions: seq<Body>, newIds: seq<Id>, id: Id, s: Setting)
    requires |newIds| == |actions| && Placeable(actions, s)
    ensures From(Flatten(ChainsOf(actions, newIds, id, s)), AsSet(newIds))
  {
    var n := |actions|;
    if n > 0 {
      ChainsFrom(actions[..n - 1], newIds[..n - 1], id, s);
      assert newIds[n - 1] in AsSet(newIds);
      assert AsSet(newIds[..n - 1]) <= AsSet(newIds);
      ChainsStepFrom(actions, newIds, id, s, AsSet(newIds));
    }
  }

  lemma {:induction false} CellsFrom(actions: seq<Body>, newIds: seq<Id>, items: Agenda, s: Setting)
    requires |newIds| == |actions| && Placeable(actions, s)
    ensures From(CellsOf(actions, newIds, items, s), AsSet(newIds) + IdSet(items))
  {
    if items != [] {
      CellsFrom(actions, newIds, items[1..], s);
      BeforeFrom(actions, newIds, items[0].id, s);
      ChainsFrom(actions, newIds, items[0].id, s);
      assert items[0].id in IdSet(items);
      assert forall i :: 0 <= i < |items[1..]| ==> items[1..][i] == items[i + 1];
      assert IdSet(items[1..]) <= IdSet(items);
    }
  }

  lemma {:induction false} CellsConcat(actions: seq<Body>, newIds: seq<Id>, a: Agenda, b: Agenda, s: Setting)
    requires |newIds| == |actions| && Placeable(actions, s)
    ensures CellsOf(actions, newIds, a + b, s) == CellsOf(actions, newIds, a, s) + CellsOf(actions, newIds, b, s)
  {
    if a == [] {
      assert a + b == b;
    } else {
      assert (a + b)[1..] == a[1..] + b;
      CellsConcat(actions, newIds, a[1..], b, s);
    }
  }

  lemma CellsSplit(actions: seq<Body>, newIds: seq<Id>, left: Agenda, item: AgendaItem, right: Agenda, s: Setting)
    requires |newIds| == |actions| && Placeable(actions, s)
    ensures CellsOf(actions, newIds, left + [item] + right, s) ==
         CellsOf(actions, newIds, left, s) + CellOf(actions, newIds, item, s)
            + CellsOf(actions, newIds, right, s)
  {
    CellsConcat(actions, newIds, left + [item], right, s);
    CellsConcat(actions, newIds, left, [item], s);
    assert CellsOf(actions, newIds, [], s) == [];
    assert CellsOf(actions, newIds, [item], s) == CellOf(actions, newIds, item, s);
  }

  /** The last action concerns the cell of item `id`. */
  ghost predicate Concerns(actions: seq<Body>, id: Id)
    requires actions != []
  {
    var last := actions[|actions| - 1];
    if last.InsertItem? then
      match last.place
      case Before(x) => x == id
      case AfterId(x) => x == id
      case AfterKey(_) => LatestChain(actions[..|actions| - 1]) == AtItem(id)
      case Nowhere => false
    else (last.ReplaceItem? || last.DeleteOwnedItem?) && last.itemId == id
  }

  lemma {:induction false} CellsFrame(actions: seq<Body>, newIds: seq<Id>, items: Agenda, s: Setting)
    requires |newIds| == |actions| && Placeable(actions, s) && actions != []
    requires forall i :: 0 <= i < |items| ==> !Concerns(actions, items[i].id)
    ensures CellsOf(actions, newIds, items, s) ==
         CellsOf(actions[..|actions| - 1], newIds[..|actions| - 1], items, s)
  {
    if items != [] {
      assert !Concerns(actions, items[0].id);
      assert forall i :: 0 <= i < |items[1..]| ==> items[1..][i] == items[i + 1];
      CellsFrame(actions, newIds, items[1..], s);
    }
  }

  // The resource map while an event runs.

  function ResourcesAfter(actions: seq<Body>, newIds: seq<Id>, start: Resources): Resources
    requires |newIds| == |actions|
  {
    var n := |actions|;
    if n == 0 then start
    else
      var rest := ResourcesAfter(actions[..n - 1], newIds[..n - 1], start);
      if actions[n - 1].InsertItem? then rest[actions[n - 1].resourceKey := newIds[n - 1]] else rest
  }

  lemma {:induction false} OtherKeysKeep(actions: seq<Body>, newIds: seq<Id>, start: Resources, key: Key)
    requires |newIds| == |actions|
    requires forall i :: 0 <= i < |actions| && actions[i].InsertItem? ==> actions[i].resourceKey != key
    ensures var r := ResourcesAfter(actions, newIds, start);
            (key in r <==> key in start) && (key in start ==> r[key] == start[key])
  {
    var n := |actions|;
    if n > 0 {
      OtherKeysKeep(actions[..n - 1], newIds[..n - 1], start, key);
    }
  }

  lemma SongsResolveAlike(actions: seq<Body>, newIds: seq<Id>, start: Resources, n: nat)
    requires |newIds| == |actions| && KeysApart(actions)
    requires n < |actions| && (actions[n].InsertItem? || actions[n].ReplaceItem?)
    ensures var r := ResourcesAfter(actions[..n], newIds[..n], start);
            && ArrangementOf(actions[n].song, r) == ArrangementOf(actions[n].song, start)
            && SongOf(actions[n].song, r) == SongOf(actions[n].song, start)
  {
    var song := actions[n].song;
    if song.songKey.Some? { OtherKeysKeep(actions[..n], newIds[..n], start, song.songKey.value); }
    if song.arrangementKey.Some? { OtherKeysKeep(actions[..n], newIds[..n], start, song.arrangementKey.value); }
  }

  // One more action, on the agenda described for the ones before it.

  lemma {:induction false} OwnPresent(actions: seq<Body>, item: AgendaItem, s: Setting)
    requires Placeable(actions, s)
    requires forall j :: 0 <= j < |actions| ==> !Deletes(actions[j], item.id)
    ensures |OwnOf(actions, item, s)| == 1
  {
    var n := |actions|;
    if n > 0 {
      assert !Deletes(actions[n - 1], item.id);
      OwnPresent(actions[..n - 1], item, s);
    }
  }

  ghost predicate Lacks(items: Agenda, id: Id) {
    forall i :: 0 <= i < |items| ==> items[i].id != id
  }

  lemma LacksAll(a: Agenda, b: Agenda, c: Agenda, id: Id)
    requires Lacks(a, id) && Lacks(b, id) && Lacks(c, id)
    ensures Lacks(a + b + c, id)
  {
  }

  // No described item other than a cell's own carries an original item's id.

  lemma LacksOther(items: Agenda, ids: set<Id>, id: Id)
    requires From(items, ids) && id !in ids
    ensures Lacks(items, id)
  {
  }

  lemma CellsLack(actions: seq<Body>, newIds: seq<Id>, others: Agenda, id: Id, s: Setting)
    requires |newIds| == |actions| && Placeable(actions, s)
    requires id !in AsSet(newIds) && id !in IdSet(others)
    ensures Lacks(CellsOf(actions, newIds, others, s), id)
  {
    CellsFrom(actions, newIds, others, s);
    LacksOther(CellsOf(actions, newIds, others, s), AsSet(newIds) + IdSet(others), id);
  }

  lemma BeforeLacks(actions: seq<Body>, newIds: seq<Id>, at: Id, id: Id, s: Setting)
    requires |newIds| == |actions| && Placeable(actions, s) && id !in AsSet(newIds)
    ensures Lacks(BeforeOf(actions, newIds, at, s), id)
  {
    BeforeFrom(actions, newIds, at, s);
    LacksOther(BeforeOf(actions, newIds, at, s), AsSet(newIds), id);
  }

  lemma ChainsLack(actions: seq<Body>, newIds: seq<Id>, at: Id, id: Id, s: Setting)
    requires |newIds| == |actions| && Placeable(actions, s) && id !in AsSet(newIds)
    ensures Lacks(Flatten(ChainsOf(actions, newIds, at, s)), id)
  {
    ChainsFrom(actions, newIds, at, s);
    LacksOther(Flatten(ChainsOf(actions, newIds, at, s)), AsSet(newIds), id);
  }

  lemma TailLacks(actions: seq<Body>, newIds: seq<Id>, id: Id, s: Setting)
    requires |newIds| == |actions| && Placeable(actions, s) && id !in AsSet(newIds)
    ensures Lacks(TailOf(actions, newIds, s), id)
  {
    TailFrom(actions, newIds, s);
    LacksOther(TailOf(actions, newIds, s), AsSet(newIds), id);
  }

  ghost function LeftOf(actions: seq<Body>, newIds: seq<Id>, left: Agenda, item: AgendaItem, s: Setting): Agenda
    requires |newIds| == |actions| && Placeable(actions, s)
  {
    CellsOf(actions, newIds, left, s) + BeforeOf(actions, newIds, item.id, s)
  }

  ghost function RightOf(actions: seq<Body>, newIds: seq<Id>, item: AgendaItem, right: Agenda, s: Setting): Agenda
    requires |newIds| == |actions| && Placeable(actions, s)
  {
    Flatten(ChainsOf(actions, newIds, item.id, s)) + CellsOf(actions, newIds, right, s)
    + TailOf(actions, newIds, s)
  }

  lemma Regroup<T>(left: seq<T>, before: seq<T>, own: seq<T>, chains: seq<T>, right: seq<T>, tail: seq<T>)
    ensures (left + (before + own + chains) + right) + tail == (left + before) + own + (chains + right + tail)
  {
  }

  /** The agenda seen from one original item. */
  lemma AroundItem(actions: seq<Body>, newIds: seq<Id>, left: Agenda, item: AgendaItem, right: Agenda, s: Setting)
    requires |newIds| == |actions| && Placeable(actions, s)
    ensures Laid(actions, newIds, left + [item] + right, s) ==
         LeftOf(actions, newIds, left, item, s) + OwnOf(actions, item, s)
            + RightOf(actions, newIds, item, right, s)
  {
    CellsSplit(actions, newIds, left, item, right, s);
    Regroup(CellsOf(actions, newIds, left, s), BeforeOf(actions, newIds, item.id, s), OwnOf(actions, item, s),
            Flatten(ChainsOf(actions, newIds, item.id, s)), CellsOf(actions, newIds, right, s),
            TailOf(actions, newIds, s));
  }

  /** Nothing around an original item has that item's id. */
  lemma AroundLacks(actions: seq<Body>, newIds: seq<Id>, left: Agenda, item: AgendaItem, right: Agenda, s: Setting)
    requires |newIds| == |actions| && Placeable(actions, s)
    requires DistinctIds(left + [item] + right) && Fresh(newIds, left + [item] + right)
    ensures Lacks(LeftOf(actions, newIds, left, item, s), item.id)
    ensures Lacks(RightOf(actions, newIds, item, right, s), item.id)
  {
    var all := left + [item] + right;
    assert all[|left|] == item;
    assert forall i :: 0 <= i < |left| ==> all[i] == left[i];
    assert forall i :: 0 <= i < |right| ==> all[|left| + 1 + i] == right[i];
    assert item.id !in IdSet(left) && item.id !in IdSet(right) && item.id !in AsSet(newIds);
    CellsLack(actions, newIds, left, item.id, s);
    BeforeLacks(actions, newIds, item.id, item.id, s);
    CellsLack(actions, newIds, right, item.id, s);
    ChainsLack(actions, newIds, item.id, item.id, s);
    TailLacks(actions, newIds, item.id, s);
    LacksAll(CellsOf(actions, newIds, left, s), BeforeOf(actions, newIds, item.id, s), [], item.id);
    LacksAll(Flatten(ChainsOf(actions, newIds, item.id, s)), CellsOf(actions, newIds, right, s),
             TailOf(actions, newIds, s), item.id);
  }

  lemma SplitAtItem(items: Agenda, id: Id) returns (left: Agenda, item: AgendaItem, right: Agenda)
    requires exists i :: 0 <= i < |items| && items[i].id == id
    ensures items == left + [item] + right && item.id == id
  {
    var i :| 0 <= i < |items| && items[i].id == id;
    left, item, right := items[..i], items[i], items[i + 1..];
  }

  ghost predicate Ready(actions: seq<Body>, newIds: seq<Id>, items: Agenda, s: Setting) {
    && actions != [] && |newIds| == |actions| && Placeable(actions, s)
    && DistinctIds(items) && Fresh(newIds, items)
  }

  lemma FreshPrefix(newIds: seq<Id>, items: Agenda, k: nat)
    requires Fresh(newIds, items) && k <= |newIds|
    ensures Fresh(newIds[..k], items)
  {
  }

  /** The cells left and right of the one the last action concerns are as before. */
  lemma NeighboursKeep(actions: seq<Body>, newIds: seq<Id>, left: Agenda, item: AgendaItem, right: Agenda, s: Setting)
    requires Ready(actions, newIds, left + [item] + right, s)
    requires forall x :: Concerns(actions, x) ==> x == item.id
    ensures CellsOf(actions, newIds, left, s) == CellsOf(actions[..|actions| - 1], newIds[..|actions| - 1], left, s)
    ensures CellsOf(actions, newIds, right, s) == CellsOf(actions[..|actions| - 1], newIds[..|actions| - 1], right, s)
  {
    var all := left + [item] + right;
    assert all[|left|] == item;
    assert forall i :: 0 <= i < |left| ==> all[i] == left[i];
    assert forall i :: 0 <= i < |right| ==> all[|left| + 1 + i] == right[i];
    CellsFrame(actions, newIds, left, s);
    CellsFrame(actions, newIds, right, s);
  }

  /** Both agendas, seen from the item that the last action concerns. */
  lemma SeenFrom(actions: seq<Body>, newIds: seq<Id>, items: Agenda, s: Setting, id: Id)
    returns (left: Agenda, item: AgendaItem, right: Agenda, own: AgendaItem)
    requires Ready(actions, newIds, items, s) && Present(actions[..|actions| - 1], items, id)
    requires forall x :: Concerns(actions, x) ==> x == id
    ensures items == left + [item] + right && item.id == id
    ensures var prior, ids := actions[..|actions| - 1], newIds[..|actions| - 1];
            && Placeable(prior, s) && OwnOf(prior, item, s) == [own] && own.id == id
            && Laid(prior, ids, items, s)
               == LeftOf(prior, ids, left, item, s) + [own] + RightOf(prior, ids, item, right, s)
            && Laid(actions, newIds, items, s)
               == LeftOf(actions, newIds, left, item, s) + OwnOf(actions, item, s) + RightOf(actions, newIds, item, right, s)
            && Lacks(LeftOf(prior, ids, left, item, s), id) && Lacks(RightOf(prior, ids, item, right, s), id)
            && CellsOf(actions, newIds, left, s) == CellsOf(prior, ids, left, s)
            && CellsOf(actions, newIds, right, s) == CellsOf(prior, ids, right, s)
  {
    hide Laid, LeftOf, RightOf, Lacks, CellsOf, OwnOf, Concerns;
    var prior, ids := actions[..|actions| - 1], newIds[..|actions| - 1];
    left, item, right := SplitAtItem(items, id);
    AroundItem(prior, ids, left, item, right, s);
    AroundItem(actions, newIds, left, item, right, s);
    AroundLacks(prior, ids, left, item, right, s);
    OwnPresent(prior, item, s);
    NeighboursKeep(actions, newIds, left, item, right, s);
    own := OwnOf(prior, item, s)[0];
    assert OwnOf(prior, item, s) == [own];
  }

  lemma StepBefore(actions: seq<Body>, newIds: seq<Id>, items: Agenda, s: Setting, id: Id)
    requires Ready(actions, newIds, items, s)
    requires var last := actions[|actions| - 1]; last.InsertItem? && last.place == Before(id)
    requires Present(actions[..|actions| - 1], items, id)
    ensures var n := |actions| - 1;
            InsertSong(Laid(actions[..n], newIds[..n], items, s), BeforeItem(id), Item(actions[n], newIds[n], s))
            == Some(Laid(actions, newIds, items, s))
  {
    var n := |actions| - 1;
    var prior, ids, new' := actions[..n], newIds[..n], Item(actions[n], newIds[n], s);
    var left, item, right, own := SeenFrom(actions, newIds, items, s, id);
    InsertBeforeAt(LeftOf(prior, ids, left, item, s), own, RightOf(prior, ids, item, right, s), new');
    LeftGrows(actions, newIds, left, item, s);
  }

  lemma LeftGrows(actions: seq<Body>, newIds: seq<Id>, left: Agenda, item: AgendaItem, s: Setting)
    requires |newIds| == |actions| && actions != [] && Placeable(actions, s)
    requires var last := actions[|actions| - 1]; last.InsertItem? && last.place == Before(item.id)
    requires CellsOf(actions, newIds, left, s) == CellsOf(actions[..|actions| - 1], newIds[..|actions| - 1], left, s)
    ensures var n := |actions| - 1;
            LeftOf(actions, newIds, left, item, s)
            == LeftOf(actions[..n], newIds[..n], left, item, s) + [Item(actions[n], newIds[n], s)]
  {
  }

  lemma FlattenFront<T>(first: seq<T>, rest: seq<seq<T>>)
    ensures Flatten([first] + rest) == first + Flatten(rest)
  {
    assert ([first] + rest)[1..] == rest;
  }

  lemma Prepend<T>(left: seq<T>, own: seq<T>, item: seq<T>, right: seq<T>)
    ensures left + own + item + right == left + own + (item + right)
  {
  }

  lemma RightGrows(actions: seq<Body>, newIds: seq<Id>, item: AgendaItem, right: Agenda, s: Setting)
    requires |newIds| == |actions| && actions != [] && Placeable(actions, s)
    requires var last := actions[|actions| - 1]; last.InsertItem? && last.place == AfterId(item.id)
    requires CellsOf(actions, newIds, right, s) == CellsOf(actions[..|actions| - 1], newIds[..|actions| - 1], right, s)
    ensures var n := |actions| - 1;
            RightOf(actions, newIds, item, right, s)
            == [Item(actions[n], newIds[n], s)] + RightOf(actions[..n], newIds[..n], item, right, s)
  {
    hide Flatten, ChainsOf, CellsOf, TailOf, Item, Placeable;
    var n := |actions| - 1;
    ChainsGrow(actions, newIds, item.id, s);
    TailStays(actions, newIds, item.id, s);
    Prepend4([Item(actions[n], newIds[n], s)], Flatten(ChainsOf(actions[..n], newIds[..n], item.id, s)),
             CellsOf(actions, newIds, right, s), TailOf(actions, newIds, s));
  }

  /** A new chain stands before the older ones. */
  lemma ChainsGrow(actions: seq<Body>, newIds: seq<Id>, id: Id, s: Setting)
    requires |newIds| == |actions| && actions != [] && Placeable(actions, s)
    requires var last := actions[|actions| - 1]; last.InsertItem? && last.place == AfterId(id)
    ensures var n := |actions| - 1;
            && Placeable(actions[..n], s) && Resolvable(actions[n].song, s.resources, s.catalogue)
            && Flatten(ChainsOf(actions, newIds, id, s))
               == [Item(actions[n], newIds[n], s)] + Flatten(ChainsOf(actions[..n], newIds[..n], id, s))
  {
    hide Flatten, LatestChain, Item, TailOf, CellsOf;
    var n := |actions| - 1;
    FlattenFront([Item(actions[n], newIds[n], s)], ChainsOf(actions[..n], newIds[..n], id, s));
  }

  lemma TailStays(actions: seq<Body>, newIds: seq<Id>, id: Id, s: Setting)
    requires |newIds| == |actions| && actions != [] && Placeable(actions, s)
    requires var last := actions[|actions| - 1]; last.InsertItem? && last.place == AfterId(id)
    ensures TailOf(actions, newIds, s) == TailOf(actions[..|actions| - 1], newIds[..|actions| - 1], s)
  {
  }

  lemma Prepend4<T>(item: seq<T>, chains: seq<T>, right: seq<T>, tail: seq<T>)
    ensures (item + chains) + right + tail == item + (chains + right + tail)
  {
  }

  lemma StepAfter(actions: seq<Body>, newIds: seq<Id>, items: Agenda, s: Setting, id: Id)
    requires Ready(actions, newIds, items, s)
    requires var last := actions[|actions| - 1]; last.InsertItem? && last.place == AfterId(id)
    requires Present(actions[..|actions| - 1], items, id)
    ensures var n := |actions| - 1;
            InsertSong(Laid(actions[..n], newIds[..n], items, s), AfterItem(id), Item(actions[n], newIds[n], s))
            == Some(Laid(actions, newIds, items, s))
  {
    var n := |actions| - 1;
    var prior, ids, new' := actions[..n], newIds[..n], Item(actions[n], newIds[n], s);
    var left, item, right, own := SeenFrom(actions, newIds, items, s, id);
    InsertAfterAt(LeftOf(prior, ids, left, item, s), own, RightOf(prior, ids, item, right, s), new');
    RightGrows(actions, newIds, item, right, s);
    assert LeftOf(actions, newIds, left, item, s) == LeftOf(prior, ids, left, item, s);
    Prepend(LeftOf(prior, ids, left, item, s), [own], [new'], RightOf(prior, ids, item, right, s));
  }

  lemma StepAtEnd(actions: seq<Body>, newIds: seq<Id>, items: Agenda, s: Setting)
    requires Ready(actions, newIds, items, s)
    requires var last := actions[|actions| - 1]; last.InsertItem? && last.place == Nowhere
    ensures var n := |actions| - 1;
            Laid(actions, newIds, items, s)
            == Laid(actions[..n], newIds[..n], items, s) + [Item(actions[n], newIds[n], s)]
  {
    CellsFrame(actions, newIds, items, s);
  }

  lemma StepReplace(actions: seq<Body>, newIds: seq<Id>, items: Agenda, s: Setting, id: Id)
    requires Ready(actions, newIds, items, s)
    requires var last := actions[|actions| - 1]; last.ReplaceItem? && last.itemId == id
    requires Present(actions[..|actions| - 1], items, id)
    ensures var n := |actions| - 1;
            ReplaceSong(Laid(actions[..n], newIds[..n], items, s), id, Item(actions[n], id, s))
            == Some(Laid(actions, newIds, items, s))
  {
    var n := |actions| - 1;
    var prior, ids, new' := actions[..n], newIds[..n], Item(actions[n], id, s);
    var left, item, right, own := SeenFrom(actions, newIds, items, s, id);
    ReplaceAt(LeftOf(prior, ids, left, item, s), own, RightOf(prior, ids, item, right, s), new');
  }

  lemma StepDelete(actions: seq<Body>, newIds: seq<Id>, items: Agenda, s: Setting, id: Id)
    requires Ready(actions, newIds, items, s)
    requires var last := actions[|actions| - 1]; last.DeleteOwnedItem? && last.itemId == id
    requires Present(actions[..|actions| - 1], items, id)
    ensures var n := |actions| - 1;
            DeleteItem(Laid(actions[..n], newIds[..n], items, s), id) == Laid(actions, newIds, items, s)
  {
    var n := |actions| - 1;
    var prior, ids := actions[..n], newIds[..n];
    var left, item, right, own := SeenFrom(actions, newIds, items, s, id);
    DeleteAt(LeftOf(prior, ids, left, item, s), own, RightOf(prior, ids, item, right, s));
    assert LeftOf(actions, newIds, left, item, s) + [] == LeftOf(actions, newIds, left, item, s);
  }

  lemma StepOther(actions: seq<Body>, newIds: seq<Id>, items: Agenda, s: Setting)
    requires Ready(actions, newIds, items, s)
    requires !actions[|actions| - 1].MutatesAgenda()
    ensures var n := |actions| - 1;
            Laid(actions[..n], newIds[..n], items, s) == Laid(actions, newIds, items, s)
  {
    CellsFrame(actions, newIds, items, s);
  }

  // A chained insert: the item it follows is the one inserted just before.

  /** What the last two actions of a chain look like. */
  ghost predicate Chained(actions: seq<Body>) {
    var n := |actions| - 1;
    && n >= 1
    && actions[n].InsertItem? && actions[n].place.AfterKey?
    && actions[n - 1].InsertItem?
    && LatestChain(actions[..n]) != NoChain
  }

  /** The id of the last insert is in use nowhere else. */
  lemma LastIdIsNew(prior: seq<Body>, ids: seq<Id>, items: Agenda, s: Setting)
    requires Ready(prior, ids, items, s)
    ensures ids[|prior| - 1] !in AsSet(ids[..|prior| - 1]) + IdSet(items)
  {
  }

  /** The newest chain ends with the previous insert, whose id the chain holds once. */
  lemma ChainEnd(prior: seq<Body>, ids: seq<Id>, items: Agenda, id: Id, s: Setting) returns (front: Agenda)
    requires Ready(prior, ids, items, s)
    requires prior[|prior| - 1].InsertItem? && LatestChain(prior) == AtItem(id)
    ensures var n := |prior| - 1;
            ChainsOf(prior, ids, id, s)[0] == front + [Item(prior[n], ids[n], s)]
    ensures Lacks(front, ids[|prior| - 1])
  {
    var n := |prior| - 1;
    if prior[n].place.AfterId? {
      front := [];
    } else {
      var chains := ChainsOf(prior[..n], ids[..n], id, s);
      front := chains[0];
      LastIdIsNew(prior, ids, items, s);
      ChainsLack(prior[..n], ids[..n], id, ids[n], s);
      FlattenFront(front, chains[1..]);
      assert [front] + chains[1..] == chains;
      assert Lacks(Flatten(chains), ids[n]);
      assert forall i :: 0 <= i < |front| ==> Flatten(chains)[i] == front[i];
    }
  }

  lemma ChainLeftLacks(prior: seq<Body>, ids: seq<Id>, left: Agenda, item: AgendaItem, right: Agenda, s: Setting)
    requires Ready(prior, ids, left + [item] + right, s)
    requires prior[|prior| - 1].InsertItem? && LatestChain(prior) == AtItem(item.id)
    ensures Lacks(LeftOf(prior, ids, left, item, s), ids[|prior| - 1])
    ensures ids[|prior| - 1] != item.id
  {
    hide CellsOf, BeforeOf, LatestChain, Fresh, DistinctIds, AsSet, IdSet;
    var n := |prior| - 1;
    LastIdIsNew(prior, ids, left + [item] + right, s);
    IdSetSplit(left, item, right);
    ChainOnlyConcerns(prior, item.id);
    NeighboursKeep(prior, ids, left, item, right, s);
    BeforeStays(prior, ids, item.id, s);
    CellsLack(prior[..n], ids[..n], left, ids[n], s);
    BeforeLacks(prior[..n], ids[..n], item.id, ids[n], s);
    LacksAll(CellsOf(prior, ids, left, s), BeforeOf(prior, ids, item.id, s), [], ids[n]);
  }

  lemma IdSetSplit(left: Agenda, item: AgendaItem, right: Agenda)
    ensures IdSet(left) <= IdSet(left + [item] + right) && item.id in IdSet(left + [item] + right)
  {
    var all := left + [item] + right;
    assert all[|left|] == item;
    assert forall i :: 0 <= i < |left| ==> all[i] == left[i];
  }

  lemma ChainOnlyConcerns(actions: seq<Body>, id: Id)
    requires actions != [] && actions[|actions| - 1].InsertItem? && LatestChain(actions) == AtItem(id)
    ensures actions[|actions| - 1].place.AfterId? || actions[|actions| - 1].place.AfterKey?
    ensures forall x :: Concerns(actions, x) ==> x == id
  {
  }

  lemma BeforeStays(actions: seq<Body>, newIds: seq<Id>, id: Id, s: Setting)
    requires |newIds| == |actions| && actions != [] && Placeable(actions, s)
    requires var last := actions[|actions| - 1]; last.InsertItem? && !last.place.Before?
    ensures BeforeOf(actions, newIds, id, s) == BeforeOf(actions[..|actions| - 1], newIds[..|actions| - 1], id, s)
  {
  }

  lemma ChainRegroup<T>(left: seq<T>, own: seq<T>, front: seq<T>, last: T, chains: seq<T>, right: seq<T>)
    ensures left + own + ((front + [last]) + chains + right) == (left + own + front) + [last] + (chains + right)
  {
  }

  lemma ChainRegroupWith<T>(left: seq<T>, own: seq<T>, front: seq<T>, last: T, item: T, chains: seq<T>, right: seq<T>)
    ensures left + own + (((front + [last]) + [item]) + chains + right)
            == (left + own + front) + [last] + [item] + (chains + right)
  {
  }

  /** The agenda seen from the newest chain: all before its last song, and all after it. */
  ghost function HeadOf(prior: seq<Body>, ids: seq<Id>, left: Agenda, item: AgendaItem, front: Agenda, s: Setting): Agenda
    requires |ids| == |prior| && Placeable(prior, s)
  {
    LeftOf(prior, ids, left, item, s) + OwnOf(prior, item, s) + front
  }

  ghost function RestOf(prior: seq<Body>, ids: seq<Id>, item: AgendaItem, right: Agenda, s: Setting): Agenda
    requires |ids| == |prior| && Placeable(prior, s) && LatestChain(prior) == AtItem(item.id)
  {
    Flatten(ChainsOf(prior, ids, item.id, s)[1..]) + (CellsOf(prior, ids, right, s) + TailOf(prior, ids, s))
  }

  lemma AroundChain(prior: seq<Body>, ids: seq<Id>, left: Agenda, item: AgendaItem, right: Agenda,
                    front: Agenda, last: AgendaItem, s: Setting)
    requires |ids| == |prior| && Placeable(prior, s) && LatestChain(prior) == AtItem(item.id)
    requires ChainsOf(prior, ids, item.id, s)[0] == front + [last]
    ensures Laid(prior, ids, left + [item] + right, s)
            == HeadOf(prior, ids, left, item, front, s) + [last] + RestOf(prior, ids, item, right, s)
  {
    var chains := ChainsOf(prior, ids, item.id, s);
    AroundItem(prior, ids, left, item, right, s);
    FlattenFront(chains[0], chains[1..]);
    assert [chains[0]] + chains[1..] == chains;
    RightIs(prior, ids, item, right, s);
    ChainRegroup(LeftOf(prior, ids, left, item, s), OwnOf(prior, item, s), front, last,
                 Flatten(chains[1..]), CellsOf(prior, ids, right, s) + TailOf(prior, ids, s));
  }

  lemma AroundLongerChain(actions: seq<Body>, newIds: seq<Id>, left: Agenda, item: AgendaItem, right: Agenda,
                          front: Agenda, last: AgendaItem, s: Setting)
    requires Ready(actions, newIds, left + [item] + right, s) && Chained(actions)
    requires LatestChain(actions[..|actions| - 1]) == AtItem(item.id)
    requires ChainsOf(actions[..|actions| - 1], newIds[..|actions| - 1], item.id, s)[0] == front + [last]
    ensures var n := |actions| - 1;
            Laid(actions, newIds, left + [item] + right, s)
            == HeadOf(actions[..n], newIds[..n], left, item, front, s) + [last] + [Item(actions[n], newIds[n], s)]
               + RestOf(actions[..n], newIds[..n], item, right, s)
  {
    var n := |actions| - 1;
    var prior, ids, new' := actions[..n], newIds[..n], Item(actions[n], newIds[n], s);
    AroundItem(actions, newIds, left, item, right, s);
    NeighboursKeep(actions, newIds, left, item, right, s);
    ChainsSplit(prior, ids, actions, newIds, item.id, s);
    RightIs(actions, newIds, item, right, s);
    assert LeftOf(actions, newIds, left, item, s) == LeftOf(prior, ids, left, item, s);
    ChainRegroupWith(LeftOf(prior, ids, left, item, s), OwnOf(prior, item, s), front, last, new',
                     Flatten(ChainsOf(prior, ids, item.id, s)[1..]), CellsOf(prior, ids, right, s) + TailOf(prior, ids, s));
  }

  lemma StepChainAtItem(actions: seq<Body>, newIds: seq<Id>, items: Agenda, s: Setting, id: Id)
    requires Ready(actions, newIds, items, s) && Chained(actions)
    requires LatestChain(actions[..|actions| - 1]) == AtItem(id)
    requires exists i :: 0 <= i < |items| && items[i].id == id
    ensures var n := |actions| - 1;
            InsertSong(Laid(actions[..n], newIds[..n], items, s), AfterItem(newIds[n - 1]), Item(actions[n], newIds[n], s))
            == Some(Laid(actions, newIds, items, s))
  {
    var n := |actions| - 1;
    var prior, ids := actions[..n], newIds[..n];
    var left, item, right := SplitAtItem(items, id);
    var front := ChainEnd(prior, ids, items, id, s);
    var last := Item(prior[n - 1], ids[n - 1], s);
    AroundChain(prior, ids, left, item, right, front, last, s);
    AroundLongerChain(actions, newIds, left, item, right, front, last, s);
    ChainLeftLacks(prior, ids, left, item, right, s);
    LacksAll(LeftOf(prior, ids, left, item, s), OwnOf(prior, item, s), front, last.id);
    InsertAfterAt(HeadOf(prior, ids, left, item, front, s), last, RestOf(prior, ids, item, right, s),
                  Item(actions[n], newIds[n], s));
  }

  lemma ChainsSplit(prior: seq<Body>, ids: seq<Id>, actions: seq<Body>, newIds: seq<Id>, id: Id, s: Setting)
    requires |newIds| == |actions| && Placeable(actions, s) && Chained(actions)
    requires prior == actions[..|actions| - 1] && ids == newIds[..|actions| - 1]
    requires LatestChain(prior) == AtItem(id)
    ensures var n := |actions| - 1;
            var chains := ChainsOf(prior, ids, id, s);
            && Flatten(chains) == chains[0] + Flatten(chains[1..])
            && Flatten(ChainsOf(actions, newIds, id, s))
               == (chains[0] + [Item(actions[n], newIds[n], s)]) + Flatten(chains[1..])
  {
    var n := |actions| - 1;
    var chains := ChainsOf(prior, ids, id, s);
    FlattenFront(chains[0] + [Item(actions[n], newIds[n], s)], chains[1..]);
  }

  lemma RightIs(actions: seq<Body>, newIds: seq<Id>, item: AgendaItem, right: Agenda, s: Setting)
    requires |newIds| == |actions| && Placeable(actions, s)
    ensures RightOf(actions, newIds, item, right, s)
            == Flatten(ChainsOf(actions, newIds, item.id, s))
               + (CellsOf(actions, newIds, right, s) + TailOf(actions, newIds, s))
  {
  }

  lemma StepChainAtTail(actions: seq<Body>, newIds: seq<Id>, items: Agenda, s: Setting)
    requires Ready(actions, newIds, items, s) && Chained(actions)
    requires LatestChain(actions[..|actions| - 1]) == AtTail
    ensures var n := |actions| - 1;
            InsertSong(Laid(actions[..n], newIds[..n], items, s), AfterItem(newIds[n - 1]), Item(actions[n], newIds[n], s))
            == Some(Laid(actions, newIds, items, s))
  {
    hide CellsOf, TailOf, LatestChain, AsSet, IdSet, Flatten;
    var n := |actions| - 1;
    var prior, ids, new' := actions[..n], newIds[..n], Item(actions[n], newIds[n], s);
    TailTwice(actions, newIds, items, s);
    LastIdIsNew(prior, ids, items, s);
    CellsLack(prior[..n - 1], ids[..n - 1], items, ids[n - 1], s);
    TailLacks(prior[..n - 1], ids[..n - 1], ids[n - 1], s);
    var last := Item(prior[n - 1], ids[n - 1], s);
    var cells, front := CellsOf(prior, ids, items, s), TailOf(prior[..n - 1], ids[..n - 1], s);
    LacksAll(cells, front, [], ids[n - 1]);
    TailRegroup(cells, front, last, new');
    InsertAfterAt(cells + front + [], last, [], new');
  }

  /** The last two actions of a chain at the end go to the end. */
  lemma TailTwice(actions: seq<Body>, newIds: seq<Id>, items: Agenda, s: Setting)
    requires |newIds| == |actions| && Placeable(actions, s) && Chained(actions)
    requires LatestChain(actions[..|actions| - 1]) == AtTail
    ensures var n := |actions| - 1;
            var prior, ids := actions[..n], newIds[..n];
            && TailOf(prior, ids, s) == TailOf(prior[..n - 1], ids[..n - 1], s) + [Item(prior[n - 1], ids[n - 1], s)]
            && TailOf(actions, newIds, s) == TailOf(prior, ids, s) + [Item(actions[n], newIds[n], s)]
            && CellsOf(prior, ids, items, s) == CellsOf(prior[..n - 1], ids[..n - 1], items, s)
            && CellsOf(actions, newIds, items, s) == CellsOf(prior, ids, items, s)
  {
    var n := |actions| - 1;
    CellsFrame(actions, newIds, items, s);
    CellsFrame(actions[..n], newIds[..n], items, s);
  }

  lemma TailRegroup<T>(cells: seq<T>, front: seq<T>, last: T, item: T)
    ensures cells + (front + [last]) == (cells + front + []) + [last] + []
    ensures cells + ((front + [last]) + [item]) == (cells + front + []) + [last] + [item] + []
  {
  }

  // The theorem.

  lemma {:induction false} LatestChainPresent(actions: seq<Body>, items: Agenda, id: Id)
    requires forall n :: 0 <= n < |actions| ==> RefersToPresent(actions[..n], actions[n], items)
    requires LatestChain(actions) == AtItem(id)
    ensures exists i :: 0 <= i < |items| && items[i].id == id
  {
    var n := |actions| - 1;
    if actions[n].place.AfterId? {
      assert RefersToPresent(actions[..n], actions[n], items);
    } else {
      forall k | 0 <= k < n ensures RefersToPresent(actions[..n][..k], actions[..n][k], items) {
        assert actions[..n][..k] == actions[..k];
        assert RefersToPresent(actions[..k], actions[k], items);
      }
      LatestChainPresent(actions[..n], items, id);
    }
  }

  lemma WellPlannedPrefix(actions: seq<Body>, items: Agenda, k: nat)
    requires WellPlanned(actions, items) && k <= |actions|
    ensures WellPlanned(actions[..k], items)
  {
    forall n | 0 <= n < k ensures RefersToPresent(actions[..k][..n], actions[..k][n], items) {
      assert actions[..k][..n] == actions[..n];
      assert RefersToPresent(actions[..n], actions[n], items);
    }
  }

  lemma StepInsert(actions: seq<Body>, newIds: seq<Id>, items: Agenda, s: Setting, resources: Resources)
    requires Ready(actions, newIds, items, s) && WellPlanned(actions, items)
    requires actions[|actions| - 1].InsertItem?
    requires var n := |actions| - 1;
             n >= 1 && actions[n - 1].InsertItem? ==>
               actions[n - 1].resourceKey in resources && resources[actions[n - 1].resourceKey] == newIds[n - 1]
    ensures var n := |actions| - 1;
            && NeighbourOf(actions[n].place, resources).Some?
            && InsertSong(Laid(actions[..n], newIds[..n], items, s), NeighbourOf(actions[n].place, resources).value,
                          Item(actions[n], newIds[n], s))
               == Some(Laid(actions, newIds, items, s))
  {
    var n := |actions| - 1;
    assert RefersToPresent(actions[..n], actions[n], items);
    match actions[n].place {
      case Before(id) => StepBefore(actions, newIds, items, s, id);
      case AfterId(id) => StepAfter(actions, newIds, items, s, id);
      case Nowhere => StepAtEnd(actions, newIds, items, s);
      case AfterKey(key) =>
        assert actions[..n][n - 1] == actions[n - 1];
        match LatestChain(actions[..n]) {
          case AtTail => StepChainAtTail(actions, newIds, items, s);
          case AtItem(id) =>
            WellPlannedPrefix(actions, items, n);
            LatestChainPresent(actions[..n], items, id);
            StepChainAtItem(actions, newIds, items, s, id);
          case NoChain =>
        }
    }
  }

  /** Performing a well-formed list of actions never gets stuck and leaves exactly
      the described agenda. */
  lemma {:induction false} PerformAllIsLaid(actions: seq<Body>, newIds: seq<Id>, items: Agenda, s: Setting)
    requires |newIds| == |actions| && Placeable(actions, s)
    requires DistinctIds(items) && Fresh(newIds, items) && WellPlanned(actions, items)
    ensures PerformAll(actions, Effect(items, s.resources), s.catalogue, newIds)
            == Some(Effect(Laid(actions, newIds, items, s), ResourcesAfter(actions, newIds, s.resources)))
  {
    hide Laid, InsertSong, ReplaceSong, DeleteItem, KeysApart, Resolve, DistinctIds;
    var n := |actions| - 1;
    if actions == [] {
      NothingLaid(items, s);
    } else {
      WellPlannedPrefix(actions, items, n);
      PerformAllIsLaid(actions[..n], newIds[..n], items, s);
      var resources := ResourcesAfter(actions[..n], newIds[..n], s.resources);
      assert RefersToPresent(actions[..n], actions[n], items);
      if actions[n].InsertItem? {
        SongsResolveAlike(actions, newIds, s.resources, n);
        StepInsert(actions, newIds, items, s, resources);
      } else if actions[n].ReplaceItem? {
        SongsResolveAlike(actions, newIds, s.resources, n);
        StepReplace(actions, newIds, items, s, actions[n].itemId);
      } else if actions[n].DeleteOwnedItem? {
        StepDelete(actions, newIds, items, s, actions[n].itemId);
      } else {
        StepOther(actions, newIds, items, s);
      }
    }
  }

  lemma {:induction false} NothingLaid(items: Agenda, s: Setting)
    ensures Laid([], [], items, s) == items
  {
    if items != [] {
      NothingLaid(items[1..], s);
      assert CellOf([], [], items[0], s) == [items[0]];
    }
  }
}
