/** The in-memory target provider (testing.py, FakeTargetProvider), with its agendas
    changed in place, and the dispatch of actions to it (engine.py, _apply_action):
    its writes are what performing an action means, and the ids it gives to new items
    never repeat. */
module TargetProvider {
  import opened Prelude
  import opened Agendas
  import opened Actions

  function ItemId(n: nat): Id { "item-" + Decimal(n) }

  function Digit(n: nat): char
    requires n < 10
  {
    n as char + '0'
  }

  lemma {:induction false} DecimalsDiffer(m: nat, n: nat)
    requires Decimal(m) == Decimal(n)
    ensures m == n
  {
    var s := Decimal(m);
    assert s[|s| - 1] == Digit(m % 10) && s[|s| - 1] == Digit(n % 10);
    assert m >= 10 ==> Decimal(m) == Decimal(m / 10) + [Digit(m % 10)] && Decimal(m / 10) == s[..|s| - 1];
    assert n >= 10 ==> Decimal(n) == Decimal(n / 10) + [Digit(n % 10)] && Decimal(n / 10) == s[..|s| - 1];
    if m >= 10 && n >= 10 {
      DecimalsDiffer(m / 10, n / 10);
    }
  }

  /** An id is never given twice. */
  lemma IdsNeverRepeat(m: nat, n: nat)
    requires m != n
    ensures ItemId(m) != ItemId(n)
  {
    if ItemId(m) == ItemId(n) {
      assert Decimal(m) == ItemId(m)[5..] && Decimal(n) == ItemId(n)[5..];
      DecimalsDiffer(m, n);
    }
  }

  datatype Write = Write(kind: string, actionId: string)

  /** `before_item_id` wins over `after_item_id`; empty ids count as none. */
  function NeighbourNamed(before: Option<Id>, after: Option<Id>): Neighbour {
    if before.Some? && before.value != "" then BeforeItem(before.value)
    else if after.Some? && after.value != "" then AfterItem(after.value)
    else AtEnd
  }

  /** No item carries an id with a number above `n`. */
  ghost predicate AllOld(items: Agenda, n: nat) {
    forall i, m: nat :: 0 <= i < |items| && m > n ==> items[i].id != ItemId(m)
  }

  lemma OlderStill(items: Agenda, n: nat, n': nat)
    requires AllOld(items, n) && n <= n'
    ensures AllOld(items, n')
  {
  }

  lemma OldMembers(items: Agenda, kept: Agenda, n: nat)
    requires AllOld(items, n) && forall i :: 0 <= i < |kept| ==> kept[i] in items
    ensures AllOld(kept, n)
  {
    forall i, m: nat | 0 <= i < |kept| && m > n ensures kept[i].id != ItemId(m) {
      var j :| 0 <= j < |items| && items[j] == kept[i];
      assert items[j].id != ItemId(m);
    }
  }

  lemma OldReplaced(items: Agenda, k: nat, item: AgendaItem, n: nat)
    requires AllOld(items, n) && k < |items| && item.id == items[k].id
    ensures AllOld(items[k := item], n)
  {
    var all := items[k := item];
    forall i, m: nat | 0 <= i < |all| && m > n ensures all[i].id != ItemId(m) {
      assert items[i].id != ItemId(m);
    }
  }

  lemma OldWithNew(items: Agenda, at: nat, added: AgendaItem, n: nat)
    requires at <= |items| && AllOld(items, n) && added.id == ItemId(n + 1)
    ensures AllOld(items[..at] + [added] + items[at..], n + 1)
    ensures forall i :: 0 <= i < |items| ==> items[i].id != added.id
    ensures at == |items| ==> items[..at] + [added] + items[at..] == items + [added]
  {
    var all := items[..at] + [added] + items[at..];
    forall i, m: nat | 0 <= i < |all| && m > n + 1 ensures all[i].id != ItemId(m) {
      if i == at {
        IdsNeverRepeat(m, n + 1);
      } else {
        assert items[if i < at then i else i - 1].id != ItemId(m);
      }
    }
  }

  class Provider {
    const catalogue: Catalogue
    const failing: set<Id>
    var agendas: map<Id, Agenda>
    var writes: seq<Write>
    var counter: nat

    constructor (tables: map<Id, Agenda>, songOf: Catalogue, broken: set<Id>)
      ensures agendas == tables && catalogue == songOf && failing == broken && writes == [] && counter == 1000
    {
      agendas, catalogue, failing, writes, counter := tables, songOf, broken, [], 1000;
    }

    /** No item carries an id that the provider will give later. */
    ghost predicate Ahead()
      reads this
    {
      forall e :: e in agendas ==> AllOld(agendas[e], counter)
    }

    method Log(kind: string, eventId: Id, actionId: string) returns (ok: bool)
      modifies this`writes
      ensures ok <==> eventId !in failing
      ensures writes == old(writes) + (if ok then [Write(kind, actionId)] else [])
    {
      ok := eventId !in failing;
      if ok {
        writes := writes + [Write(kind, actionId)];
      }
    }

    method Locate(items: Agenda, id: Id) returns (k: nat)
      ensures k == IndexOf(items, id)
    {
      k := 0;
      while k < |items| && items[k].id != id
        invariant k <= |items| && IndexOf(items, id) == k + IndexOf(items[k..], id)
      {
        assert items[k..][1..] == items[k + 1..];
        k := k + 1;
      }
    }

    /** `insert_agenda_song`. */
    method InsertAgendaSong(eventId: Id, arrangement: Id, title: string, actionId: string,
                            before: Option<Id>, after: Option<Id>) returns (item: Option<AgendaItem>)
      requires Ahead()
      modifies this
      ensures Ahead() && counter >= old(counter)
      ensures writes == old(writes) + (if eventId in failing then [] else [Write("insert_item", actionId)])
      ensures item.None? ==> agendas == old(agendas)
      ensures item.Some? ==>
                && eventId in old(agendas) && eventId !in failing && arrangement in catalogue
                && item.value == SongItem(ItemId(old(counter) + 1), title, arrangement, catalogue)
                && (forall i :: 0 <= i < |old(agendas)[eventId]| ==> old(agendas)[eventId][i].id != item.value.id)
                && InsertSong(old(agendas)[eventId], NeighbourNamed(before, after), item.value).Some?
                && agendas == old(agendas)[eventId := InsertSong(old(agendas)[eventId], NeighbourNamed(before, after), item.value).value]
      ensures eventId in old(agendas) && eventId !in failing && arrangement in catalogue
              && InsertSong(old(agendas)[eventId], NeighbourNamed(before, after),
                            SongItem(ItemId(old(counter) + 1), title, arrangement, catalogue)).Some?
              ==> item.Some?
    {
      hide AllOld, Decimal, ItemId, IndexOf;
      item := None;
      var ok := Log("insert_item", eventId, actionId);
      if !ok || eventId !in agendas {
        return;
      }
      var items := agendas[eventId];
      var position := |items|;
      if before.Some? && before.value != "" {
        position := Locate(items, before.value);
        if position == |items| {
          return;
        }
      } else if after.Some? && after.value != "" {
        position := Locate(items, after.value);
        if position == |items| {
          return;
        }
        position := position + 1;
      }
      counter := counter + 1;
      forall e | e in agendas ensures AllOld(agendas[e], counter) {
        OlderStill(agendas[e], counter - 1, counter);
      }
      if arrangement !in catalogue {
        return;
      }
      var added := SongItem(ItemId(counter), title, arrangement, catalogue);
      OldWithNew(items, position, added, counter - 1);
      agendas := agendas[eventId := items[..position] + [added] + items[position..]];
      item := Some(added);
    }

    /** `replace_agenda_song`. */
    method ReplaceAgendaSong(eventId: Id, itemId: Id, arrangement: Id, title: string, actionId: string)
      returns (item: Option<AgendaItem>)
      requires Ahead()
      modifies this`agendas, this`writes
      ensures Ahead()
      ensures writes == old(writes) + (if eventId in failing then [] else [Write("replace_item", actionId)])
      ensures item.None? ==> agendas == old(agendas)
      ensures item.Some? <==>
                && eventId in old(agendas) && eventId !in failing && arrangement in catalogue
                && ReplaceSong(old(agendas)[eventId], itemId, SongItem(itemId, title, arrangement, catalogue)).Some?
      ensures item.Some? ==>
                && item.value == SongItem(itemId, title, arrangement, catalogue)
                && agendas == old(agendas)[eventId := ReplaceSong(old(agendas)[eventId], itemId, item.value).value]
    {
      item := None;
      var ok := Log("replace_item", eventId, actionId);
      if !ok || eventId !in agendas {
        return;
      }
      var items := agendas[eventId];
      var k := Locate(items, itemId);
      if k == |items| || arrangement !in catalogue {
        return;
      }
      var changed := SongItem(itemId, title, arrangement, catalogue);
      OldReplaced(items, k, changed, counter);
      agendas := agendas[eventId := items[k := changed]];
      item := Some(changed);
    }

    /** `delete_agenda_item`: every item with the id goes, and none need be there. */
    method DeleteAgendaItem(eventId: Id, itemId: Id, actionId: string) returns (done: bool)
      requires Ahead()
      modifies this`agendas, this`writes
      ensures Ahead() && (done <==> eventId in old(agendas) && eventId !in failing)
      ensures writes == old(writes) + (if eventId in failing then [] else [Write("delete_item", actionId)])
      ensures agendas == if done then old(agendas)[eventId := DeleteItem(old(agendas)[eventId], itemId)] else old(agendas)
    {
      done := Log("delete_item", eventId, actionId);
      if !done || eventId !in agendas {
        return false;
      }
      var items, kept := agendas[eventId], [];
      for k := 0 to |items|
        invariant Ahead() && agendas == old(agendas) && writes == old(writes) + [Write("delete_item", actionId)]
        invariant kept == DeleteItem(items[..k], itemId)
        invariant forall i :: 0 <= i < |kept| ==> kept[i] in items
      {
        assert items[..k + 1] == items[..k] + [items[k]];
        FilterConcat(items[..k], [items[k]], (item: AgendaItem) => item.id != itemId);
        if items[k].id != itemId {
          kept := kept + [items[k]];
        }
      }
      assert items[..|items|] == items;
      OldMembers(items, kept, counter);
      agendas := agendas[eventId := kept];
    }
  }

  // The dispatch of an action.

  /** The ids that a placement payload resolves to are not empty. */
  predicate Named(place: Place, resources: Resources) {
    match NeighbourOf(place, resources)
    case Some(BeforeItem(id)) => id != ""
    case Some(AfterItem(id)) => id != ""
    case _ => true
  }

  /** The provider is called: the action writes, and everything it names resolves. */
  predicate Reaches(body: Body, resources: Resources) {
    match body
    case InsertItem(_, _, song, _, _, _, place) => ArrangementOf(song, resources).Some? && NeighbourOf(place, resources).Some?
    case ReplaceItem(_, _, song, _, _, _) => ArrangementOf(song, resources).Some?
    case DeleteOwnedItem(_, _, _) => true
    case _ => false
  }

  function Kind(body: Body): string {
    if body.InsertItem? then "insert_item" else if body.ReplaceItem? then "replace_item" else "delete_item"
  }

  /** `_apply_action`, for the actions of an event: what the provider then holds is what
      performing the action means, or nothing has changed; it is called at most once. */
  method ApplyAction(p: Provider, eventId: Id, body: Body, actionId: string, resources: Resources) returns (itemId: Option<Id>)
    requires p.Ahead() && !body.CreateSong? && !body.CreateArrangement?
    requires body.InsertItem? ==> Named(body.place, resources)
    modifies p
    ensures p.Ahead()
    ensures itemId.None? ==> p.agendas == old(p.agendas)
    ensures p.writes == old(p.writes) + (if Reaches(body, resources) && eventId !in p.failing then [Write(Kind(body), actionId)] else [])
    ensures itemId.Some? ==> itemId.value == if body.InsertItem? then ItemId(old(p.counter) + 1) else body.itemId
    ensures itemId.Some? && !body.MutatesAgenda() ==> p.agendas == old(p.agendas)
    ensures itemId.Some? && body.MutatesAgenda() ==>
              && eventId in old(p.agendas)
              && var done := Perform(body, Effect(old(p.agendas)[eventId], resources), p.catalogue, ItemId(old(p.counter) + 1));
                 done.Some? && p.agendas == old(p.agendas)[eventId := done.value.items]
    ensures eventId in old(p.agendas) && eventId !in p.failing && body.MutatesAgenda()
            && Perform(body, Effect(old(p.agendas)[eventId], resources), p.catalogue, ItemId(old(p.counter) + 1)).Some?
            ==> itemId.Some?
  {
    if !body.MutatesAgenda() {
      return Some(body.itemId);
    }
    if body.DeleteOwnedItem? {
      var done := p.DeleteAgendaItem(eventId, body.itemId, actionId);
      return if done then Some(body.itemId) else None;
    }
    var arrangement := ArrangementOf(body.song, resources);
    if arrangement.None? {
      return None;
    }
    var item: Option<AgendaItem>;
    if body.ReplaceItem? {
      item := p.ReplaceAgendaSong(eventId, body.itemId, arrangement.value, body.title, actionId);
    } else {
      var neighbour := NeighbourOf(body.place, resources);
      if neighbour.None? {
        return None;
      }
      var before := if neighbour.value.BeforeItem? then Some(neighbour.value.id) else None;
      var after := if neighbour.value.AfterItem? then Some(neighbour.value.id) else None;
      item := p.InsertAgendaSong(eventId, arrangement.value, body.title, actionId, before, after);
    }
    itemId := if item.Some? then Some(item.value.id) else None;
  }
}
