/** Planned actions and what performing them does to an agenda. */
module Actions {
  import opened Prelude
  import opened Agendas

  type Key = string

  /** A song as an action payload names it: literal ids when ChurchTools already
      has it, resource keys when a preparation action will produce it. */
  datatype SongRef = SongRef(
    songId: Option<Id>, songKey: Option<Key>, arrangementId: Option<Id>, arrangementKey: Option<Key>)
  {
    function Dependencies(): seq<Key> {
      (if songKey.Some? then [songKey.value] else [])
      + (if arrangementKey.Some? then [arrangementKey.value] else [])
    }
  }

  /** The placement half of an INSERT payload. */
  datatype Place = Before(itemId: Id) | AfterKey(key: Key) | AfterId(itemId: Id) | Nowhere

  datatype Body =
    | CreateSong(sourceSongId: Id, name: string, author: string, ccli: Option<string>, category: Option<int>,
                 songKey: Key, arrangementName: string, arrangementKey: Key)
    | CreateArrangement(sourceSongId: Id, targetSongId: Id, name: string, resourceKey: Key)
    | InsertItem(sourceKey: Key, placementId: Id, song: SongRef, title: string,
                 resourceKey: Key, initialIds: seq<Id>, place: Place)
    | ReplaceItem(sourceKey: Key, placementId: Id, song: SongRef, title: string,
                  itemId: Id, alreadyOwned: bool)
    | Noop(sourceKey: Key, placementId: Id, song: SongRef, itemId: Id, alreadyOwned: bool)
    | CleanupNoop(sourceKey: Key, placementId: Id, itemId: Id)
    | DeleteOwnedItem(sourceKey: Key, placementId: Id, itemId: Id)
  {
    predicate MutatesAgenda() { InsertItem? || ReplaceItem? || DeleteOwnedItem? }

    /** An action that puts a wanted song somewhere, as opposed to tidying up. */
    predicate PlacesSong() { InsertItem? || ReplaceItem? || Noop? }
  }

  type Resources = map<Key, Id>

  function Resolve(literal: Option<Id>, key: Option<Key>, resources: Resources): Option<Id> {
    if literal.Some? then literal
    else if key.Some? && key.value in resources then Some(resources[key.value])
    else None
  }

  function SongOf(song: SongRef, resources: Resources): Option<Id> {
    Resolve(song.songId, song.songKey, resources)
  }

  function ArrangementOf(song: SongRef, resources: Resources): Option<Id> {
    Resolve(song.arrangementId, song.arrangementKey, resources)
  }

  /** Catalogue of the target: the song each arrangement belongs to. */
  type Catalogue = map<Id, Id>

  /** The song reference resolves, and to an arrangement of the song it names. */
  predicate Resolvable(song: SongRef, resources: Resources, catalogue: Catalogue) {
    && ArrangementOf(song, resources).Some?
    && ArrangementOf(song, resources).value in catalogue
    && SongOf(song, resources) == Some(catalogue[ArrangementOf(song, resources).value])
  }

  /** The agenda item that a provider write creates for an arrangement. */
  function SongItem(id: Id, title: string, arrangement: Id, catalogue: Catalogue): AgendaItem
    requires arrangement in catalogue
  {
    AgendaItem(id, SONG, Some(title), Some(catalogue[arrangement]), Some(arrangement))
  }

  function NeighbourOf(place: Place, resources: Resources): Option<Neighbour> {
    match place
    case Before(id) => Some(BeforeItem(id))
    case AfterKey(key) => if key in resources then Some(AfterItem(resources[key])) else None
    case AfterId(id) => Some(AfterItem(id))
    case Nowhere => Some(AtEnd)
  }

  datatype Effect = Effect(items: Agenda, resources: Resources)

  /** One provider write with its result recorded, or None where the provider or
      the resolution of a reference raises.  `newId` is the id the provider gives
      a new item. */
  function Perform(action: Body, on: Effect, catalogue: Catalogue, newId: Id): Option<Effect> {
    match action
    case InsertItem(_, _, song, title, key, _, place) =>
      var arrangement := ArrangementOf(song, on.resources);
      var neighbour := NeighbourOf(place, on.resources);
      if arrangement.None? || neighbour.None? || arrangement.value !in catalogue then None
      else
        var items := InsertSong(on.items, neighbour.value, SongItem(newId, title, arrangement.value, catalogue));
        if items.None? then None else Some(Effect(items.value, on.resources[key := newId]))
    case ReplaceItem(_, _, song, title, itemId, _) =>
      var arrangement := ArrangementOf(song, on.resources);
      if arrangement.None? || arrangement.value !in catalogue then None
      else
        var items := ReplaceSong(on.items, itemId, SongItem(itemId, title, arrangement.value, catalogue));
        if items.None? then None else Some(Effect(items.value, on.resources))
    case DeleteOwnedItem(_, _, itemId) => Some(on.(items := DeleteItem(on.items, itemId)))
    case Noop(_, _, _, _, _) => Some(on)
    case CleanupNoop(_, _, _) => Some(on)
    case CreateSong(_, _, _, _, _, _, _, _) => Some(on)
    case CreateArrangement(_, _, _, _) => Some(on)
  }

  /** All actions of an event in order; `newIds` supplies the provider's ids. */
  function PerformAll(actions: seq<Body>, on: Effect, catalogue: Catalogue, newIds: seq<Id>): Option<Effect>
    requires |newIds| == |actions|
  {
    var n := |actions|;
    if n == 0 then Some(on)
    else
      var before := PerformAll(actions[..n - 1], on, catalogue, newIds[..n - 1]);
      if before.None? then None
      else Perform(actions[n - 1], before.value, catalogue, newIds[n - 1])
  }
}
