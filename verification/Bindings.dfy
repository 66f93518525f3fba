/** The ownership rows of one target event (runtime.py, bind_ownership and
    unbind_ownership; engine.py, _update_ownership) and how they follow verified
    actions. */
module Bindings {
  import opened Prelude
  import opened Agendas
  import opened Actions
  import opened Placements
  import opened PlanShape

  /** The row of an agenda item; the table keeps one per item. */
  function RowOf(rows: seq<Ownership>, itemId: Id): (k: nat)
    ensures k <= |rows|
    ensures k < |rows| ==> rows[k].agendaItemId == itemId
    ensures forall i :: 0 <= i < k ==> rows[i].agendaItemId != itemId
  {
    FirstIndex(rows, (o: Ownership) => o.agendaItemId == itemId)
  }

  /** An upsert that refuses to take an item over from another profile. */
  function Bind(rows: seq<Ownership>, o: Ownership): Option<seq<Ownership>> {
    var k := RowOf(rows, o.agendaItemId);
    if k == |rows| then Some(rows + [o])
    else if rows[k].profileId != o.profileId then None
    else Some(rows[k := o])
  }

  function Unbind(rows: seq<Ownership>, profileId: Id, itemId: Id): seq<Ownership> {
    Filter(rows, (o: Ownership) => !(o.profileId == profileId && o.agendaItemId == itemId))
  }

  /** A verified agenda action: the item it was verified on and what that item shows. */
  datatype Verified = Verified(
    profileId: Id, body: Body, itemId: Id, songId: Option<Id>, arrangementId: Option<Id>)
  {
    predicate Writes() { body.InsertItem? || body.ReplaceItem? }

    predicate Binds() { Writes() || (body.Noop? && body.alreadyOwned) }

    predicate Releases() { TidiesUp(body) }

    function Row(): Ownership
      requires Binds()
    {
      Ownership(profileId, itemId, body.sourceKey, body.placementId, songId, arrangementId)
    }
  }

  /** What one verified action does to the rows; None where binding is refused. */
  function Follow(rows: seq<Ownership>, v: Verified): Option<seq<Ownership>> {
    if v.Releases() then Some(Unbind(rows, v.profileId, v.body.itemId))
    else if v.Binds() then Bind(rows, v.Row())
    else Some(rows)
  }

  /** The table itself, updated in place by the workers. */
  class BindingTable {
    var rows: seq<Ownership>

    constructor ()
      ensures rows == []
    {
      rows := [];
    }

    method Update(v: Verified) returns (refused: bool)
      modifies this
      ensures refused <==> Follow(old(rows), v) == None
      ensures rows == if refused then old(rows) else Follow(old(rows), v).value
      ensures refused ==> exists i :: 0 <= i < |rows| && rows[i].agendaItemId == v.itemId && rows[i].profileId != v.profileId
      ensures !refused && (v.body.InsertItem? || v.body.ReplaceItem? || (v.body.Noop? && v.body.alreadyOwned)) ==>
                Ownership(v.profileId, v.itemId, v.body.sourceKey, v.body.placementId, v.songId, v.arrangementId) in rows
      ensures v.body.CleanupNoop? || v.body.DeleteOwnedItem? ==>
                forall o :: o in rows <==> o in old(rows) && !(o.profileId == v.profileId && o.agendaItemId == v.body.itemId)
      ensures v.body.Noop? && !v.body.alreadyOwned ==> rows == old(rows)
    {
      refused := false;
      if v.Releases() {
        forall o ensures o in Unbind(rows, v.profileId, v.body.itemId)
                         <==> o in rows && !(o.profileId == v.profileId && o.agendaItemId == v.body.itemId) {
          FilterMember(rows, (q: Ownership) => !(q.profileId == v.profileId && q.agendaItemId == v.body.itemId), o);
        }
        rows := Unbind(rows, v.profileId, v.body.itemId);
      } else if v.Binds() {
        var k := RowOf(rows, v.itemId);
        if k == |rows| {
          rows := rows + [v.Row()];
          assert rows[k] == v.Row();
        } else if rows[k].profileId != v.profileId {
          refused := true;
        } else {
          rows := rows[k := v.Row()];
          assert rows[k] == v.Row();
        }
      }
    }
  }

  // What the rows say, for every history of verified actions.

  /** The rows after a history; a refused action leaves them alone. */
  function Rows(history: seq<Verified>): seq<Ownership> {
    if history == [] then []
    else
      var before := Rows(history[..|history| - 1]);
      var after := Follow(before, history[|history| - 1]);
      if after.Some? then after.value else before
  }

  /** A NOOP claims to be owned already only if a row of the same profile was in the
      table at some earlier time: when its plan was made. */
  ghost predicate Founded(history: seq<Verified>) {
    forall n :: 0 <= n < |history| && history[n].body.Noop? && history[n].body.alreadyOwned ==>
      exists t: nat :: t <= n && HadRow(history, t, history[n].profileId, history[n].itemId)
  }

  ghost predicate HadRow(history: seq<Verified>, t: nat, profileId: Id, itemId: Id) {
    t <= |history| && exists o :: o in Rows(history[..t]) && o.profileId == profileId && o.agendaItemId == itemId
  }

  lemma FoundedPrefix(history: seq<Verified>, k: nat)
    requires k <= |history| && Founded(history)
    ensures Founded(history[..k])
  {
    var earlier := history[..k];
    forall n | 0 <= n < |earlier| && earlier[n].body.Noop? && earlier[n].body.alreadyOwned
      ensures exists t: nat :: t <= n && HadRow(earlier, t, earlier[n].profileId, earlier[n].itemId)
    {
      var t: nat :| t <= n && HadRow(history, t, history[n].profileId, history[n].itemId);
      assert earlier[..t] == history[..t];
      assert HadRow(earlier, t, earlier[n].profileId, earlier[n].itemId);
    }
  }

  lemma UnbindDistinct(rows: seq<Ownership>, profileId: Id, itemId: Id)
    requires DistinctOwners(rows)
    ensures DistinctOwners(Unbind(rows, profileId, itemId))
  {
    if rows != [] {
      UnbindDistinct(rows[1..], profileId, itemId);
      var keep := (o: Ownership) => !(o.profileId == profileId && o.agendaItemId == itemId);
      forall k | 0 <= k < |Unbind(rows[1..], profileId, itemId)|
        ensures Unbind(rows[1..], profileId, itemId)[k].agendaItemId != rows[0].agendaItemId
      {
        FilterMember(rows[1..], keep, Unbind(rows[1..], profileId, itemId)[k]);
      }
    }
  }

  /** An item never has two owners. */
  lemma {:induction false} OneOwnerEach(history: seq<Verified>)
    ensures DistinctOwners(Rows(history))
  {
    if history != [] {
      var earlier, v := history[..|history| - 1], history[|history| - 1];
      OneOwnerEach(earlier);
      if v.Releases() {
        UnbindDistinct(Rows(earlier), v.profileId, v.body.itemId);
      }
    }
  }

  /** The profile verified an INSERT or REPLACE on the item within `history`. */
  ghost predicate Wrote(history: seq<Verified>, profileId: Id, itemId: Id) {
    exists n :: 0 <= n < |history| && history[n].Writes() && history[n].profileId == profileId
                && history[n].itemId == itemId
  }

  lemma WroteStays(history: seq<Verified>, k: nat, profileId: Id, itemId: Id)
    requires k <= |history| && Wrote(history[..k], profileId, itemId)
    ensures Wrote(history, profileId, itemId)
  {
    var n :| 0 <= n < k && history[..k][n].Writes() && history[..k][n].profileId == profileId
             && history[..k][n].itemId == itemId;
    assert history[n].Writes();
  }

  /** Every row goes back to a write: the profile has earlier verified an INSERT or
      REPLACE on exactly that item. */
  lemma {:induction false} RowsComeFromWrites(history: seq<Verified>, o: Ownership)
    requires Founded(history) && o in Rows(history)
    ensures Wrote(history, o.profileId, o.agendaItemId)
    decreases |history|
  {
    var k := |history| - 1;
    var earlier, v := history[..k], history[k];
    FoundedPrefix(history, k);
    if o in Rows(earlier) {
      RowsComeFromWrites(earlier, o);
      WroteStays(history, k, o.profileId, o.agendaItemId);
    } else if v.Releases() {
      FilterMember(Rows(earlier), (q: Ownership) => !(q.profileId == v.profileId && q.agendaItemId == v.body.itemId), o);
    } else {
      assert o == v.Row();
      if v.Writes() {
        assert history[k].Writes();
      } else {
        assert history[k].body.Noop?;
        var t: nat :| t <= k && HadRow(history, t, v.profileId, v.itemId);
        var q :| q in Rows(history[..t]) && q.profileId == v.profileId && q.agendaItemId == v.itemId;
        FoundedPrefix(history, t);
        RowsComeFromWrites(history[..t], q);
        WroteStays(history, t, o.profileId, o.agendaItemId);
      }
    }
  }

  /** A row of one profile is never changed or removed by another profile's action. */
  lemma RowsAreNotStolen(rows: seq<Ownership>, v: Verified, o: Ownership)
    requires DistinctOwners(rows) && o in rows && v.profileId != o.profileId && Follow(rows, v).Some?
    ensures o in Follow(rows, v).value
  {
    if v.Releases() {
      FilterMember(rows, (q: Ownership) => !(q.profileId == v.profileId && q.agendaItemId == v.body.itemId), o);
    } else if v.Binds() {
      var k := RowOf(rows, v.itemId);
      var i :| 0 <= i < |rows| && rows[i] == o;
      assert Follow(rows, v).value[i] == o;
    }
  }
}
