/**
 * The booking table as the views see it: its rows in query order, the next primary key
 * the database will hand out, and the slot constraint it enforces on every write.
 */
module Store {
  import opened Wrappers
  import opened Models

  predicate IdsDistinct(rows: seq<Booking>)
  {
    forall i, j :: 0 <= i < j < |rows| ==> rows[i].id != rows[j].id
  }

  class BookingTable {
    var rows: seq<Booking>
    var nextId: int

    ghost predicate Valid()
      reads this
    {
      && nextId >= 1
      && (forall i :: 0 <= i < |rows| ==> 1 <= rows[i].id < nextId)
      && IdsDistinct(rows)
      && ConfirmedSlotsUnique(rows)
    }

    constructor ()
      ensures Valid() && rows == [] && nextId == 1
    {
      rows, nextId := [], 1;
    }

    /**
     * `save()` of a new row: the row gets the next primary key, unless the slot
     * constraint refuses it (an IntegrityError), in which case nothing changes.
     */
    method Insert(b: Booking) returns (id: Option<int>)
      requires Valid()
      modifies this
      ensures Valid()
      ensures var row := b.(id := old(nextId));
        if ConfirmedSlotsUnique(old(rows) + [row])
        then id == Some(old(nextId)) && rows == old(rows) + [row] && nextId == old(nextId) + 1
        else id == None && rows == old(rows) && nextId == old(nextId)
    {
      var row := b.(id := nextId);
      if ConfirmedSlotsUnique(rows + [row]) {
        rows, id, nextId := rows + [row], Some(nextId), nextId + 1;
      } else {
        id := None;
      }
    }

    /** `save()` of the existing row at position `i`, under the same constraint. */
    method Save(i: nat, b: Booking) returns (ok: bool)
      requires Valid() && i < |rows| && b.id == rows[i].id
      modifies this
      ensures Valid() && nextId == old(nextId)
      ensures ok == ConfirmedSlotsUnique(old(rows)[i := b])
      ensures rows == if ok then old(rows)[i := b] else old(rows)
    {
      ok := ConfirmedSlotsUnique(rows[i := b]);
      if ok {
        rows := rows[i := b];
      }
    }

    /**
     * One `UPDATE` over existing rows (keys unchanged): applied as a whole, or refused as a
     * whole when its result breaks the slot constraint.
     */
    method Update(newRows: seq<Booking>) returns (ok: bool)
      requires Valid() && |newRows| == |rows|
      requires forall i :: 0 <= i < |rows| ==> newRows[i].id == rows[i].id
      modifies this
      ensures Valid() && nextId == old(nextId)
      ensures ok == ConfirmedSlotsUnique(newRows)
      ensures rows == if ok then newRows else old(rows)
    {
      ok := ConfirmedSlotsUnique(newRows);
      if ok {
        rows := newRows;
      }
    }
  }
}
