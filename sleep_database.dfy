/**
 * An in-memory stand-in for the Room DAO `SleepDatabaseDao`, whose source is
 * not part of this model. The functions below are the assumed meaning of the
 * four DAO calls the view-models make:
 *   insert    appends the night under a fresh id (ids are never reused, not even after clear);
 *   update    replaces the row whose id matches, and does nothing when none does;
 *   clear     deletes every row;
 *   getTonight returns the row with the greatest id, or null on an empty table.
 */
module SleepDatabase {
  import opened Wrappers
  import opened SleepNights

  /** The rows in insertion order, and the id the next insert receives. */
  datatype Table = Table(nights: seq<Night>, nextId: int)
  {
    /** Ids are positive, strictly increase with position and stay below `nextId`. */
    predicate Valid()
    {
      && 1 <= nextId
      && (forall i :: 0 <= i < |nights| ==> 1 <= nights[i].nightId < nextId)
      && (forall i, j :: 0 <= i < j < |nights| ==> nights[i].nightId < nights[j].nightId)
    }
  }

  /** A freshly created database: no rows, first id 1. */
  const EmptyTable: Table := Table([], 1)

  /** The last row inserted, or none. */
  function Latest(t: Table): (r: Option<Night>)
    ensures r.None? <==> t.nights == []
    ensures r.Some? ==> r.value in t.nights
  {
    if t.nights == [] then None else Some(t.nights[|t.nights| - 1])
  }

  /** The last row inserted is the one with the greatest id, which is what `getTonight` asks for. */
  lemma LatestHasGreatestId(t: Table, k: nat)
    requires t.Valid() && k < |t.nights|
    ensures Latest(t).Some? && t.nights[k].nightId <= Latest(t).value.nightId
    ensures t.nights[k].nightId == Latest(t).value.nightId ==> t.nights[k] == Latest(t).value
  {
  }

  /** `insert`: the night is stored last, under the next fresh id. */
  function Inserted(t: Table, night: Night): (r: Table)
    ensures |r.nights| == |t.nights| + 1 && r.nights[..|t.nights|] == t.nights
    ensures Latest(r) == Some(night.(nightId := t.nextId))
    ensures t.Valid() ==> r.Valid() && r.nextId > t.nextId
  {
    Table(t.nights + [night.(nightId := t.nextId)], t.nextId + 1)
  }

  /** The rows after an `update` with `night`: every row with its id is replaced by it. */
  function Updated(nights: seq<Night>, night: Night): (r: seq<Night>)
    ensures |r| == |nights|
    ensures forall i :: 0 <= i < |nights| ==>
      r[i] == (if nights[i].nightId == night.nightId then night else nights[i])
  {
    if nights == [] then []
    else [if nights[0].nightId == night.nightId then night else nights[0]] + Updated(nights[1..], night)
  }

  /** An update never changes an id, so it keeps the table valid. */
  lemma UpdatedKeepsValid(t: Table, night: Night)
    requires t.Valid()
    ensures Table(Updated(t.nights, night), t.nextId).Valid()
  {
  }

  /** Two updates of the same row: the second one wins. */
  lemma UpdatedTwice(nights: seq<Night>, first: Night, second: Night)
    requires first.nightId == second.nightId
    ensures Updated(Updated(nights, first), second) == Updated(nights, second)
  {
  }

  /** `clear`: no rows are left, and the id counter is kept. */
  function Cleared(t: Table): (r: Table)
    ensures r.nights == [] && r.nextId == t.nextId
    ensures t.Valid() ==> r.Valid()
  {
    Table([], t.nextId)
  }

  /** The DAO as an object: both view-models hold the same one. */
  class SleepDatabaseDao {
    var table: Table

    ghost predicate Valid()
      reads this
    {
      table.Valid()
    }

    constructor ()
      ensures Valid() && table == EmptyTable
    {
      table := EmptyTable;
    }

    method Insert(night: Night)
      requires Valid()
      modifies this
      ensures Valid() && table == Inserted(old(table), night)
    {
      table := Inserted(table, night);
    }

    method Update(night: Night)
      requires Valid()
      modifies this
      ensures Valid() && table == Table(Updated(old(table).nights, night), old(table).nextId)
    {
      UpdatedKeepsValid(table, night);
      table := Table(Updated(table.nights, night), table.nextId);
    }

    method Clear()
      requires Valid()
      modifies this
      ensures Valid() && table == Cleared(old(table))
    {
      table := Cleared(table);
    }

    method GetTonight() returns (night: Option<Night>)
      ensures night == Latest(table)
    {
      night := Latest(table);
    }
  }
}
