/**
 * `SleepQualityViewModel`: records a quality for the latest night and raises
 * a one-shot flag. The body launched by `onSleepQualitySelection` is one
 * atomic method; the forced unwrap `tonight!!` on an empty table becomes the
 * explicit outcome `NullPointerException`.
 */
module SleepQuality {
  import opened Wrappers
  import opened SleepNights
  import opened SleepDatabase

  /** How a launched body ends: normally, or with the exception `!!` throws on null. */
  datatype Outcome = Completed | NullPointerException

  /**
   * The table after `updateSleep(quality)` found a latest night: that night
   * carries `quality`, with its id, start and end kept, and every other row
   * is untouched. Any integer is accepted.
   */
  function Rated(t: Table, quality: int): (r: Table)
    requires t.Valid() && t.nights != []
    ensures r.Valid() && r.nextId == t.nextId && |r.nights| == |t.nights|
    ensures var last := |t.nights| - 1;
      && r.nights[last] == t.nights[last].(sleepQuality := quality)
      && forall i :: 0 <= i < last ==> r.nights[i] == t.nights[i]
  {
    var latest := t.nights[|t.nights| - 1];
    UpdatedKeepsValid(t, latest.(sleepQuality := quality));
    Table(Updated(t.nights, latest.(sleepQuality := quality)), t.nextId)
  }

  /** A second selection overwrites the first: last write wins. */
  lemma RatedTwice(t: Table, first: int, second: int)
    requires t.Valid() && t.nights != []
    ensures Rated(Rated(t, first), second) == Rated(t, second)
  {
    var once, twice := Rated(t, second), Rated(Rated(t, first), second);
    assert twice.nights == once.nights by {
      forall i | 0 <= i < |t.nights| ensures twice.nights[i] == once.nights[i] {
      }
    }
  }

  class SleepQualityViewModel {
    const database: SleepDatabaseDao
    /** `_shoudNavigate`: one-shot signal to go back to the tracker. */
    var shouldNavigate: bool

    /** `init`: the flag starts lowered. */
    constructor (database: SleepDatabaseDao)
      ensures this.database == database && !shouldNavigate
    {
      this.database := database;
      shouldNavigate := false;
    }

    /** `updateSleep`, then raise the flag; the flag line is not reached when `updateSleep` throws. */
    method OnSleepQualitySelection(quality: int) returns (outcome: Outcome)
      requires database.Valid()
      modifies this, database
      ensures database.Valid()
      ensures outcome.NullPointerException? <==> old(database.table.nights) == []
      ensures outcome.NullPointerException? ==>
        database.table == old(database.table) && shouldNavigate == old(shouldNavigate)
      ensures outcome.Completed? ==>
        database.table == Rated(old(database.table), quality) && shouldNavigate
    {
      outcome := UpdateSleep(quality);
      if outcome.NullPointerException? {
        return;
      }
      shouldNavigate := true;
    }

    /** Read the latest night, overwrite its quality and store it back. */
    method UpdateSleep(quality: int) returns (outcome: Outcome)
      requires database.Valid()
      modifies database
      ensures database.Valid()
      ensures outcome.NullPointerException? <==> old(database.table.nights) == []
      ensures outcome.NullPointerException? ==> database.table == old(database.table)
      ensures outcome.Completed? ==> database.table == Rated(old(database.table), quality)
    {
      var tonight := database.GetTonight();
      if tonight.None? {
        return NullPointerException;
      }
      var rated := tonight.value.(sleepQuality := quality);
      database.Update(rated);
      outcome := Completed;
    }

    /** Lower the flag (the source spells the name this way); nothing else changes. */
    method NavigationComplted()
      modifies this`shouldNavigate
      ensures !shouldNavigate && database.table == old(database.table)
    {
      shouldNavigate := false;
    }
  }
}
