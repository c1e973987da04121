/**
 * `SleepTrackerViewModel`: the controller of tonight's session. Each body the
 * source launches in its coroutine scope is one atomic method here, the
 * LiveData cells `_tonight` and `_shouldNavigate` are plain fields, and the
 * clock reading `System.currentTimeMillis()` is the parameter `now`.
 */
module SleepTracker {
  import opened Wrappers
  import opened SleepNights
  import opened SleepDatabase

  /**
   * What `getTonightFromDatabase` yields for a table: the latest night, kept
   * only while it is still open.
   */
  function TonightOf(t: Table): (r: Option<Night>)
    ensures r.Some? <==> t.nights != [] && t.nights[|t.nights| - 1].IsOpen()
    ensures r.Some? ==> r == Latest(t)
  {
    var night := Latest(t);
    if night.Some? && night.value.endTimeMilli != night.value.startTimeMilli then None else night
  }

  /** After a clear, there is no night to resume. */
  lemma ClearedHasNoTonight(t: Table)
    ensures TonightOf(Cleared(t)) == None
  {
  }

  /**
   * Stopping a night that is stored unchanged closes exactly that row: its id,
   * start and quality stay, its end becomes `now`, and no other row moves.
   */
  lemma StopClosesStoredNight(t: Table, k: nat, now: int)
    requires t.Valid() && k < |t.nights|
    ensures var r := Updated(t.nights, t.nights[k].(endTimeMilli := now));
      && |r| == |t.nights|
      && r[k].nightId == t.nights[k].nightId && r[k].startTimeMilli == t.nights[k].startTimeMilli
      && r[k].sleepQuality == t.nights[k].sleepQuality && r[k].endTimeMilli == now
      && forall i :: 0 <= i < |t.nights| && i != k ==> r[i] == t.nights[i]
  {
  }

  /**
   * Stopping writes back the cached night, not the stored row: whatever the
   * stored row with that id held (a rating given since, say) is replaced by
   * the cache with its end time stamped.
   */
  lemma StopWritesCachedCopy(t: Table, k: nat, cached: Night, now: int)
    requires t.Valid() && k < |t.nights| && cached.nightId == t.nights[k].nightId
    ensures var r := Updated(t.nights, cached.(endTimeMilli := now));
      && r[k] == cached.(endTimeMilli := now)
      && forall i :: 0 <= i < |t.nights| && i != k ==> r[i] == t.nights[i]
  {
  }

  class SleepTrackerViewModel {
    const database: SleepDatabaseDao
    /** `_tonight`: the open night being tracked, as last read or stamped. */
    var tonight: Option<Night>
    /** `_shouldNavigate`: one-shot signal to move on to the quality screen. */
    var shouldNavigate: bool

    ghost predicate Valid()
      reads this, database
    {
      database.Valid()
    }

    /** `init`: lower the flag, then `initializeTonight`. */
    constructor (database: SleepDatabaseDao)
      requires database.Valid()
      ensures Valid() && this.database == database
      ensures !shouldNavigate
      ensures tonight == TonightOf(database.table)
    {
      this.database := database;
      tonight := None;
      shouldNavigate := false;
      new;
      InitializeTonight();
    }

    method InitializeTonight()
      modifies this`tonight
      ensures tonight == TonightOf(database.table)
    {
      tonight := GetTonightFromDatabase();
    }

    /** The latest night, or none when there is none or it is already closed. */
    method GetTonightFromDatabase() returns (night: Option<Night>)
      ensures night == TonightOf(database.table)
    {
      night := database.GetTonight();
      // Kotlin compares `night?.endTimeMilli` with `night?.startTimeMilli`: both null when there is no night
      if night.Some? && night.value.endTimeMilli != night.value.startTimeMilli {
        night := None;
      }
    }

    /** Insert `SleepNight()` built at `now`, then re-read tonight. */
    method OnStartTracking(now: int)
      requires Valid()
      modifies this, database
      ensures Valid()
      ensures var started := Night(old(database.table.nextId), now, now, Unrated);
        && database.table == Table(old(database.table.nights) + [started], old(database.table.nextId) + 1)
        && tonight == Some(started)
      ensures shouldNavigate == old(shouldNavigate)
    {
      var newNight := NewNight(now);
      database.Insert(newNight);
      tonight := GetTonightFromDatabase();
    }

    /** Stamp the end time on tonight's night, store it, and raise the flag; nothing without a night. */
    method OnStopTracking(now: int)
      requires Valid()
      modifies this, database
      ensures Valid()
      ensures old(tonight).None? ==>
        && tonight == old(tonight) && shouldNavigate == old(shouldNavigate)
        && database.table == old(database.table)
      ensures old(tonight).Some? ==>
        var closed := old(tonight).value.(endTimeMilli := now);
        && tonight == Some(closed) && shouldNavigate
        && database.table == Table(Updated(old(database.table.nights), closed), old(database.table.nextId))
      ensures old(tonight).Some? && old(tonight).value in old(database.table.nights) ==>
        && |database.table.nights| == |old(database.table.nights)|
        && forall i :: 0 <= i < |old(database.table.nights)| ==>
          database.table.nights[i] ==
            if old(database.table.nights)[i] == old(tonight).value
            then old(database.table.nights)[i].(endTimeMilli := now)
            else old(database.table.nights)[i]
    {
      if tonight.None? {
        return;
      }
      var oldNight := tonight.value;
      // the source mutates the object `_tonight` holds, so the cache sees the new end time too
      oldNight := oldNight.(endTimeMilli := now);
      tonight := Some(oldNight);
      database.Update(oldNight);
      shouldNavigate := true;
    }

    /** Delete every night and forget tonight. */
    method OnClear()
      requires Valid()
      modifies this, database
      ensures Valid()
      ensures database.table.nights == [] && database.table.nextId == old(database.table.nextId)
      ensures tonight == None && shouldNavigate == old(shouldNavigate)
    {
      database.Clear();
      tonight := None;
    }

    /** Lower the navigation flag; nothing else changes, so a second call changes nothing. */
    method NavigationFinished()
      modifies this`shouldNavigate
      ensures !shouldNavigate
      ensures tonight == old(tonight) && database.table == old(database.table)
    {
      shouldNavigate := false;
    }
  }
}
