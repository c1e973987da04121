/**
 * Whole sessions driven through both view-models sharing one database, the
 * way the two screens share the DAO. Each is proved from the contracts alone.
 */
module Scenarios {
  import opened Wrappers
  import opened SleepNights
  import opened SleepDatabase
  import opened SleepTracker
  import opened SleepQuality

  /** Start at 100, stop at 200, rate 4: one stored night, rated, and both flags raised. */
  method StartStopRate() returns (stored: seq<Night>, tonight: Option<Night>, stopped: bool, rated: bool)
    ensures stored == [Night(1, 100, 200, 4)]
    ensures tonight == Some(Night(1, 100, 200, Unrated))
    ensures stopped && rated
  {
    var dao := new SleepDatabaseDao();
    var tracker := new SleepTrackerViewModel(dao);
    assert tracker.tonight == None;
    tracker.OnStartTracking(100);
    assert dao.table.nights == [Night(1, 100, 100, Unrated)];
    tracker.OnStopTracking(200);
    assert dao.table.nights == [Night(1, 100, 200, Unrated)];
    var recorder := new SleepQualityViewModel(dao);
    var outcome := recorder.OnSleepQualitySelection(4);
    assert dao.table.nights[0] == Night(1, 100, 200, 4);
    stored, tonight, stopped, rated := dao.table.nights, tracker.tonight, tracker.shouldNavigate, recorder.shouldNavigate;
  }

  /**
   * The tracker keeps its closed copy after stopping; stopping once more
   * stores that copy again, so the rating given in between is lost.
   */
  method StopAgainAfterRating() returns (stored: seq<Night>)
    ensures stored == [Night(1, 100, 300, Unrated)]
  {
    var dao := new SleepDatabaseDao();
    var tracker := new SleepTrackerViewModel(dao);
    tracker.OnStartTracking(100);
    tracker.OnStopTracking(200);
    var recorder := new SleepQualityViewModel(dao);
    var outcome := recorder.OnSleepQualitySelection(4);
    tracker.OnStopTracking(300);
    stored := dao.table.nights;
  }

  /** Both ids keep counting after a clear: ids are not reused. */
  method ClearThenStart() returns (stored: seq<Night>, tonight: Option<Night>)
    ensures stored == [Night(2, 50, 50, Unrated)] && tonight == Some(stored[0])
  {
    var dao := new SleepDatabaseDao();
    var tracker := new SleepTrackerViewModel(dao);
    tracker.OnStartTracking(10);
    tracker.OnClear();
    tracker.OnStartTracking(50);
    stored, tonight := dao.table.nights, tracker.tonight;
  }

  /** Rating with nothing stored throws before the flag is raised. */
  method RateEmptyDatabase(quality: int) returns (outcome: Outcome, stored: seq<Night>, rated: bool)
    ensures outcome == NullPointerException && stored == [] && !rated
  {
    var dao := new SleepDatabaseDao();
    var recorder := new SleepQualityViewModel(dao);
    outcome := recorder.OnSleepQualitySelection(quality);
    stored, rated := dao.table.nights, recorder.shouldNavigate;
  }

  /** A clear followed by a fresh tracker: there is no night to resume. */
  method ClearThenQuery(tracker: SleepTrackerViewModel) returns (night: Option<Night>)
    requires tracker.Valid()
    modifies tracker, tracker.database
    ensures night == None && tracker.tonight == None
  {
    tracker.OnClear();
    night := tracker.GetTonightFromDatabase();
  }

  /** Lowering the flag twice leaves the same state as lowering it once. */
  method NavigationFinishedTwice(tracker: SleepTrackerViewModel)
    modifies tracker`shouldNavigate
    ensures !tracker.shouldNavigate && tracker.tonight == old(tracker.tonight)
    ensures tracker.database.table == old(tracker.database.table)
  {
    tracker.NavigationFinished();
    ghost var once := (tracker.tonight, tracker.shouldNavigate, tracker.database.table);
    tracker.NavigationFinished();
    assert (tracker.tonight, tracker.shouldNavigate, tracker.database.table) == once;
  }
}
