# Sleep tracker session model

A Dafny model of the two view-models of the "Track My Sleep Quality" Android app:

- `SleepTrackerViewModel` controls tonight's session. It keeps a cached nullable `tonight` and a one-shot `shouldNavigate` flag. It can start a night, stop it, clear all nights, and acknowledge navigation.
- `SleepQualityViewModel` records a quality rating for the latest night, then raises its own one-shot flag.

Both view-models talk to the same Room DAO. The DAO's source is not part of this model. It is replaced by an in-memory class `SleepDatabase.SleepDatabaseDao` over a value `Table(nights, nextId)`. Both view-models hold this object as a `const` field, so a scenario can drive the two screens against one shared store. The DAO is given these assumed meanings. They are the specification of the abstraction, not verified facts about Room:

- `insert` appends the night under a fresh id.
- Ids start at 1 and are never reused, even after `clear` (autoincrement keys).
- `update` replaces the row with the same id, and does nothing if there is none.
- `clear` deletes every row.
- `getTonight` returns the row with the greatest id. The lemma `LatestHasGreatestId` shows this is the last row inserted.

Each body that the source launches in a coroutine is one atomic method. The LiveData cells are plain fields. The clock `System.currentTimeMillis()` is the parameter `now`. `SleepNight()` is taken to be id 0 with start = end = `now` and quality -1 ("unrated"). That is `SleepNights.NewNight`, because the entity's source is not part of this model.

Points where the code is followed, not the intended design:

- `onStopTracking` does not clear `tonight`. It stamps the end time on the cached night, so `tonight` ends up holding a closed night.
- It also writes back the cached copy, not the stored row. If a rating was recorded in between, a second stop puts the cached quality (-1) back. `StopWritesCachedCopy` and the scenario `StopAgainAfterRating` show this.
- `navigationFinished` only lowers the flag. It does not clear the session.
- The quality recorder rates the latest night. It is not bound to a session id.
- On an empty table, the forced unwrap `tonight!!` throws. This is the outcome `NullPointerException`: the table is unchanged and the flag is not raised. The outcome stands for the throw itself. In the app the exception escapes the launched coroutine and crashes it, and what the coroutine scope does after that is not modelled: the model's recorder stays usable.
- There are no visibility flags, "cleared" notice or acknowledge-notice operation in this code, so the model has none.

## Model

| member | source | states |
|---|---|---|
| `SleepNights.NewNight` | app/src/main/java/com/example/android/trackmysleepquality/sleeptracker/SleepTrackerViewModel.kt:88 | a fresh night is open (end = start = `now`), has no id yet and is unrated |
| `SleepDatabase.Latest` | app/src/main/java/com/example/android/trackmysleepquality/sleeptracker/SleepTrackerViewModel.kt:76 | the DAO's latest night is none exactly when the table is empty, and is otherwise a stored row |
| `SleepDatabase.LatestHasGreatestId` | app/src/main/java/com/example/android/trackmysleepquality/sleepquality/SleepQualityViewModel.kt:58 | on a valid table the last row has the greatest id, and it is the only row with that id |
| `SleepDatabase.Inserted` | app/src/main/java/com/example/android/trackmysleepquality/sleeptracker/SleepTrackerViewModel.kt:95-99 | insert keeps every existing row, adds one row that becomes the latest and carries the next fresh id, and keeps the table valid |
| `SleepDatabase.Updated` | app/src/main/java/com/example/android/trackmysleepquality/sleeptracker/SleepTrackerViewModel.kt:110-114 | update keeps the length and replaces exactly the rows whose id matches the given night |
| `SleepDatabase.UpdatedKeepsValid` | app/src/main/java/com/example/android/trackmysleepquality/sleeptracker/SleepTrackerViewModel.kt:112 | an update never breaks the id invariant (positive, strictly increasing, below the counter) |
| `SleepDatabase.UpdatedTwice` | app/src/main/java/com/example/android/trackmysleepquality/sleepquality/SleepQualityViewModel.kt:60 | two updates of the same id leave what the second alone leaves |
| `SleepDatabase.Cleared` | app/src/main/java/com/example/android/trackmysleepquality/sleeptracker/SleepTrackerViewModel.kt:123-128 | clear leaves no rows, keeps the id counter, and keeps the table valid |
| `SleepDatabase.SleepDatabaseDao.Insert` | app/src/main/java/com/example/android/trackmysleepquality/sleeptracker/SleepTrackerViewModel.kt:97 | the DAO object's table becomes the inserted table |
| `SleepDatabase.SleepDatabaseDao.Update` | app/src/main/java/com/example/android/trackmysleepquality/sleeptracker/SleepTrackerViewModel.kt:112 | the DAO object's rows become the updated rows, with the counter unchanged |
| `SleepDatabase.SleepDatabaseDao.Clear` | app/src/main/java/com/example/android/trackmysleepquality/sleeptracker/SleepTrackerViewModel.kt:126 | the DAO object's table becomes the cleared table |
| `SleepDatabase.SleepDatabaseDao.GetTonight` | app/src/main/java/com/example/android/trackmysleepquality/sleepquality/SleepQualityViewModel.kt:58 | reading the latest night changes nothing and returns the latest row |
| `SleepTracker.TonightOf` | app/src/main/java/com/example/android/trackmysleepquality/sleeptracker/SleepTrackerViewModel.kt:76-82 | the tonight query is none on an empty table and none when the latest night's end differs from its start; otherwise it is that open night unchanged |
| `SleepTracker.ClearedHasNoTonight` | app/src/main/java/com/example/android/trackmysleepquality/sleeptracker/SleepTrackerViewModel.kt:116-121 | after a clear the tonight query yields none |
| `SleepTracker.StopClosesStoredNight` | app/src/main/java/com/example/android/trackmysleepquality/sleeptracker/SleepTrackerViewModel.kt:103-105 | stopping a cached night that equals its stored row changes only that row: its end becomes `now`, and its id, start and quality stay |
| `SleepTracker.StopWritesCachedCopy` | app/src/main/java/com/example/android/trackmysleepquality/sleeptracker/SleepTrackerViewModel.kt:103-105 | stopping overwrites the stored row with the cached copy (end stamped) whatever that row held, and other rows stay |
| `SleepTracker.SleepTrackerViewModel.constructor` | app/src/main/java/com/example/android/trackmysleepquality/sleeptracker/SleepTrackerViewModel.kt:61-64 | after construction the flag is down and `tonight` is the tonight query's result |
| `SleepTracker.SleepTrackerViewModel.InitializeTonight` | app/src/main/java/com/example/android/trackmysleepquality/sleeptracker/SleepTrackerViewModel.kt:66-70 | `tonight` becomes the tonight query's result, and nothing else changes |
| `SleepTracker.SleepTrackerViewModel.GetTonightFromDatabase` | app/src/main/java/com/example/android/trackmysleepquality/sleeptracker/SleepTrackerViewModel.kt:72-84 | the method returns exactly the tonight query of the current table and changes nothing |
| `SleepTracker.SleepTrackerViewModel.OnStartTracking` | app/src/main/java/com/example/android/trackmysleepquality/sleeptracker/SleepTrackerViewModel.kt:86-93 | exactly one open, unrated night with the next fresh id and start = end = `now` is appended; `tonight` becomes that night; the flag is unchanged |
| `SleepTracker.SleepTrackerViewModel.OnStopTracking` | app/src/main/java/com/example/android/trackmysleepquality/sleeptracker/SleepTrackerViewModel.kt:101-108 | without `tonight` nothing changes; otherwise `tonight` holds the closed night, the flag is up, the row with that id is overwritten by it, and, when the cache matched the stored row, only that row's end changes and the length is kept |
| `SleepTracker.SleepTrackerViewModel.OnClear` | app/src/main/java/com/example/android/trackmysleepquality/sleeptracker/SleepTrackerViewModel.kt:116-121 | the table is empty, the id counter is kept, `tonight` is none, and the flag is untouched |
| `SleepTracker.SleepTrackerViewModel.NavigationFinished` | app/src/main/java/com/example/android/trackmysleepquality/sleeptracker/SleepTrackerViewModel.kt:130-132 | the flag is down and nothing else changes, so a second call gives the same state |
| `SleepQuality.Rated` | app/src/main/java/com/example/android/trackmysleepquality/sleepquality/SleepQualityViewModel.kt:58-60 | the latest night gets the quality (any integer), its id, start and end stay, every other row and the counter stay, and the table stays valid |
| `SleepQuality.RatedTwice` | app/src/main/java/com/example/android/trackmysleepquality/sleepquality/SleepQualityViewModel.kt:59 | a second selection overwrites the first (last write wins) |
| `SleepQuality.SleepQualityViewModel.constructor` | app/src/main/java/com/example/android/trackmysleepquality/sleepquality/SleepQualityViewModel.kt:44-46 | after construction the flag is down |
| `SleepQuality.SleepQualityViewModel.OnSleepQualitySelection` | app/src/main/java/com/example/android/trackmysleepquality/sleepquality/SleepQualityViewModel.kt:49-54 | on an empty table the outcome is the null-pointer exception, and the table and flag are unchanged; otherwise the table is rated with the quality and the flag is up |
| `SleepQuality.SleepQualityViewModel.UpdateSleep` | app/src/main/java/com/example/android/trackmysleepquality/sleepquality/SleepQualityViewModel.kt:56-61 | the forced unwrap throws exactly on an empty table, leaving it unchanged; otherwise the latest night is rated |
| `SleepQuality.SleepQualityViewModel.NavigationComplted` | app/src/main/java/com/example/android/trackmysleepquality/sleepquality/SleepQualityViewModel.kt:64-66 | the flag is down and the table is unchanged, so the call is idempotent |
| `Scenarios.StartStopRate` | app/src/main/java/com/example/android/trackmysleepquality/sleeptracker/SleepTrackerViewModel.kt:86-108 | start at 100, stop at 200 and rate 4 store night {1, 100, 200, 4}; the tracker caches {1, 100, 200, unrated}; both flags are up |
| `Scenarios.StopAgainAfterRating` | app/src/main/java/com/example/android/trackmysleepquality/sleeptracker/SleepTrackerViewModel.kt:101-108 | stopping again after a rating restores the tracker's unrated copy with the new end time |
| `Scenarios.ClearThenStart` | app/src/main/java/com/example/android/trackmysleepquality/sleeptracker/SleepTrackerViewModel.kt:86-121 | a night started after a clear gets id 2, not a reused id 1, and becomes `tonight` |
| `Scenarios.RateEmptyDatabase` | app/src/main/java/com/example/android/trackmysleepquality/sleepquality/SleepQualityViewModel.kt:49-60 | rating with nothing stored throws, stores nothing and leaves the flag down |
| `Scenarios.ClearThenQuery` | app/src/main/java/com/example/android/trackmysleepquality/sleeptracker/SleepTrackerViewModel.kt:116-121 | from any state, a clear followed by the tonight query yields none |
| `Scenarios.NavigationFinishedTwice` | app/src/main/java/com/example/android/trackmysleepquality/sleeptracker/SleepTrackerViewModel.kt:130-132 | two calls of `navigationFinished` leave the same state as one |

## Left out

- Coroutine machinery (`Job`, `uiScope`, `launch`, `withContext(Dispatchers.IO)`) and the `onCleared` cancellation: concurrency and lifecycle plumbing. Each launched body is one atomic step, so interleavings and cancelled bodies are not modelled.
- LiveData observation: the published values are plain fields, and observers are not modelled.
- `nights`, `nightsString` and `formatNights` with `application.resources`: string formatting and localisation. The formatter is not part of this model.
- The Room DAO and the `SleepNight` entity: not part of this model. The in-memory table stands in for them, with the assumed behaviour listed above. SQL, persistence and storage failures are not modelled.
- `SleepDatabase.Inserted`: always assigns a fresh id and ignores the id it is given. This matches the source, which only ever inserts `SleepNight()` with id 0. Inserting an explicit id is not modelled.
- `System.currentTimeMillis`: a foreign call. The clock reading is the parameter `now`, and nothing is assumed about successive readings.
- The Android `Application` / `AndroidViewModel` wiring.
- Object identity of `SleepNight` instances: a night is a value. The source changes a `SleepNight` object in place twice. The first is `oldNight.endTimeMilli = …` in `onStopTracking`, written as storing the changed value back in `tonight`, the only other holder of that object. The second is `tonight!!.sleepQuality = quality` in `updateSleep`, written as a record update of a value only `updateSleep` holds.
- The DAO is assumed to return a fresh object on every read, so no object is shared between the DAO, the tracker's `tonight` and the quality screen. This is why a rating does not reach the tracker's cached `tonight`, and `StopAgainAfterRating` depends on it.
- Kotlin's `Long` and `Int` widths: ids, timestamps and qualities are unbounded integers. The core does no arithmetic on them, and the id counter cannot overflow in practice.
