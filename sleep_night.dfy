/** Optional values: the model of Kotlin's nullable types (`SleepNight?`). */
module Wrappers {
  datatype Option<+T> = None | Some(value: T)
}

/**
 * One row of the sleep table, as the `SleepNight` entity holds it.
 * The entity's source file is not part of this model; its defaults are
 * taken to be: id 0 until the database assigns one, start time = the
 * clock at construction, end time = start time, quality -1 (not rated).
 * Kotlin `Long` timestamps and ids and the `Int` quality are unbounded
 * integers here: nothing in the core does arithmetic on them.
 */
module SleepNights {
  /** The quality of a night nobody has rated yet. */
  const Unrated: int := -1

  datatype Night = Night(nightId: int, startTimeMilli: int, endTimeMilli: int, sleepQuality: int)
  {
    /** A night is still being tracked while its end time equals its start time. */
    predicate IsOpen() { endTimeMilli == startTimeMilli }
  }

  /** `SleepNight()` built when the clock reads `now`. */
  function NewNight(now: int): (n: Night)
    ensures n.IsOpen() && n.startTimeMilli == now
    ensures n.sleepQuality == Unrated && n.nightId == 0
  {
    Night(0, now, now, Unrated)
  }
}
