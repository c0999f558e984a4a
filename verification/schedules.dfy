/**
 * A candidate solution: an ordered sequence of items together with the
 * fitness memo the source keeps beside them.
 */
module Schedules {
  import opened Wrappers
  import opened Domain
  import opened Scoring

  /** `cache` is the memoised fitness; a fresh schedule has none. */
  datatype Schedule = Schedule(items: seq<ScheduleItem>, cache: Option<int>)

  /** A new schedule over `items`, fitness not yet computed. */
  function NewSchedule(items: seq<ScheduleItem>): Schedule {
    Schedule(items, None)
  }

  /** The memo is absent or holds the fitness of the items. */
  predicate CacheValid(s: Schedule) {
    s.cache.None? || s.cache.value == Fitness(s.items)
  }

  /** Read the fitness, computing and memoising it on first use. Returns the
      value and the schedule with its memo filled. */
  function GetFitness(s: Schedule): (r: (int, Schedule))
    ensures r.1.items == s.items && r.1.cache == Some(r.0)
    ensures s.cache.Some? ==> r.0 == s.cache.value
    ensures CacheValid(s) ==> r.0 == Fitness(s.items) && CacheValid(r.1)
  {
    match s.cache
    case Some(v) => (v, s)
    case None =>
      var v := Fitness(s.items);
      (v, s.(cache := Some(v)))
  }

  /** What the source's `get_fitness` answers for `s`. */
  function FitnessValue(s: Schedule): int {
    GetFitness(s).0
  }

  /** Reading the fitness a second time returns the first answer and
      changes nothing; for a schedule with a valid memo (every fresh one)
      that answer is the fitness of its items. */
  lemma GetFitnessStable(s: Schedule)
    ensures GetFitness(GetFitness(s).1) == GetFitness(s)
    ensures CacheValid(NewSchedule(s.items))
    ensures CacheValid(s) ==> FitnessValue(s) == Fitness(s.items)
  {
  }
}
