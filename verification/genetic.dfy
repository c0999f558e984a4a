/**
 * The genetic-algorithm operators: initialisation, tournament selection,
 * single-point crossover and mutation, and one breeding step.
 *
 * Every random draw of the source is a parameter. A draw from
 * `random.choice(xs)` is an index into `xs`; when `xs` is empty the source
 * raises before drawing, which the model reports as `EmptyChoice`.
 */
module Genetic {
  import opened Wrappers
  import opened Domain
  import opened Schedules

  const TournamentSize: nat := 5

  /** The errors the source's random helpers raise. */
  datatype GaError =
    | EmptyChoice                 // random.choice on an empty list
    | EmptyRange                  // random.randint(1, n - 1) with n < 2
    | SampleLargerThanPopulation  // random.sample of 5 from fewer than 5

  // ---------------------------------------------------------------------
  // Invariants of a population member

  /** Position i holds activity i, and nothing else is there. */
  predicate WellFormed(items: seq<ScheduleItem>, activities: seq<Activity>) {
    |items| == |activities| && forall i :: 0 <= i < |items| ==> items[i].activity == activities[i]
  }

  /** Every room, slot and facilitator is drawn from its domain list. */
  predicate InDomains(items: seq<ScheduleItem>, rooms: seq<Room>, slots: seq<TimeSlot>, facilitators: seq<string>) {
    forall i :: 0 <= i < |items| ==>
      items[i].room in rooms && items[i].slot in slots && items[i].facilitator in facilitators
  }

  /** `k` is a value `random.choice(xs)` can draw, or `xs` is empty and the
      choice raises before drawing. */
  predicate Drawable<T>(k: nat, xs: seq<T>) {
    xs == [] || k < |xs|
  }

  // ---------------------------------------------------------------------
  // Initialisation

  /** The three choices made for one gene at initialisation. */
  datatype GeneDraw = GeneDraw(room: nat, slot: nat, facilitator: nat)

  predicate ValidGeneDraw(d: GeneDraw, rooms: seq<Room>, slots: seq<TimeSlot>, facilitators: seq<string>) {
    Drawable(d.room, rooms) && Drawable(d.slot, slots) && Drawable(d.facilitator, facilitators)
  }

  /** One random schedule: an item per activity, in order, each facet the
      drawn element of its domain. */
  function InitItems(activities: seq<Activity>, rooms: seq<Room>, slots: seq<TimeSlot>,
                     facilitators: seq<string>, draws: seq<GeneDraw>): (r: Result<seq<ScheduleItem>, GaError>)
    requires |draws| == |activities|
    requires forall i :: 0 <= i < |draws| ==> ValidGeneDraw(draws[i], rooms, slots, facilitators)
    ensures r.Failure? <==> activities != [] && (rooms == [] || slots == [] || facilitators == [])
    ensures r.Success? ==> |r.value| == |activities|
    ensures r.Success? ==> WellFormed(r.value, activities) && InDomains(r.value, rooms, slots, facilitators)
    ensures r.Success? ==> forall i :: 0 <= i < |r.value| ==>
      ValidGeneDraw(draws[i], rooms, slots, facilitators)
      && r.value[i].room == rooms[draws[i].room]
      && r.value[i].slot == slots[draws[i].slot]
      && r.value[i].facilitator == facilitators[draws[i].facilitator]
  {
    if activities == [] then Success([])
    else if rooms == [] || slots == [] || facilitators == [] then Failure(EmptyChoice)
    else
      var d := draws[0];
      assert ValidGeneDraw(d, rooms, slots, facilitators);
      var item := ScheduleItem(activities[0], rooms[d.room], slots[d.slot], facilitators[d.facilitator]);
      match InitItems(activities[1..], rooms, slots, facilitators, draws[1..])
      case Failure(e) => Failure(e)
      case Success(rest) => Success([item] + rest)
  }

  /** The initial population: `populationSize` random schedules (none when
      the size is not positive), each with an empty fitness memo. */
  method Initialize(activities: seq<Activity>, rooms: seq<Room>, slots: seq<TimeSlot>,
                    facilitators: seq<string>, populationSize: int, draws: seq<seq<GeneDraw>>)
    returns (r: Result<seq<Schedule>, GaError>)
    requires |draws| == if populationSize < 0 then 0 else populationSize
    requires forall p :: 0 <= p < |draws| ==> |draws[p]| == |activities|
    requires forall p, i :: 0 <= p < |draws| && 0 <= i < |draws[p]| ==>
      ValidGeneDraw(draws[p][i], rooms, slots, facilitators)
    ensures r.Failure? <==>
      populationSize > 0 && activities != [] && (rooms == [] || slots == [] || facilitators == [])
    ensures r.Success? ==> |r.value| == |draws|
    ensures r.Success? ==> forall p :: 0 <= p < |r.value| ==>
      r.value[p].cache == None
      && WellFormed(r.value[p].items, activities)
      && InDomains(r.value[p].items, rooms, slots, facilitators)
    ensures r.Success? ==> forall p :: 0 <= p < |r.value| ==>
      InitItems(activities, rooms, slots, facilitators, draws[p]) == Success(r.value[p].items)
  {
    var population: seq<Schedule> := [];
    var k := 0;
    while k < |draws|
      invariant 0 <= k <= |draws|
      invariant |population| == k
      invariant k > 0 ==> !(activities != [] && (rooms == [] || slots == [] || facilitators == []))
      invariant forall p :: 0 <= p < k ==>
        population[p].cache == None
        && WellFormed(population[p].items, activities)
        && InDomains(population[p].items, rooms, slots, facilitators)
      invariant forall p :: 0 <= p < k ==>
        InitItems(activities, rooms, slots, facilitators, draws[p]) == Success(population[p].items)
    {
      var items := InitItems(activities, rooms, slots, facilitators, draws[k]);
      if items.Failure? {
        return Failure(items.error);
      }
      population := population + [NewSchedule(items.value)];
      k := k + 1;
    }
    return Success(population);
  }

  // ---------------------------------------------------------------------
  // Tournament selection

  /** `sample` is what `random.sample` returns for a tournament: five
      distinct positions of a population of size `n`. */
  predicate IsSample(sample: seq<nat>, n: nat) {
    && |sample| == TournamentSize
    && (forall k :: 0 <= k < |sample| ==> sample[k] < n)
    && (forall j, k :: 0 <= j < k < |sample| ==> sample[j] != sample[k])
  }

  /** The position of the first maximum of `scores`, as Python's `max`
      picks it. */
  method ArgMax(scores: seq<int>) returns (k: nat)
    requires |scores| > 0
    ensures k < |scores|
    ensures forall t :: 0 <= t < |scores| ==> scores[t] <= scores[k]
    ensures forall t :: 0 <= t < k ==> scores[t] < scores[k]
  {
    k := 0;
    var t := 1;
    while t < |scores|
      invariant 1 <= t <= |scores|
      invariant k < t
      invariant forall u :: 0 <= u < t ==> scores[u] <= scores[k]
      invariant forall u :: 0 <= u < k ==> scores[u] < scores[k]
    {
      if scores[t] > scores[k] {
        k := t;
      }
      t := t + 1;
    }
  }

  /** Sample position `k` wins the tournament `sample`: its member is at
      least as fit as every sampled member and fitter than every earlier one. */
  predicate Winner(population: seq<Schedule>, sample: seq<nat>, k: int) {
    && 0 <= k < |sample|
    && (forall t :: 0 <= t < |sample| ==> sample[t] < |population|)
    && (forall t :: 0 <= t < |sample| ==>
          FitnessValue(population[sample[t]]) <= FitnessValue(population[sample[k]]))
    && (forall t :: 0 <= t < k ==>
          FitnessValue(population[sample[t]]) < FitnessValue(population[sample[k]]))
  }

  /** The first winner among the first `n` sampled members: a reference
      definition of the tournament, one member at a time. */
  function FirstWinner(population: seq<Schedule>, sample: seq<nat>, n: nat): (k: nat)
    requires 0 < n <= |sample|
    requires forall t :: 0 <= t < |sample| ==> sample[t] < |population|
    ensures k < n
    ensures forall t :: 0 <= t < n ==>
      FitnessValue(population[sample[t]]) <= FitnessValue(population[sample[k]])
    ensures forall t :: 0 <= t < k ==>
      FitnessValue(population[sample[t]]) < FitnessValue(population[sample[k]])
    decreases n
  {
    if n == 1 then 0
    else
      var k := FirstWinner(population, sample, n - 1);
      if FitnessValue(population[sample[n - 1]]) > FitnessValue(population[sample[k]]) then n - 1 else k
  }

  /** The winning sample position of the tournament `sample`. */
  function TournamentWinner(population: seq<Schedule>, sample: seq<nat>): (k: nat)
    requires |sample| > 0
    requires forall t :: 0 <= t < |sample| ==> sample[t] < |population|
    ensures Winner(population, sample, k)
  {
    FirstWinner(population, sample, |sample|)
  }

  /** A tournament has exactly one winner. */
  lemma WinnerUnique(population: seq<Schedule>, sample: seq<nat>, k1: int, k2: int)
    requires Winner(population, sample, k1) && Winner(population, sample, k2)
    ensures k1 == k2
  {
    // Each winner is at least as fit as the other, so neither precedes the other.
    assert FitnessValue(population[sample[k2]]) <= FitnessValue(population[sample[k1]]);
    assert FitnessValue(population[sample[k1]]) <= FitnessValue(population[sample[k2]]);
  }

  /** Tournament selection: among the sampled members, the first one of
      highest fitness. */
  method SelectParent(population: seq<Schedule>, sample: seq<nat>) returns (r: Result<Schedule, GaError>)
    requires |population| < TournamentSize || IsSample(sample, |population|)
    ensures r.Failure? <==> |population| < TournamentSize
    ensures r.Success? ==> forall t :: 0 <= t < |sample| ==>
      FitnessValue(population[sample[t]]) <= FitnessValue(r.value)
    ensures r.Success? ==>
      exists k :: 0 <= k < |sample| && population[sample[k]] == r.value
        && forall t :: 0 <= t < k ==> FitnessValue(population[sample[t]]) < FitnessValue(r.value)
    ensures r.Success? ==>
      IsSample(sample, |population|)
      && r.value == population[sample[TournamentWinner(population, sample)]]
  {
    if |population| < TournamentSize {
      return Failure(SampleLargerThanPopulation);
    }
    var scores := seq(|sample|, t requires 0 <= t < |sample| => FitnessValue(population[sample[t]]));
    var k := ArgMax(scores);
    r := Success(population[sample[k]]);
    assert forall t :: 0 <= t < |sample| ==> scores[t] == FitnessValue(population[sample[t]]);
    WinnerUnique(population, sample, k, TournamentWinner(population, sample));
  }

  // ---------------------------------------------------------------------
  // Single-point crossover

  /** Python's `xs[:n]` for n >= 0. */
  function Take<T>(xs: seq<T>, n: nat): seq<T> {
    if n <= |xs| then xs[..n] else xs
  }

  /** Python's `xs[n:]` for n >= 0. */
  function Drop<T>(xs: seq<T>, n: nat): seq<T> {
    if n <= |xs| then xs[n..] else []
  }

  /** The child of `parent1` and `parent2` cut at `cut`, a draw of
      `random.randint(1, |activities| - 1)`; with fewer than two activities
      that range is empty and the source raises. */
  function Crossover(parent1: Schedule, parent2: Schedule, activities: seq<Activity>, cut: int)
    : (r: Result<Schedule, GaError>)
    requires |activities| < 2 || 1 <= cut <= |activities| - 1
    ensures r.Failure? <==> |activities| < 2
    ensures r.Success? ==> r.value.cache == None
    ensures r.Success? && |parent1.items| == |activities| && |parent2.items| == |activities| ==>
      && |r.value.items| == |activities|
      && (forall i :: 0 <= i < cut ==> r.value.items[i] == parent1.items[i])
      && (forall i :: cut <= i < |activities| ==> r.value.items[i] == parent2.items[i])
  {
    if |activities| < 2 then Failure(EmptyRange)
    else Success(NewSchedule(Take(parent1.items, cut) + Drop(parent2.items, cut)))
  }

  /** Crossover keeps position i holding activity i and keeps every facet
      inside its domain. */
  lemma CrossoverKeepsInvariants(parent1: Schedule, parent2: Schedule, activities: seq<Activity>, cut: int,
                                 rooms: seq<Room>, slots: seq<TimeSlot>, facilitators: seq<string>)
    requires |activities| < 2 || 1 <= cut <= |activities| - 1
    requires WellFormed(parent1.items, activities) && WellFormed(parent2.items, activities)
    requires InDomains(parent1.items, rooms, slots, facilitators)
    requires InDomains(parent2.items, rooms, slots, facilitators)
    ensures Crossover(parent1, parent2, activities, cut).Success? ==>
      WellFormed(Crossover(parent1, parent2, activities, cut).value.items, activities)
      && InDomains(Crossover(parent1, parent2, activities, cut).value.items, rooms, slots, facilitators)
  {
  }

  // ---------------------------------------------------------------------
  // Mutation

  datatype Facet = RoomFacet | TimeFacet | FacilitatorFacet

  /** The draws for one gene: `chance` from `random.random()`, then, only if
      the gene mutates, the facet and an index into that facet's domain. */
  datatype MutationDraw = MutationDraw(chance: real, facet: Facet, index: nat)

  predicate ValidMutationDraw(d: MutationDraw, rooms: seq<Room>, slots: seq<TimeSlot>, facilitators: seq<string>) {
    && 0.0 <= d.chance < 1.0
    && match d.facet
       case RoomFacet => Drawable(d.index, rooms)
       case TimeFacet => Drawable(d.index, slots)
       case FacilitatorFacet => Drawable(d.index, facilitators)
  }

  /** The gene mutates. */
  predicate Fires(d: MutationDraw, rate: real) {
    d.chance < rate
  }

  predicate FacetDomainEmpty(f: Facet, rooms: seq<Room>, slots: seq<TimeSlot>, facilitators: seq<string>) {
    match f
    case RoomFacet => rooms == []
    case TimeFacet => slots == []
    case FacilitatorFacet => facilitators == []
  }

  /** How many of room, slot and facilitator differ between two items. */
  function FacetsChanged(a: ScheduleItem, b: ScheduleItem): nat {
    (if a.room != b.room then 1 else 0)
    + (if a.slot != b.slot then 1 else 0)
    + (if a.facilitator != b.facilitator then 1 else 0)
  }

  /** `after` holds, in the facet `d` selects, the element `d` draws. */
  predicate Assigned(after: ScheduleItem, d: MutationDraw, rooms: seq<Room>, slots: seq<TimeSlot>, facilitators: seq<string>) {
    match d.facet
    case RoomFacet => d.index < |rooms| && after.room == rooms[d.index]
    case TimeFacet => d.index < |slots| && after.slot == slots[d.index]
    case FacilitatorFacet => d.index < |facilitators| && after.facilitator == facilitators[d.index]
  }

  /** `item` with the facet `d` selects replaced by the element `d` draws,
      the other two facets kept. */
  function Reassigned(item: ScheduleItem, d: MutationDraw,
                      rooms: seq<Room>, slots: seq<TimeSlot>, facilitators: seq<string>): ScheduleItem
    requires ValidMutationDraw(d, rooms, slots, facilitators)
    requires !FacetDomainEmpty(d.facet, rooms, slots, facilitators)
  {
    match d.facet
    case RoomFacet => item.(room := rooms[d.index])
    case TimeFacet => item.(slot := slots[d.index])
    case FacilitatorFacet => item.(facilitator := facilitators[d.index])
  }

  /** Mutation of one gene. */
  function MutateItem(item: ScheduleItem, d: MutationDraw, rate: real,
                      rooms: seq<Room>, slots: seq<TimeSlot>, facilitators: seq<string>)
    : (r: Result<ScheduleItem, GaError>)
    requires ValidMutationDraw(d, rooms, slots, facilitators)
    ensures r.Failure? <==> Fires(d, rate) && FacetDomainEmpty(d.facet, rooms, slots, facilitators)
    ensures !Fires(d, rate) ==> r == Success(item)
    ensures r.Success? ==> r.value.activity == item.activity && FacetsChanged(item, r.value) <= 1
    ensures r.Success? ==>
      && (r.value.room == item.room || r.value.room in rooms)
      && (r.value.slot == item.slot || r.value.slot in slots)
      && (r.value.facilitator == item.facilitator || r.value.facilitator in facilitators)
    ensures r.Success? && Fires(d, rate) ==> Assigned(r.value, d, rooms, slots, facilitators)
    ensures r.Success? && Fires(d, rate) ==>
      !FacetDomainEmpty(d.facet, rooms, slots, facilitators)
      && r.value == Reassigned(item, d, rooms, slots, facilitators)
  {
    if !Fires(d, rate) then Success(item)
    else match d.facet
      case RoomFacet =>
        if rooms == [] then Failure(EmptyChoice) else Success(item.(room := rooms[d.index]))
      case TimeFacet =>
        if slots == [] then Failure(EmptyChoice) else Success(item.(slot := slots[d.index]))
      case FacilitatorFacet =>
        if facilitators == [] then Failure(EmptyChoice)
        else Success(item.(facilitator := facilitators[d.index]))
  }

  /** Mutation of every gene of a copy of the items, gene i with draw i;
      the first gene whose draw hits an empty domain raises. */
  function MutateItems(items: seq<ScheduleItem>, draws: seq<MutationDraw>, rate: real,
                       rooms: seq<Room>, slots: seq<TimeSlot>, facilitators: seq<string>)
    : (r: Result<seq<ScheduleItem>, GaError>)
    requires |draws| == |items|
    requires forall i :: 0 <= i < |draws| ==> ValidMutationDraw(draws[i], rooms, slots, facilitators)
    ensures r.Failure? <==> exists i :: 0 <= i < |draws| && Fires(draws[i], rate)
                              && FacetDomainEmpty(draws[i].facet, rooms, slots, facilitators)
    ensures r.Success? ==> |r.value| == |items|
    ensures r.Success? ==> forall i :: 0 <= i < |items| ==>
      MutateItem(items[i], draws[i], rate, rooms, slots, facilitators) == Success(r.value[i])
  {
    if items == [] then Success([])
    else match MutateItem(items[0], draws[0], rate, rooms, slots, facilitators)
      case Failure(e) => Failure(e)
      case Success(first) =>
        match MutateItems(items[1..], draws[1..], rate, rooms, slots, facilitators)
        case Failure(e) => Failure(e)
        case Success(rest) => Success([first] + rest)
  }

  /** The source's `mutate`: a new schedule, with an empty memo, over the
      mutated copy of the items; the input schedule is left as it was. */
  function Mutate(s: Schedule, draws: seq<MutationDraw>, rate: real,
                  rooms: seq<Room>, slots: seq<TimeSlot>, facilitators: seq<string>)
    : (r: Result<Schedule, GaError>)
    requires |draws| == |s.items|
    requires forall i :: 0 <= i < |draws| ==> ValidMutationDraw(draws[i], rooms, slots, facilitators)
    ensures r.Success? ==> r.value.cache == None
  {
    match MutateItems(s.items, draws, rate, rooms, slots, facilitators)
    case Failure(e) => Failure(e)
    case Success(items) => Success(NewSchedule(items))
  }

  /** Per gene: same activity, at most one facet changed, every new value
      drawn from its domain, and genes whose draw does not fire untouched. */
  lemma MutationShape(s: Schedule, draws: seq<MutationDraw>, rate: real,
                      rooms: seq<Room>, slots: seq<TimeSlot>, facilitators: seq<string>)
    requires |draws| == |s.items|
    requires forall i :: 0 <= i < |draws| ==> ValidMutationDraw(draws[i], rooms, slots, facilitators)
    ensures var r := Mutate(s, draws, rate, rooms, slots, facilitators);
      r.Success? ==>
        && |r.value.items| == |s.items|
        && forall i :: 0 <= i < |s.items| ==>
          && r.value.items[i].activity == s.items[i].activity
          && FacetsChanged(s.items[i], r.value.items[i]) <= 1
          && (r.value.items[i].room == s.items[i].room || r.value.items[i].room in rooms)
          && (r.value.items[i].slot == s.items[i].slot || r.value.items[i].slot in slots)
          && (r.value.items[i].facilitator == s.items[i].facilitator
              || r.value.items[i].facilitator in facilitators)
          && (!Fires(draws[i], rate) ==> r.value.items[i] == s.items[i])
  {
  }

  /** Mutation keeps position i holding activity i and keeps every facet
      inside its domain. */
  lemma MutationKeepsInvariants(s: Schedule, draws: seq<MutationDraw>, rate: real, activities: seq<Activity>,
                                rooms: seq<Room>, slots: seq<TimeSlot>, facilitators: seq<string>)
    requires |draws| == |s.items|
    requires forall i :: 0 <= i < |draws| ==> ValidMutationDraw(draws[i], rooms, slots, facilitators)
    requires WellFormed(s.items, activities) && InDomains(s.items, rooms, slots, facilitators)
    ensures var r := Mutate(s, draws, rate, rooms, slots, facilitators);
      r.Success? ==> WellFormed(r.value.items, activities) && InDomains(r.value.items, rooms, slots, facilitators)
  {
  }

  /** With mutation rate 0 nothing changes. */
  lemma MutationRateZero(s: Schedule, draws: seq<MutationDraw>,
                         rooms: seq<Room>, slots: seq<TimeSlot>, facilitators: seq<string>)
    requires |draws| == |s.items|
    requires forall i :: 0 <= i < |draws| ==> ValidMutationDraw(draws[i], rooms, slots, facilitators)
    ensures Mutate(s, draws, 0.0, rooms, slots, facilitators) == Success(NewSchedule(s.items))
  {
    var r := MutateItems(s.items, draws, 0.0, rooms, slots, facilitators);
    assert r.Success?;
    assert r.value == s.items by {
      forall i | 0 <= i < |s.items|
        ensures r.value[i] == s.items[i]
      {
        assert MutateItem(s.items[i], draws[i], 0.0, rooms, slots, facilitators) == Success(r.value[i]);
      }
    }
  }

  /** With mutation rate 1 every gene mutates: each takes the drawn value in
      the drawn facet and keeps the other two facets. */
  lemma MutationRateOne(s: Schedule, draws: seq<MutationDraw>,
                        rooms: seq<Room>, slots: seq<TimeSlot>, facilitators: seq<string>)
    requires |draws| == |s.items|
    requires forall i :: 0 <= i < |draws| ==> ValidMutationDraw(draws[i], rooms, slots, facilitators)
    ensures var r := Mutate(s, draws, 1.0, rooms, slots, facilitators);
      r.Success? ==> forall i :: 0 <= i < |s.items| ==>
        && Assigned(r.value.items[i], draws[i], rooms, slots, facilitators)
        && FacetsChanged(s.items[i], r.value.items[i]) <= 1
        && !FacetDomainEmpty(draws[i].facet, rooms, slots, facilitators)
        && r.value.items[i] == Reassigned(s.items[i], draws[i], rooms, slots, facilitators)
  {
  }

  // ---------------------------------------------------------------------
  // One breeding step of a generation

  /** Two tournaments, a crossover and a mutation: one child of the next
      generation. */
  method Breed(population: seq<Schedule>, activities: seq<Activity>, rooms: seq<Room>, slots: seq<TimeSlot>,
               facilitators: seq<string>, rate: real, sample1: seq<nat>, sample2: seq<nat>, cut: int,
               draws: seq<MutationDraw>)
    returns (r: Result<Schedule, GaError>)
    requires |population| < TournamentSize || (IsSample(sample1, |population|) && IsSample(sample2, |population|))
    requires |activities| < 2 || 1 <= cut <= |activities| - 1
    requires forall p :: 0 <= p < |population| ==>
      WellFormed(population[p].items, activities) && InDomains(population[p].items, rooms, slots, facilitators)
    requires |draws| == |activities|
    requires forall i :: 0 <= i < |draws| ==> ValidMutationDraw(draws[i], rooms, slots, facilitators)
    ensures r.Failure? <==>
      || |population| < TournamentSize
      || |activities| < 2
      || exists i :: 0 <= i < |draws| && Fires(draws[i], rate)
           && FacetDomainEmpty(draws[i].facet, rooms, slots, facilitators)
    ensures r.Success? ==>
      r.value.cache == None
      && WellFormed(r.value.items, activities)
      && InDomains(r.value.items, rooms, slots, facilitators)
    ensures r.Success? ==>
      && IsSample(sample1, |population|)
      && IsSample(sample2, |population|)
      && var child := Crossover(population[sample1[TournamentWinner(population, sample1)]],
                                population[sample2[TournamentWinner(population, sample2)]], activities, cut);
         && child.Success?
         && |child.value.items| == |draws|
         && r == Mutate(child.value, draws, rate, rooms, slots, facilitators)
  {
    // Both tournaments raise under the same condition, so the first one decides.
    var parent1 := SelectParent(population, sample1);
    if parent1.Failure? {
      return Failure(parent1.error);
    }
    var parent2 := SelectParent(population, sample2);
    var child := Crossover(parent1.value, parent2.value, activities, cut);
    if child.Failure? {
      return Failure(child.error);
    }
    CrossoverKeepsInvariants(parent1.value, parent2.value, activities, cut, rooms, slots, facilitators);
    MutationKeepsInvariants(child.value, draws, rate, activities, rooms, slots, facilitators);
    r := Mutate(child.value, draws, rate, rooms, slots, facilitators);
  }
}
