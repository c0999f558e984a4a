# Course scheduling by genetic algorithm — a Dafny model

This project models the optimisation core of a small Python course scheduler
(`main.py`). The scheduler places a fixed list of activities on (room, time
slot, facilitator) triples and searches with a genetic algorithm. The model
covers two parts:

* **The fitness evaluator** (`Schedule.calculate_fitness`). A schedule's
  score is the sum of a per-item score. Each item's score adds up seven
  rules: room double-booking, room size, facilitator preference, facilitator
  load in the slot, facilitator total load, paired-section timing and
  consecutive-slot timing of the linked courses. Scores are exact integers
  in hundredths of a point (-0.5 is -50, +0.25 is +25). Every constant of
  the source is a whole number of hundredths.
* **The genetic operators** of `GeneticAlgorithm`: population
  initialisation, tournament selection, single-point crossover, mutation,
  and the step of the generation loop that breeds one child. Every random
  draw is a parameter. A `random.choice(xs)` draw is an index into `xs`, a
  `random.random()` draw is a real in [0, 1), a `random.sample` is a
  sequence of five distinct positions, and a `random.randint(1, n - 1)` draw
  is the cut. The errors the source's random helpers raise are modelled as
  `GaError` values:
  * `EmptyChoice`: `random.choice` on an empty list.
  * `EmptyRange`: `randint(1, n - 1)` with fewer than two activities.
  * `SampleLargerThanPopulation`: a sample of five from fewer than five.

Files:

* `wrappers.dfy`: `Option` and `Result`.
* `domain.dfy`: `Activity`, `Room`, `TimeSlot`, `ScheduleItem`, and the
  literal names the rules test for.
* `scoring.dfy`: the seven rules, the per-item score and `Fitness`.
* `scoring_facts.dfy`: what each rule contributes, and how the rules add up.
* `schedules.dfy`: a schedule with its fitness memo, and `get_fitness`.
* `genetic.dfy`: the operators and the population invariants.
* `dataset.dfy`: the program's fixed problem instance, as a concrete witness.

Points of faithfulness:

* "Another item" is value inequality of items, exactly as the dataclass `!=`
  computes it. No distinctness precondition is assumed.
  `Dataset.DistinctPositionsDistinctItems` shows that, on the program's
  instance, value inequality coincides with "another position".
* The per-slot grouping keys on the text `HH:MM` of a slot. That text is
  injective on (hour, minute), so grouping by it is modelled as `TimeSlot`
  equality.
* The linked-course names are `"SLA 101"` and `"SLA 191"`, and the special
  facilitator is `"Dr. Tyler"`, all as the scoring code spells them. The
  program's instance uses `"SLA100"`, `"SLA191"` and `"Tyler"` instead. The
  `Dataset` lemmas prove that on this instance rules 6 and 7 never fire and
  the special load rule never applies.
* As written, the special facilitator is penalised at a load of exactly
  three. A load of four costs nothing, and only a load above four costs
  -0.5. `ScoringFacts.TotalLoadTable` states this as it is.
* Python's slices clamp, and `Genetic.Take`/`Genetic.Drop` do the same, so
  crossover needs no length precondition.
* Mutation copies the items before changing them. In the model every value
  is immutable, so the input schedule is unchanged by construction.
* The constructor (main.py:142-155) validates nothing, and `evolve` does
  not guard its division at main.py:217-218. The model follows the code: in
  the operations modelled here, the only failures are those the random
  helpers raise.

## Model

| member | source | states |
|---|---|---|
| `ScoringFacts.FitnessByRule` | main.py:64-136 | The schedule's score is the sum of seven independent rule totals. No rule stops early or suppresses another. |
| `ScoringFacts.DoubleBooksSymmetric` | main.py:69-70 | Double-booking is a symmetric relation, and no item double-books itself. |
| `ScoringFacts.RoomConflictPenalty` | main.py:67-71 | Each item loses 0.5 per other item in its room and slot, so the schedule's room-conflict total is -1.0 per double-booked pair of positions. |
| `ScoringFacts.ConflictingPairPenalised` | main.py:67-71 | In a schedule of any size, each of two items sharing a room and a slot loses at least 0.5 from the other's presence. |
| `ScoringFacts.SingleConflictingPair` | main.py:67-71 | In the two-item schedule [a, b] of items sharing a room and a slot, each item gets -0.5, for -1.0 in total. |
| `ScoringFacts.SizeScoreBands` | main.py:73-81 | For a non-negative enrollment e, the room-size term is one of four disjoint capacity bands: below e gives -0.5, [e, 3e] gives +0.3, (3e, 6e] gives -0.2, above 6e gives -0.4. |
| `ScoringFacts.SizeScoreBoundaries` | main.py:73-81 | Capacity equal to the enrollment, or to 3× it, gives +0.3. Capacity of enrollment−1 gives -0.5. Capacity of 6×enrollment+1 gives -0.4. |
| `ScoringFacts.SizeScoreMonotone` | main.py:73-81 | Once the room holds the enrollment, a larger room never scores better, and the best is +0.3. |
| `ScoringFacts.PreferenceOrder` | main.py:83-89 | A preferred facilitator gets +0.5, even when also listed as acceptable. Otherwise an acceptable one gets +0.2, and anyone else -0.1. Preferred ≥ acceptable ≥ neither. |
| `ScoringFacts.SlotLoadRuleCharacterised` | main.py:91-97 | The in-slot count includes the item itself (≥ 1). The term is +0.2 exactly when no other position shares the slot and the facilitator, and -0.2 otherwise. |
| `ScoringFacts.LoadIsMultiplicity` | main.py:57-58 | A facilitator's total load equals its multiplicity in the schedule's facilitator column. |
| `ScoringFacts.LoadOfMember` | main.py:57-58 | Every item's facilitator has a load of at least one. |
| `ScoringFacts.TotalLoadTable` | main.py:99-105 | At most one branch applies. Load > 4 gives -0.5. An ordinary facilitator gets -0.4 below 3 and 0 at 3 or 4. "Dr. Tyler" gets -0.4 at exactly 3 and 0 below 3 or at 4. |
| `Scoring.FirstOtherSection` | main.py:110-112 | Finds the first position holding the same course name with a different section. If there is none, no position holds such an entry. |
| `ScoringFacts.PairedSectionWithoutPartner` | main.py:109-118 | With no other section of the course in the schedule, the paired-section rule adds 0. |
| `ScoringFacts.LinkedRulesInert` | main.py:108-134 | For an activity whose name is neither "SLA 101" nor "SLA 191", rules 6 and 7 add 0. |
| `ScoringFacts.ConsecutiveTermSymmetric` | main.py:124-134 | One linked item contributes to another what the other contributes to it. The values are +0.5, +0.1 (+0.5 less the 0.4 far-building charge), +0.25, -0.25 or 0. |
| `ScoringFacts.ConsecutiveWithoutPeers` | main.py:121-134 | With no other linked-course item in the schedule, the consecutive rule adds 0. |
| `ScoringFacts.UnlinkedSchedule` | main.py:108-134 | In a schedule without linked-course items, rules 6 and 7 total 0. |
| `ScoringFacts.ItemScoreCeiling` | main.py:64-136 | An item of an unlinked course scores at most +1.0. It scores exactly +1.0 iff it has no conflict, fits the room band, has a preferred facilitator who is alone in the slot, and carries a load with no penalty. |
| `ScoringFacts.FitnessCeiling` | main.py:51-138 | A schedule of unlinked courses scores at most 1.0 per item, and reaches that iff every item is ideal. |
| `Schedules.GetFitness` | main.py:46-49 | Returns the memo when there is one, otherwise computes the fitness and stores it as the memo. With a valid memo the answer is the fitness of the items, and the memo stays valid. |
| `Schedules.GetFitnessStable` | main.py:42-49 | A second read returns the first answer and changes nothing. A fresh schedule's memo is valid, so its read equals the fitness of its items. |
| `Genetic.InitItems` | main.py:160-167 | One item per activity, in activity order, each facet the drawn element of its domain. It fails exactly when there is an activity and some domain list is empty. |
| `Genetic.Initialize` | main.py:157-169 | The population has one fresh schedule per round, none when the size is not positive. Schedule p is the one built from draw p, in activity order with values from the domains. It fails exactly when a draw meets an empty domain. |
| `Genetic.ArgMax` | main.py:175 | Returns a maximum, and it is the first maximum, as Python's `max` picks it. |
| `Genetic.TournamentWinner` | main.py:174-175 | A reference definition of the tournament, scanning the sample one member at a time: the position it names holds a sampled member at least as fit as every sampled member and fitter than every earlier one. |
| `Genetic.WinnerUnique` | main.py:175 | A tournament has exactly one winning position, the first of highest fitness. |
| `Genetic.SelectParent` | main.py:171-175 | Fails iff the population has fewer than five members. Otherwise it returns the sampled member `TournamentWinner` names: one whose fitness is at least every sampled member's, with no earlier sampled member as fit. |
| `Genetic.Crossover` | main.py:177-182 | Fails iff there are fewer than two activities. Otherwise, for parents of the activity count n, the child has length n: positions before the cut come from parent 1 and the rest from parent 2. The child has an empty memo. |
| `Genetic.CrossoverKeepsInvariants` | main.py:177-182 | The child of two well-formed parents again holds activity i at position i, with every facet in its domain. |
| `Genetic.MutateItem` | main.py:186-194 | A gene that does not fire is unchanged. A firing gene takes the drawn value in the drawn facet and keeps its activity and its other two facets. It fails iff it fires on an empty domain. |
| `Genetic.MutateItems` | main.py:184-195 | Mutates gene i with draw i and keeps the length. It fails iff some firing gene's facet domain is empty. |
| `Genetic.Mutate` | main.py:184-195 | The result is a new schedule with an empty memo. |
| `Genetic.MutationShape` | main.py:184-195 | Same length and same activity at every position. Each item differs in at most one of room/slot/facilitator, any new value comes from its domain, and genes that do not fire are untouched. |
| `Genetic.MutationKeepsInvariants` | main.py:184-195 | Mutation keeps a schedule well-formed and within the domains. |
| `Genetic.MutationRateZero` | main.py:186-187 | At rate 0 no gene fires, and the result has exactly the input's items. |
| `Genetic.MutationRateOne` | main.py:186-194 | At rate 1 every gene fires. Each takes the drawn value in its drawn facet and changes nothing else. |
| `Genetic.Breed` | main.py:224-229 | The child is the mutation, by the given draws, of the crossover at the cut of the two tournament winners, and it keeps the population invariants. It fails exactly when the population is under five, there are fewer than two activities, or a firing gene meets an empty domain. |
| `Dataset.NoLinkedActivities` | main.py:244-278 | None of the instance's activity names is a linked-course name as the rules spell them. |
| `Dataset.NoSpecialFacilitator` | main.py:238-241 | No instance facilitator is "Dr. Tyler", so the ordinary total-load rule applies to all of them. |
| `Dataset.InstanceFitness` | main.py:236-303 | For every well-formed schedule of the instance, the fitness is the sum of rules 1 to 5 alone. |
| `Dataset.ActivitiesDistinct` | main.py:244-278 | The eleven activities are pairwise different values. |
| `Dataset.DistinctPositionsDistinctItems` | main.py:69-70 | In a well-formed schedule of the instance, items at different positions differ. So double-booking is exactly "same slot and same room at another position". |

## Left out

- `evolve` (the generation loop, averages and convergence test): floating-point averages, a division by the population size (main.py:209) and by an old average (main.py:217-218) that raise ZeroDivisionError on an empty population or a zero average, and a final `max` (main.py:233) that raises on an empty population. Only the breeding step of its loop is modelled, as `Genetic.Breed`.
- `softmax`: floating-point numpy code that nothing calls.
- Python's `random` module: draws are parameters, and no distribution or uniformity is modelled.
- Floating-point rounding of the running sum: scores are exact hundredths.
- The `GeneticAlgorithm` constructor only stores its arguments and calls `initialize_population`, which `Genetic.Initialize` models.
- `main` and the report printing: input/output only.
- Genetic.SelectParent: ranks the sampled members by what `get_fitness` returns, but leaves out the side effect of filling their memos. By `Schedules.GetFitnessStable`, filling a valid memo changes no later answer.
- Genetic.Breed: requires the population invariant (every member well-formed and within the domains), which `Genetic.Initialize` establishes and breeding keeps. It sizes the mutation draws to the activity list.
- ScoringFacts.SizeScoreBands: stated for non-negative enrollments only. For a negative enrollment the bands overlap and only the branch order, in `Scoring.SizeScore`, decides.
