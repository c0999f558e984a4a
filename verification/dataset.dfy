/**
 * The fixed problem instance the program is run on, kept as a concrete
 * witness. The linked-course names and the special facilitator the scoring
 * rules test for are spelled differently from the names used here, so on
 * this instance rules 6 and 7 never fire and the special load rule never
 * applies.
 */
module Dataset {
  import opened Wrappers
  import opened Domain
  import opened Scoring
  import opened ScoringFacts
  import opened Genetic

  const Facilitators: seq<string> :=
    ["Lock", "Glen", "Banks", "Richards", "Shaw", "Singer", "Uther", "Tyler", "Numen", "Zeldin"]

  const Activities: seq<Activity> := [
    Activity("SLA100", 50, {"Glen", "Lock", "Banks", "Zeldin"}, {"Numen", "Richards"}, Some("A")),
    Activity("SLA100", 50, {"Glen", "Lock", "Banks", "Zeldin"}, {"Numen", "Richards"}, Some("B")),
    Activity("SLA191", 50, {"Glen", "Lock", "Banks", "Zeldin"}, {"Numen", "Richards"}, Some("A")),
    Activity("SLA191", 50, {"Glen", "Lock", "Banks", "Zeldin"}, {"Numen", "Richards"}, Some("B")),
    Activity("SLA201", 50, {"Glen", "Banks", "Zeldin", "Shaw"}, {"Numen", "Richards", "Singer"}, None),
    Activity("SLA291", 50, {"Lock", "Banks", "Zeldin", "Singer"}, {"Numen", "Richards", "Shaw", "Tyler"}, None),
    Activity("SLA303", 60, {"Glen", "Zeldin", "Banks"}, {"Numen", "Singer", "Shaw"}, None),
    Activity("SLA304", 25, {"Glen", "Banks", "Tyler"}, {"Numen", "Singer", "Shaw", "Richards", "Uther", "Zeldin"}, None),
    Activity("SLA394", 20, {"Tyler", "Singer"}, {"Richards", "Zeldin"}, None),
    Activity("SLA449", 60, {"Tyler", "Singer", "Shaw"}, {"Zeldin", "Uther"}, None),
    Activity("SLA451", 100, {"Tyler", "Singer", "Shaw"}, {"Zeldin", "Uther", "Richards", "Banks"}, None)
  ]

  const Rooms: seq<Room> := [
    Room("Slater 003", 45, "Slater"),
    Room("Roman 216", 30, "Roman"),
    Room("Loft 206", 75, "Loft"),
    Room("Roman 201", 50, "Roman"),
    Room("Loft 310", 108, "Loft"),
    Room("Beach 201", 60, "Beach"),
    Room("Beach 301", 75, "Beach"),
    Room("Logos 325", 450, "Logos"),
    Room("Frank 119", 60, "Frank")
  ]

  const TimeSlots: seq<TimeSlot> :=
    [TimeSlot(10, 0), TimeSlot(11, 0), TimeSlot(12, 0), TimeSlot(13, 0), TimeSlot(14, 0), TimeSlot(15, 0)]

  /** No activity of the instance carries a linked-course name. */
  lemma NoLinkedActivities()
    ensures forall i :: 0 <= i < |Activities| ==> !IsLinked(Activities[i])
  {
  }

  /** No facilitator of the instance is the special facilitator, so for all
      of them the total-load rule is the ordinary one. */
  lemma NoSpecialFacilitator(f: string, load: int)
    requires f in Facilitators
    ensures TotalLoadScore(load, f) == (if load > 4 then -50 else if load < 3 then -40 else 0)
  {
  }

  /** For every schedule of the instance, the fitness is the sum of rules 1
      to 5 alone. */
  lemma InstanceFitness(items: seq<ScheduleItem>)
    requires WellFormed(items, Activities)
    ensures Fitness(items)
         == RuleTotal(items, items, RoomConflict) + RuleTotal(items, items, RoomSize)
          + RuleTotal(items, items, Preference) + RuleTotal(items, items, SlotLoadRule)
          + RuleTotal(items, items, TotalLoadRule)
  {
    NoLinkedActivities();
    FitnessByRule(items, items);
    UnlinkedSchedule(items, items);
  }

  /** The eleven activities are pairwise different values, so in any
      well-formed schedule of the instance "another item" is "an item at
      another position". */
  lemma ActivitiesDistinct()
    ensures forall i, j :: 0 <= i < j < |Activities| ==> Activities[i] != Activities[j]
  {
  }

  lemma DistinctPositionsDistinctItems(items: seq<ScheduleItem>, i: int, j: int)
    requires WellFormed(items, Activities)
    requires 0 <= i < |items| && 0 <= j < |items| && i != j
    ensures items[i] != items[j]
    ensures DoubleBooks(items[j], items[i]) <==> items[j].slot == items[i].slot && items[j].room == items[i].room
  {
  }
}
