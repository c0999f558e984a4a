/**
 * The fitness evaluator. A schedule's fitness is the sum, over its items, of
 * a per-item score; the per-item score is the sum of seven independent rule
 * contributions. All scores are exact integers in hundredths of a point
 * (-0.5 is -50, +0.25 is +25).
 */
module Scoring {
  import opened Wrappers
  import opened Domain

  /** The seven additive rules, in the order the evaluator applies them. */
  datatype Rule =
    | RoomConflict
    | RoomSize
    | Preference
    | SlotLoadRule
    | TotalLoadRule
    | PairedSection
    | Consecutive

  // ---------------------------------------------------------------------
  // Rule 1: room double-booking

  /** `other` double-books `item`: a different item value in the same room
      at the same slot. */
  predicate DoubleBooks(other: ScheduleItem, item: ScheduleItem) {
    other.slot == item.slot && other.room == item.room && other != item
  }

  /** How many entries of `xs` double-book `item`. */
  function ConflictCount(xs: seq<ScheduleItem>, item: ScheduleItem): nat {
    if xs == [] then 0
    else (if DoubleBooks(xs[0], item) then 1 else 0) + ConflictCount(xs[1..], item)
  }

  // ---------------------------------------------------------------------
  // Rule 2: room size against expected enrollment

  function SizeScore(a: Activity, r: Room): int {
    if r.capacity < a.enrollment then -50
    else if r.capacity > 6 * a.enrollment then -40
    else if r.capacity > 3 * a.enrollment then -20
    else 30
  }

  // ---------------------------------------------------------------------
  // Rule 3: facilitator preference

  function PreferenceScore(a: Activity, f: string): int {
    if f in a.preferred then 50
    else if f in a.others then 20
    else -10
  }

  // ---------------------------------------------------------------------
  // Rule 4: facilitator load within one slot

  /** How many entries of `xs` sit in `slot` with facilitator `f`. */
  function SlotLoad(xs: seq<ScheduleItem>, slot: TimeSlot, f: string): nat {
    if xs == [] then 0
    else (if xs[0].slot == slot && xs[0].facilitator == f then 1 else 0)
         + SlotLoad(xs[1..], slot, f)
  }

  function SlotLoadScore(all: seq<ScheduleItem>, item: ScheduleItem): int {
    var c := SlotLoad(all, item.slot, item.facilitator);
    if c == 1 then 20 else if c > 1 then -20 else 0
  }

  // ---------------------------------------------------------------------
  // Rule 5: facilitator load over the whole schedule

  /** How many entries of `xs` are assigned to facilitator `f`. */
  function Load(xs: seq<ScheduleItem>, f: string): nat {
    if xs == [] then 0
    else (if xs[0].facilitator == f then 1 else 0) + Load(xs[1..], f)
  }

  function TotalLoadScore(load: int, f: string): int {
    if load > 4 then -50
    else if load == 3 && f == SpecialFacilitator then -40
    else if load < 3 && f != SpecialFacilitator then -40
    else 0
  }

  // ---------------------------------------------------------------------
  // Rule 6: the two sections of a linked course

  /** `x` is another section of `item`'s course: same name, different
      section tag (an absent tag differs from every present one). */
  predicate OtherSectionOf(x: ScheduleItem, item: ScheduleItem) {
    x.activity.name == item.activity.name && x.activity.section != item.activity.section
  }

  /** The position of the first entry of `xs` that is another section of
      `item`'s course, if there is one. */
  function FirstOtherSection(xs: seq<ScheduleItem>, item: ScheduleItem): (r: Option<nat>)
    ensures r.None? <==> forall j :: 0 <= j < |xs| ==> !OtherSectionOf(xs[j], item)
    ensures r.Some? ==> r.value < |xs| && OtherSectionOf(xs[r.value], item)
    ensures r.Some? ==> forall j :: 0 <= j < r.value ==> !OtherSectionOf(xs[j], item)
  {
    if xs == [] then None
    else if OtherSectionOf(xs[0], item) then Some(0)
    else match FirstOtherSection(xs[1..], item)
      case None => None
      case Some(k) => Some(k + 1)
  }

  function PairedSectionScore(all: seq<ScheduleItem>, item: ScheduleItem): int {
    if !IsLinked(item.activity) then 0
    else match FirstOtherSection(all, item)
      case None => 0
      case Some(k) =>
        var gap := HourGap(all[k].slot, item.slot);
        if gap > 4 then 50 else if gap == 0 then -50 else 0
  }

  // ---------------------------------------------------------------------
  // Rule 7: linked-course activities in neighbouring slots

  /** What one other linked-course item contributes to `item`'s score. */
  function ConsecutiveTerm(item: ScheduleItem, other: ScheduleItem): int {
    var gap := HourGap(other.slot, item.slot);
    if gap == 1 then
      50 + (if InFarBuilding(item.room) != InFarBuilding(other.room) then -40 else 0)
    else if gap == 2 then 25
    else if gap == 0 then -25
    else 0
  }

  /** Sum of the terms of every entry of `xs` that is a linked-course item
      other than `item`. */
  function ConsecutiveSum(xs: seq<ScheduleItem>, item: ScheduleItem): int {
    if xs == [] then 0
    else (if IsLinked(xs[0].activity) && xs[0] != item then ConsecutiveTerm(item, xs[0]) else 0)
         + ConsecutiveSum(xs[1..], item)
  }

  // ---------------------------------------------------------------------
  // Per-item and per-schedule scores

  /** What `rule` contributes to the score of `item` inside schedule `all`. */
  function RuleScore(rule: Rule, all: seq<ScheduleItem>, item: ScheduleItem): int {
    match rule
    case RoomConflict => -50 * ConflictCount(all, item)
    case RoomSize => SizeScore(item.activity, item.room)
    case Preference => PreferenceScore(item.activity, item.facilitator)
    case SlotLoadRule => SlotLoadScore(all, item)
    case TotalLoadRule => TotalLoadScore(Load(all, item.facilitator), item.facilitator)
    case PairedSection => PairedSectionScore(all, item)
    case Consecutive => if IsLinked(item.activity) then ConsecutiveSum(all, item) else 0
  }

  /** The score of one item: every rule fires independently and adds up. */
  function ItemScore(all: seq<ScheduleItem>, item: ScheduleItem): int {
    RuleScore(RoomConflict, all, item)
    + RuleScore(RoomSize, all, item)
    + RuleScore(Preference, all, item)
    + RuleScore(SlotLoadRule, all, item)
    + RuleScore(TotalLoadRule, all, item)
    + RuleScore(PairedSection, all, item)
    + RuleScore(Consecutive, all, item)
  }

  /** Sum of the scores of the entries of `xs`, each judged within `all`. */
  function TotalScore(xs: seq<ScheduleItem>, all: seq<ScheduleItem>): int {
    if xs == [] then 0 else ItemScore(all, xs[0]) + TotalScore(xs[1..], all)
  }

  /** Sum of one rule's contributions over the entries of `xs`. */
  function RuleTotal(xs: seq<ScheduleItem>, all: seq<ScheduleItem>, rule: Rule): int {
    if xs == [] then 0 else RuleScore(rule, all, xs[0]) + RuleTotal(xs[1..], all, rule)
  }

  /** The fitness of a schedule, in hundredths. */
  function Fitness(items: seq<ScheduleItem>): int {
    TotalScore(items, items)
  }
}
