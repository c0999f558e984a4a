/**
 * The value types of the scheduling problem: activities, rooms, time slots
 * and the schedule item (one gene) that ties them together.
 *
 * Every type is an immutable datatype, so equality is structural, which is
 * exactly what the source's dataclass `==` / `!=` compute.
 */
module Domain {
  import opened Wrappers

  /** A course offering. `section` is absent for single-section courses and
      distinguishes co-offered sections ("A"/"B") otherwise. */
  datatype Activity = Activity(
    name: string,
    enrollment: int,
    preferred: set<string>,
    others: set<string>,
    section: Option<string>)

  datatype Room = Room(name: string, capacity: int, building: string)

  /** The source groups items by the text "HH:MM" of a slot; that text is
      injective on (hour, minute), so grouping by it is grouping by slot. */
  datatype TimeSlot = TimeSlot(hour: int, minute: int)

  /** One gene: an activity placed in a room, at a time, with a facilitator
      named by a string. */
  datatype ScheduleItem = ScheduleItem(
    activity: Activity,
    room: Room,
    slot: TimeSlot,
    facilitator: string)

  /** The two course names whose sections are timed against each other.
      These are the literal names the scoring rules test for. */
  const LinkedCourses: seq<string> := ["SLA 101", "SLA 191"]

  /** Buildings far from the others: a back-to-back pair of linked courses
      pays extra when exactly one of the two rooms is in one of these. */
  const FarBuildings: seq<string> := ["Roman", "Beach"]

  /** The one facilitator with an individual load rule. */
  const SpecialFacilitator: string := "Dr. Tyler"

  predicate IsLinked(a: Activity) {
    a.name in LinkedCourses
  }

  predicate InFarBuilding(r: Room) {
    r.building in FarBuildings
  }

  /** Absolute difference of the hours of two slots (minutes are ignored). */
  function HourGap(a: TimeSlot, b: TimeSlot): nat {
    if a.hour >= b.hour then a.hour - b.hour else b.hour - a.hour
  }
}
