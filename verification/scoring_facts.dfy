/**
 * Properties of the fitness evaluator, one group per rule, plus the facts
 * that relate the per-item rules to the schedule-wide fitness.
 */
module ScoringFacts {
  import opened Domain
  import opened Scoring

  // =====================================================================
  // The fitness is the sum of seven independent rule totals

  lemma {:induction false} FitnessByRule(xs: seq<ScheduleItem>, all: seq<ScheduleItem>)
    ensures TotalScore(xs, all)
         == RuleTotal(xs, all, RoomConflict) + RuleTotal(xs, all, RoomSize)
          + RuleTotal(xs, all, Preference) + RuleTotal(xs, all, SlotLoadRule)
          + RuleTotal(xs, all, TotalLoadRule) + RuleTotal(xs, all, PairedSection)
          + RuleTotal(xs, all, Consecutive)
    decreases |xs|
  {
    if xs != [] {
      FitnessByRule(xs[1..], all);
    }
  }

  // =====================================================================
  // Rule 1: room double-booking

  lemma DoubleBooksSymmetric(a: ScheduleItem, b: ScheduleItem)
    ensures DoubleBooks(a, b) <==> DoubleBooks(b, a)
    ensures !DoubleBooks(a, a)
  {
  }

  /** Sum, over the entries of `xs`, of how many entries of `all` double-book it. */
  function ConflictTotal(xs: seq<ScheduleItem>, all: seq<ScheduleItem>): nat {
    if xs == [] then 0 else ConflictCount(all, xs[0]) + ConflictTotal(xs[1..], all)
  }

  /** The number of double-booked pairs of positions j < k, each pair counted
      once, at its later position k. */
  function DoubleBookedPairs(xs: seq<ScheduleItem>): nat {
    if xs == [] then 0
    else DoubleBookedPairs(xs[..|xs| - 1]) + ConflictCount(xs[..|xs| - 1], xs[|xs| - 1])
  }

  lemma {:induction false} ConflictCountAppend(a: seq<ScheduleItem>, b: seq<ScheduleItem>, item: ScheduleItem)
    ensures ConflictCount(a + b, item) == ConflictCount(a, item) + ConflictCount(b, item)
    decreases |a|
  {
    if a == [] {
      assert a + b == b;
    } else {
      assert (a + b)[1..] == a[1..] + b;
      ConflictCountAppend(a[1..], b, item);
    }
  }

  lemma {:induction false} ConflictTotalAppend(a: seq<ScheduleItem>, b: seq<ScheduleItem>, all: seq<ScheduleItem>)
    ensures ConflictTotal(a + b, all) == ConflictTotal(a, all) + ConflictTotal(b, all)
    decreases |a|
  {
    if a == [] {
      assert a + b == b;
    } else {
      assert (a + b)[1..] == a[1..] + b;
      ConflictTotalAppend(a[1..], b, all);
    }
  }

  lemma {:induction false} ConflictTotalSplitAll(xs: seq<ScheduleItem>, p: seq<ScheduleItem>, q: seq<ScheduleItem>)
    ensures ConflictTotal(xs, p + q) == ConflictTotal(xs, p) + ConflictTotal(xs, q)
    decreases |xs|
  {
    if xs != [] {
      ConflictCountAppend(p, q, xs[0]);
      ConflictTotalSplitAll(xs[1..], p, q);
    }
  }

  /** By symmetry, what one item `y` causes across `xs` equals what `xs`
      causes to `y`. */
  lemma {:induction false} ConflictTotalAgainstOne(xs: seq<ScheduleItem>, y: ScheduleItem)
    ensures ConflictTotal(xs, [y]) == ConflictCount(xs, y)
    decreases |xs|
  {
    if xs != [] {
      DoubleBooksSymmetric(xs[0], y);
      assert ConflictCount([y], xs[0]) == (if DoubleBooks(y, xs[0]) then 1 else 0);
      ConflictTotalAgainstOne(xs[1..], y);
    }
  }

  /** Counted per item, every double-booked pair is seen twice. */
  lemma {:induction false} ConflictTotalIsTwicePairs(xs: seq<ScheduleItem>)
    ensures ConflictTotal(xs, xs) == 2 * DoubleBookedPairs(xs)
    decreases |xs|
  {
    if xs != [] {
      var p := xs[..|xs| - 1];
      var y := xs[|xs| - 1];
      assert xs == p + [y];
      ConflictTotalAppend(p, [y], xs);
      ConflictTotalSplitAll(p, p, [y]);
      ConflictTotalAgainstOne(p, y);
      ConflictCountAppend(p, [y], y);
      assert ConflictCount([y], y) == 0;
      assert ConflictTotal([y], xs) == ConflictCount(xs, y);
      ConflictTotalIsTwicePairs(p);
    }
  }

  lemma {:induction false} RoomConflictTotal(xs: seq<ScheduleItem>, all: seq<ScheduleItem>)
    ensures RuleTotal(xs, all, RoomConflict) == -50 * ConflictTotal(xs, all)
    decreases |xs|
  {
    if xs != [] {
      RoomConflictTotal(xs[1..], all);
    }
  }

  /** Each item loses 0.5 per other item in its room and slot, so every
      double-booked pair costs the schedule 1.0 in all. */
  lemma RoomConflictPenalty(items: seq<ScheduleItem>)
    ensures RuleTotal(items, items, RoomConflict) == -100 * DoubleBookedPairs(items)
  {
    RoomConflictTotal(items, items);
    ConflictTotalIsTwicePairs(items);
  }

  lemma {:induction false} ConflictCountOfMember(all: seq<ScheduleItem>, item: ScheduleItem, j: int)
    requires 0 <= j < |all| && DoubleBooks(all[j], item)
    ensures ConflictCount(all, item) >= 1
    decreases |all|
  {
    if j > 0 {
      ConflictCountOfMember(all[1..], item, j - 1);
    }
  }

  /** In a schedule of any size, each item of a double-booked pair loses at
      least 0.5 from the other's presence. */
  lemma ConflictingPairPenalised(all: seq<ScheduleItem>, i: int, j: int)
    requires 0 <= i < |all| && 0 <= j < |all|
    requires all[i].slot == all[j].slot && all[i].room == all[j].room && all[i] != all[j]
    ensures RuleScore(RoomConflict, all, all[i]) <= -50
    ensures RuleScore(RoomConflict, all, all[j]) <= -50
  {
    ConflictCountOfMember(all, all[i], j);
    ConflictCountOfMember(all, all[j], i);
  }

  /** A single double-booked pair: -0.5 to each of the two items. */
  lemma SingleConflictingPair(a: ScheduleItem, b: ScheduleItem)
    requires a.slot == b.slot && a.room == b.room && a != b
    ensures RuleScore(RoomConflict, [a, b], a) == -50
    ensures RuleScore(RoomConflict, [a, b], b) == -50
    ensures RuleTotal([a, b], [a, b], RoomConflict) == -100
  {
    var pair := [a, b];
    assert pair[1..] == [b] && [b][1..] == [];
    assert ConflictCount([b], a) == 1;
    assert ConflictCount([b], b) == 0;
    assert ConflictCount(pair, a) == 1;
    assert ConflictCount(pair, b) == 1;
    assert RuleTotal([b], pair, RoomConflict) == -50;
  }

  // =====================================================================
  // Rule 2: room size

  /** For a non-negative enrollment the four outcomes are four disjoint capacity
      bands, so the branch order does not matter. */
  lemma SizeScoreBands(a: Activity, r: Room)
    requires a.enrollment >= 0
    ensures SizeScore(a, r) == -50 <==> r.capacity < a.enrollment
    ensures SizeScore(a, r) == 30 <==> a.enrollment <= r.capacity <= 3 * a.enrollment
    ensures SizeScore(a, r) == -20 <==> 3 * a.enrollment < r.capacity <= 6 * a.enrollment
    ensures SizeScore(a, r) == -40 <==> 6 * a.enrollment < r.capacity
  {
  }

  /** The boundary cases the rule is built around. */
  lemma SizeScoreBoundaries(a: Activity, r: Room)
    requires a.enrollment >= 0
    ensures r.capacity == a.enrollment ==> SizeScore(a, r) == 30
    ensures r.capacity == 3 * a.enrollment ==> SizeScore(a, r) == 30
    ensures r.capacity == a.enrollment - 1 ==> SizeScore(a, r) == -50
    ensures r.capacity == 6 * a.enrollment + 1 ==> SizeScore(a, r) == -40
  {
  }

  /** Above the enrollment, a bigger room never scores better. */
  lemma SizeScoreMonotone(a: Activity, r1: Room, r2: Room)
    requires a.enrollment <= r1.capacity <= r2.capacity
    ensures SizeScore(a, r2) <= SizeScore(a, r1) <= 30
  {
  }

  // =====================================================================
  // Rule 3: facilitator preference

  lemma PreferenceOrder(a: Activity, f: string, g: string)
    ensures f in a.preferred ==> PreferenceScore(a, f) == 50
    ensures f !in a.preferred && f in a.others ==> PreferenceScore(a, f) == 20
    ensures f !in a.preferred && f !in a.others ==> PreferenceScore(a, f) == -10
    ensures f in a.preferred ==> PreferenceScore(a, g) <= PreferenceScore(a, f)
    ensures f in a.others && g !in a.preferred ==> PreferenceScore(a, g) <= PreferenceScore(a, f)
  {
  }

  // =====================================================================
  // Rule 4: facilitator load within one slot

  lemma {:induction false} SlotLoadOfMember(xs: seq<ScheduleItem>, s: TimeSlot, f: string, i: int)
    requires 0 <= i < |xs| && xs[i].slot == s && xs[i].facilitator == f
    ensures SlotLoad(xs, s, f) >= 1
    decreases |xs|
  {
    if i > 0 {
      SlotLoadOfMember(xs[1..], s, f, i - 1);
    }
  }

  lemma {:induction false} SlotLoadOfTwo(xs: seq<ScheduleItem>, s: TimeSlot, f: string, i: int, j: int)
    requires 0 <= i < j < |xs|
    requires xs[i].slot == s && xs[i].facilitator == f
    requires xs[j].slot == s && xs[j].facilitator == f
    ensures SlotLoad(xs, s, f) >= 2
    decreases |xs|
  {
    if i == 0 {
      SlotLoadOfMember(xs[1..], s, f, j - 1);
    } else {
      SlotLoadOfTwo(xs[1..], s, f, i - 1, j - 1);
    }
  }

  lemma {:induction false} SlotLoadOfNone(xs: seq<ScheduleItem>, s: TimeSlot, f: string)
    requires forall j :: 0 <= j < |xs| ==> !(xs[j].slot == s && xs[j].facilitator == f)
    ensures SlotLoad(xs, s, f) == 0
    decreases |xs|
  {
    if xs != [] {
      SlotLoadOfNone(xs[1..], s, f);
    }
  }

  lemma {:induction false} SlotLoadOfOnly(xs: seq<ScheduleItem>, s: TimeSlot, f: string, i: int)
    requires 0 <= i < |xs| && xs[i].slot == s && xs[i].facilitator == f
    requires forall j :: 0 <= j < |xs| && j != i ==> !(xs[j].slot == s && xs[j].facilitator == f)
    ensures SlotLoad(xs, s, f) == 1
    decreases |xs|
  {
    if i == 0 {
      SlotLoadOfNone(xs[1..], s, f);
    } else {
      SlotLoadOfOnly(xs[1..], s, f, i - 1);
    }
  }

  /** The in-slot count includes the item itself, so the rule gives +0.2
      exactly when no other position shares the slot and the facilitator,
      and -0.2 otherwise; it never gives 0 to a member of the schedule. */
  lemma SlotLoadRuleCharacterised(items: seq<ScheduleItem>, i: int)
    requires 0 <= i < |items|
    ensures SlotLoad(items, items[i].slot, items[i].facilitator) >= 1
    ensures RuleScore(SlotLoadRule, items, items[i]) == 20
            <==> forall j :: 0 <= j < |items| && j != i && items[j].slot == items[i].slot
                   ==> items[j].facilitator != items[i].facilitator
    ensures RuleScore(SlotLoadRule, items, items[i]) == 20
            || RuleScore(SlotLoadRule, items, items[i]) == -20
  {
    var s, f := items[i].slot, items[i].facilitator;
    SlotLoadOfMember(items, s, f, i);
    if j :| 0 <= j < |items| && j != i && items[j].slot == s && items[j].facilitator == f {
      if i < j {
        SlotLoadOfTwo(items, s, f, i, j);
      } else {
        SlotLoadOfTwo(items, s, f, j, i);
      }
    } else {
      SlotLoadOfOnly(items, s, f, i);
    }
  }

  // =====================================================================
  // Rule 5: total facilitator load

  /** The facilitator column of a schedule. */
  function FacilitatorColumn(items: seq<ScheduleItem>): (r: seq<string>)
    ensures |r| == |items|
  {
    seq(|items|, i requires 0 <= i < |items| => items[i].facilitator)
  }

  /** A facilitator's load is its multiplicity in the facilitator column. */
  lemma {:induction false} LoadIsMultiplicity(items: seq<ScheduleItem>, f: string)
    ensures Load(items, f) == multiset(FacilitatorColumn(items))[f]
    decreases |items|
  {
    if items != [] {
      assert FacilitatorColumn(items) == [items[0].facilitator] + FacilitatorColumn(items[1..]);
      LoadIsMultiplicity(items[1..], f);
    }
  }

  /** The facilitator of any item carries a load of at least one. */
  lemma LoadOfMember(items: seq<ScheduleItem>, i: int)
    requires 0 <= i < |items|
    ensures Load(items, items[i].facilitator) >= 1
  {
    LoadIsMultiplicity(items, items[i].facilitator);
    assert FacilitatorColumn(items)[i] == items[i].facilitator;
  }

  /** At most one branch applies. Everyone above four loses 0.5; an ordinary
      facilitator loses 0.4 below three and nothing at three or four; the
      special facilitator loses 0.4 at exactly three and nothing at four. */
  lemma TotalLoadTable(load: int, f: string)
    ensures TotalLoadScore(load, f) in {-50, -40, 0}
    ensures load > 4 ==> TotalLoadScore(load, f) == -50
    ensures f != SpecialFacilitator && load < 3 ==> TotalLoadScore(load, f) == -40
    ensures f != SpecialFacilitator && 3 <= load <= 4 ==> TotalLoadScore(load, f) == 0
    ensures f == SpecialFacilitator && load == 3 ==> TotalLoadScore(load, f) == -40
    ensures f == SpecialFacilitator && (load < 3 || load == 4) ==> TotalLoadScore(load, f) == 0
  {
  }

  // =====================================================================
  // Rules 6 and 7: linked courses

  /** Only the two literal linked-course names are ever affected. */
  lemma LinkedRulesInert(all: seq<ScheduleItem>, item: ScheduleItem)
    requires !IsLinked(item.activity)
    ensures RuleScore(PairedSection, all, item) == 0
    ensures RuleScore(Consecutive, all, item) == 0
  {
  }

  /** Without another section of the same course the paired-section rule
      adds nothing; with one, the first such entry decides. */
  lemma PairedSectionWithoutPartner(all: seq<ScheduleItem>, item: ScheduleItem)
    requires forall j :: 0 <= j < |all| ==> !OtherSectionOf(all[j], item)
    ensures RuleScore(PairedSection, all, item) == 0
  {
  }

  lemma ConsecutiveTermSymmetric(a: ScheduleItem, b: ScheduleItem)
    ensures ConsecutiveTerm(a, b) == ConsecutiveTerm(b, a)
    ensures ConsecutiveTerm(a, b) in {50, 10, 25, -25, 0}
  {
  }

  /** Without any other linked-course entry the consecutive rule adds nothing. */
  lemma {:induction false} ConsecutiveWithoutPeers(xs: seq<ScheduleItem>, item: ScheduleItem)
    requires forall j :: 0 <= j < |xs| && IsLinked(xs[j].activity) ==> xs[j] == item
    ensures ConsecutiveSum(xs, item) == 0
    decreases |xs|
  {
    if xs != [] {
      ConsecutiveWithoutPeers(xs[1..], item);
    }
  }

  /** In a schedule without linked-course entries, rules 6 and 7 add nothing. */
  lemma {:induction false} UnlinkedSchedule(xs: seq<ScheduleItem>, all: seq<ScheduleItem>)
    requires forall k :: 0 <= k < |xs| ==> !IsLinked(xs[k].activity)
    ensures RuleTotal(xs, all, PairedSection) == 0
    ensures RuleTotal(xs, all, Consecutive) == 0
    decreases |xs|
  {
    if xs != [] {
      UnlinkedSchedule(xs[1..], all);
    }
  }

  // =====================================================================
  // The ceiling of an unlinked schedule

  /** An item that gets the best outcome of rules 1 to 5. */
  predicate Ideal(all: seq<ScheduleItem>, item: ScheduleItem) {
    && ConflictCount(all, item) == 0
    && item.activity.enrollment <= item.room.capacity <= 3 * item.activity.enrollment
    && item.facilitator in item.activity.preferred
    && SlotLoad(all, item.slot, item.facilitator) == 1
    && TotalLoadScore(Load(all, item.facilitator), item.facilitator) == 0
  }

  /** An item of an unlinked course scores at most 1.0, and exactly 1.0 when
      it is ideal. */
  lemma ItemScoreCeiling(all: seq<ScheduleItem>, item: ScheduleItem)
    requires !IsLinked(item.activity)
    ensures ItemScore(all, item) <= 100
    ensures ItemScore(all, item) == 100 <==> Ideal(all, item)
  {
  }

  /** A schedule of unlinked courses scores at most 1.0 per item, and reaches
      that bound exactly when every item is ideal. */
  lemma {:induction false} FitnessCeiling(xs: seq<ScheduleItem>, all: seq<ScheduleItem>)
    requires forall k :: 0 <= k < |xs| ==> !IsLinked(xs[k].activity)
    ensures TotalScore(xs, all) <= 100 * |xs|
    ensures TotalScore(xs, all) == 100 * |xs| <==> forall k :: 0 <= k < |xs| ==> Ideal(all, xs[k])
    decreases |xs|
  {
    if xs != [] {
      ItemScoreCeiling(all, xs[0]);
      FitnessCeiling(xs[1..], all);
      if TotalScore(xs, all) == 100 * |xs| {
        forall k | 0 <= k < |xs|
          ensures Ideal(all, xs[k])
        {
          if k > 0 {
            assert xs[k] == xs[1..][k - 1];
          }
        }
      }
      if forall k :: 0 <= k < |xs| ==> Ideal(all, xs[k]) {
        assert forall k :: 0 <= k < |xs[1..]| ==> Ideal(all, xs[1..][k]) by {
          forall k | 0 <= k < |xs[1..]|
            ensures Ideal(all, xs[1..][k])
          {
            assert xs[1..][k] == xs[k + 1];
          }
        }
      }
    }
  }
}
