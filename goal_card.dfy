/** The card of a goal or sinking fund (src/components/GoalCard.tsx): its
    progress, what is left, and for a sinking fund the time label and
    whether it is flagged urgent. */
module GoalCard {
  import opened FormInput

  datatype CardKind = GoalItem | PeriodicItem

  /** Percentage of the target reached; 0 without a positive target. */
  function Progress(current: real, target: real): (p: real)
    ensures target <= 0.0 ==> p == 0.0
    ensures target > 0.0 ==> p * target == current * 100.0
    ensures target > 0.0 ==> (p >= 100.0 <==> current >= target)
    ensures target > 0.0 ==> (p < 50.0 <==> current * 2.0 < target)
  {
    if target > 0.0 then
      PercentOf(current, target);
      current / target * 100.0
    else 0.0
  }

  lemma PercentOf(current: real, target: real)
    requires target > 0.0
    ensures (current / target * 100.0) * target == current * 100.0
    ensures current / target * 100.0 >= 100.0 <==> current >= target
    ensures current / target * 100.0 < 50.0 <==> current * 2.0 < target
  {
    var q := current / target;
    assert q * target == current;
    assert (q * 100.0) * target == (q * target) * 100.0;
    if q >= 1.0 { assert q * target >= 1.0 * target; }
    if q < 1.0 { assert q * target < 1.0 * target; }
    if q < 0.5 {
      assert q * target < 0.5 * target;
      assert current * 2.0 < target;
    } else {
      assert q * target >= 0.5 * target;
      assert current * 2.0 >= target;
    }
  }

  function Remaining(current: real, target: real): real {
    target - current
  }

  /** `isComplete`: the progress reached 100. With a positive target that
      is the target reached; without one nothing is ever complete. */
  predicate IsComplete(current: real, target: real) {
    Progress(current, target) >= 100.0
  }

  /** The time label under a sinking fund. */
  datatype TimeLabel = NoLabel | Overdue | DaysLeft(days: int) | WeeksLeft(weeks: int) | FortnightsLeft(fortnights: int)

  datatype Status = Status(time: TimeLabel, urgent: bool)

  /** The label and the urgency flag. `daysLeft` and `weeksLeft` are the
      whole days and weeks until the due date, as the date library counts
      them. Goals get neither. */
  function Classify(kind: CardKind, current: real, target: real, daysLeft: int, weeksLeft: int): (s: Status)
    ensures kind == GoalItem ==> s == Status(NoLabel, false)
    ensures kind == PeriodicItem && daysLeft < 0 ==> s == Status(Overdue, true)
    ensures kind == PeriodicItem && 0 <= daysLeft <= 14 ==>
      s == Status(DaysLeft(daysLeft), !IsComplete(current, target) && Remaining(current, target) > 0.0)
    ensures kind == PeriodicItem && daysLeft > 14 && weeksLeft <= 8 ==>
      s == Status(WeeksLeft(weeksLeft), !IsComplete(current, target) && Progress(current, target) < 50.0)
    ensures kind == PeriodicItem && daysLeft > 14 && weeksLeft > 8 ==>
      s.time.FortnightsLeft? && !s.urgent
      && (s.time.fortnights - 1) * 15 < daysLeft <= s.time.fortnights * 15
  {
    if kind == GoalItem then Status(NoLabel, false)
    else if daysLeft < 0 then Status(Overdue, true)
    else if daysLeft <= 14 then
      Status(DaysLeft(daysLeft), !IsComplete(current, target) && Remaining(current, target) > 0.0)
    else if weeksLeft <= 8 then
      Status(WeeksLeft(weeksLeft), !IsComplete(current, target) && Progress(current, target) < 50.0)
    else
      var n := Ceil(daysLeft as real / 15.0);
      assert (n - 1) * 15 < daysLeft <= n * 15;
      Status(FortnightsLeft(n), false)
  }

  /** A fund that has reached a positive target is only ever urgent once
      overdue. */
  lemma FundedNotUrgentUntilOverdue(current: real, target: real, daysLeft: int, weeksLeft: int)
    requires target > 0.0 && current >= target
    ensures Classify(PeriodicItem, current, target, daysLeft, weeksLeft).urgent <==> daysLeft < 0
  {
  }

  /** With the weeks counted as whole weeks of the days, the fortnight
      label only appears from 63 days on, so it always reads 5 or more. */
  lemma FortnightLabelFromNineWeeks(current: real, target: real, daysLeft: int)
    requires daysLeft >= 0
    ensures var s := Classify(PeriodicItem, current, target, daysLeft, daysLeft / 7);
      s.time.FortnightsLeft? <==> daysLeft >= 63
    ensures var s := Classify(PeriodicItem, current, target, daysLeft, daysLeft / 7);
      s.time.FortnightsLeft? ==> s.time.fortnights >= 5
  {
  }

  datatype Colour = SavingsStroke | DestructiveStroke | FixedStroke

  /** The ring colour: savings for goals, destructive for urgent funds,
      fixed for the rest. */
  function RingColour(kind: CardKind, s: Status): (c: Colour)
    ensures c == SavingsStroke <==> kind == GoalItem
    ensures c == DestructiveStroke <==> kind.PeriodicItem? && s.urgent
  {
    if kind == GoalItem then SavingsStroke else if s.urgent then DestructiveStroke else FixedStroke
  }
}
