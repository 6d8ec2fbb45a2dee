/** A daily spending tracker: usage accumulates during a day and starts again
    from zero when the day-of-month changes. The current date is a parameter. */
module BudgetTracker {

  const DailyBudget: real := 5.00

  /** A calendar date; `day` is what `Date.getDate()` returns. */
  datatype Date = Date(year: int, month: int, day: int)

  datatype Budget = Budget(dailyUsage: real, lastReset: Date)

  /** The tracker's state at process start: nothing spent, so spending is
      allowed, and whatever date the first cost arrives on, that cost is the
      whole of the usage. */
  function Initial(now: Date): (b: Budget)
    ensures b.lastReset == now
    ensures CheckBudget(b)
    ensures forall cost: real, later: Date :: TrackUsage(b, cost, later).budget.dailyUsage == cost
  {
    Budget(0.0, now)
  }

  /** The new state, and whether the near-limit warning was logged. */
  datatype Tracked = Tracked(budget: Budget, warned: bool)

  /** `trackUsage`: reset on a new day-of-month, then add the cost. The cost
      is never rejected, whatever the budget says. */
  function TrackUsage(b: Budget, cost: real, now: Date): (t: Tracked)
    ensures now.day != b.lastReset.day ==> t.budget.dailyUsage == cost && t.budget.lastReset == now
    ensures now.day == b.lastReset.day ==> t.budget.dailyUsage == b.dailyUsage + cost && t.budget.lastReset == b.lastReset
    ensures t.warned <==> t.budget.dailyUsage > 4.00
  {
    var reset := if now.day != b.lastReset.day then Budget(0.0, now) else b;
    var usage := reset.dailyUsage + cost;
    Tracked(reset.(dailyUsage := usage), usage > DailyBudget * 0.8)
  }

  /** `checkBudget`: spending is allowed while usage is strictly below the
      daily budget. */
  function CheckBudget(b: Budget): (ok: bool)
    ensures ok <==> b.dailyUsage < 5.00
  {
    b.dailyUsage < DailyBudget
  }

  /** Only the day-of-month is compared: the same date number one month
      later does not reset. */
  lemma SameDayNextMonthDoesNotReset(b: Budget, cost: real)
    ensures TrackUsage(b, cost, b.lastReset.(month := b.lastReset.month + 1)).budget.dailyUsage == b.dailyUsage + cost
  {
  }

  function SumCosts(costs: seq<real>): real {
    if |costs| == 0 then 0.0 else SumCosts(costs[..|costs| - 1]) + costs[|costs| - 1]
  }

  /** Tracks a sequence of costs, all on the date `now`. */
  function TrackAll(b: Budget, costs: seq<real>, now: Date): Budget
    decreases |costs|
  {
    if |costs| == 0 then b
    else TrackUsage(TrackAll(b, costs[..|costs| - 1], now), costs[|costs| - 1], now).budget
  }

  /** Within one day-of-month the usage is the running sum of every cost. */
  lemma {:induction false} SameDayUsageIsSum(b: Budget, costs: seq<real>, now: Date)
    requires now.day == b.lastReset.day
    ensures TrackAll(b, costs, now).dailyUsage == b.dailyUsage + SumCosts(costs)
    ensures TrackAll(b, costs, now).lastReset == b.lastReset
    decreases |costs|
  {
    if |costs| > 0 {
      SameDayUsageIsSum(b, costs[..|costs| - 1], now);
    }
  }

  /** On a new day-of-month the earlier usage is forgotten: only the costs
      of the new day count. */
  lemma {:induction false} NewDayForgetsEarlierUsage(b: Budget, costs: seq<real>, now: Date)
    requires now.day != b.lastReset.day && |costs| > 0
    ensures TrackAll(b, costs, now).dailyUsage == SumCosts(costs)
    ensures TrackAll(b, costs, now).lastReset == now
    decreases |costs|
  {
    if |costs| == 1 {
      assert costs[..0] == [];
    } else {
      NewDayForgetsEarlierUsage(b, costs[..|costs| - 1], now);
    }
  }

  /** A call that exhausts the budget has always logged the warning first. */
  lemma ExhaustionIsWarned(b: Budget, cost: real, now: Date)
    requires !CheckBudget(TrackUsage(b, cost, now).budget)
    ensures TrackUsage(b, cost, now).warned
  {
  }
}
