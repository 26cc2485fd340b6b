/** The achievement engine: a catalogue of five badges, rules over the current
    month's budgets, expenses and incomes, and a per-user award log with a
    running point total and a saving-streak counter kept in browser storage.

    The real component builds every award on the log of the render it runs
    in, so two awards in one evaluation overwrite each other there; this model
    runs the rules one after the other, each seeing the previous award. */
module Achievements {
  import opened Common
  import opened Records

  datatype AchievementId =
    MonthlyBudgetMaster | MonthlySavingStar | MonthlyPremiumSaver | YearlyBudgetMaster | SavingStreak

  /** One entry of the award log: a catalogue record plus the date it was
      awarded. Only the fields a rule reads are kept (the title, description,
      icon, colour and type are display text). `points` is optional because a
      log read back from storage may lack it. */
  datatype Award = Award(id: string, points: Option<int>, dateAwarded: Date)

  function IdName(a: AchievementId): string {
    match a
    case MonthlyBudgetMaster => "MONTHLY_BUDGET_MASTER"
    case MonthlySavingStar => "MONTHLY_SAVING_STAR"
    case MonthlyPremiumSaver => "MONTHLY_PREMIUM_SAVER"
    case YearlyBudgetMaster => "YEARLY_BUDGET_MASTER"
    case SavingStreak => "SAVING_STREAK"
  }

  /** The catalogue record of a badge, stamped with the award date. */
  function Badge(a: AchievementId, date: Date): (r: Award)
    ensures r.id == IdName(a) && r.dateAwarded == date && r.points.Some?
  {
    match a
    case MonthlyBudgetMaster => Award(IdName(a), Some(100), date)
    case MonthlySavingStar => Award(IdName(a), Some(50), date)
    case MonthlyPremiumSaver => Award(IdName(a), Some(150), date)
    case YearlyBudgetMaster => Award(IdName(a), Some(500), date)
    case SavingStreak => Award(IdName(a), Some(200), date)
  }

  /** Distinct badges carry distinct ids, so a log entry names exactly one badge;
      every badge is worth a positive number of points, the yearly one most. */
  lemma CatalogueIsWellFormed(a: AchievementId, b: AchievementId, date: Date)
    ensures IdName(a) == IdName(b) <==> a == b
    ensures 0 < Badge(a, date).points.value <= Badge(YearlyBudgetMaster, date).points.value
  {
  }

  /** calculateTotalPoints: a missing `points` counts as 0. */
  function TotalPoints(log: seq<Award>): (r: int)
    ensures (forall i :: 0 <= i < |log| ==> log[i].points.GetOr(0) >= 0) ==> r >= 0
  {
    if log == [] then 0 else log[0].points.GetOr(0) + TotalPoints(log[1..])
  }

  lemma {:induction false} TotalPointsAppend(a: seq<Award>, b: seq<Award>)
    ensures TotalPoints(a + b) == TotalPoints(a) + TotalPoints(b)
  {
    if a == [] {
      assert a + b == b;
    } else {
      assert (a + b)[1..] == a[1..] + b;
      TotalPointsAppend(a[1..], b);
    }
  }

  /** A log of catalogue awards is worth the sum of the badges' points, and
      the total only grows as badges are awarded. */
  lemma {:induction false} TotalPointsOfBadges(log: seq<Award>, a: AchievementId, date: Date)
    requires forall i :: 0 <= i < |log| ==> log[i].points.Some? && log[i].points.value > 0
    ensures TotalPoints(log) >= 0
    ensures TotalPoints(log + [Badge(a, date)]) > TotalPoints(log)
  {
    if log != [] {
      TotalPointsOfBadges(log[1..], a, date);
    }
    TotalPointsAppend(log, [Badge(a, date)]);
    assert TotalPoints([Badge(a, date)]) == Badge(a, date).points.value + TotalPoints([]);
  }

  /** hasAchievement: some log entry has the id and was awarded in the
      year-month of `today`. */
  function HasAchievement(log: seq<Award>, a: AchievementId, today: Date): (r: bool)
    ensures r <==> exists i :: 0 <= i < |log| && log[i].id == IdName(a) && SameYearMonth(log[i].dateAwarded, today)
  {
    if log == [] then false
    else (log[0].id == IdName(a) && SameYearMonth(log[0].dateAwarded, today))
         || HasAchievement(log[1..], a, today)
  }

  /** The number of MONTHLY_BUDGET_MASTER entries awarded in `year`. */
  function MonthlyMastersIn(log: seq<Award>, year: int): (r: nat)
    ensures r <= |log|
  {
    if log == [] then 0
    else (if log[0].id == IdName(MonthlyBudgetMaster) && log[0].dateAwarded.year == year then 1 else 0)
         + MonthlyMastersIn(log[1..], year)
  }

  lemma {:induction false} MonthlyMastersInAppend(a: seq<Award>, b: seq<Award>, year: int)
    ensures MonthlyMastersIn(a + b, year) == MonthlyMastersIn(a, year) + MonthlyMastersIn(b, year)
  {
    if a == [] {
      assert a + b == b;
    } else {
      assert (a + b)[1..] == a[1..] + b;
      MonthlyMastersInAppend(a[1..], b, year);
    }
  }

  /** The award log after a yearly check on `today`: YEARLY_BUDGET_MASTER is
      appended once the log holds twelve or more monthly-master awards dated
      in the year of `today`. */
  function YearlyLog(log: seq<Award>, today: Date): (r: seq<Award>)
    ensures log <= r && |r| <= |log| + 1
    ensures MonthlyMastersIn(log, today.year) >= 12 <==> HasAchievement(r[|log|..], YearlyBudgetMaster, today)
  {
    var r := log + (if MonthlyMastersIn(log, today.year) >= 12 then [Badge(YearlyBudgetMaster, today)] else []);
    assert r[|log|..] == (if MonthlyMastersIn(log, today.year) >= 12 then [Badge(YearlyBudgetMaster, today)] else []);
    r
  }

  /** A record dated in the month and year of `today`; an undated record is
      in no month. */
  predicate InMonthOf(t: Transaction, today: Date) {
    t.date.Some? && SameYearMonth(t.date.value, today)
  }

  function MonthRecords(ts: seq<Transaction>, today: Date): (r: seq<Transaction>)
    ensures forall t :: t in r <==> t in ts && InMonthOf(t, today)
  {
    if ts == [] then []
    else (if InMonthOf(ts[0], today) then [ts[0]] else []) + MonthRecords(ts[1..], today)
  }

  /** What a budget's category spent among the given expenses. */
  function Spent(b: Budget, monthExpenses: seq<Transaction>): int {
    SumAmounts(OfCategory(monthExpenses, b.category))
  }

  /** `budgets.every(b => spent(b) <= b.amount)` */
  function WithinAllBudgets(bs: seq<Budget>, monthExpenses: seq<Transaction>): (r: bool)
    ensures r <==> forall i :: 0 <= i < |bs| ==> Spent(bs[i], monthExpenses) <= bs[i].amount
  {
    if bs == [] then true
    else Spent(bs[0], monthExpenses) <= bs[0].amount && WithinAllBudgets(bs[1..], monthExpenses)
  }

  /** `((income - expense) / income) * 100 >= pct` with JavaScript's division:
      a negative income flips the comparison, and a zero income gives +Infinity
      (when expense < 0), -Infinity (expense > 0) or NaN (expense == 0). */
  predicate RateAtLeast(income: int, expense: int, pct: int): (r: bool)
    ensures income > 0 ==> (r <==> expense * 100 <= (100 - pct) * income)
    ensures income < 0 ==> (r <==> expense * 100 >= (100 - pct) * income)
    ensures income == 0 ==> (r <==> expense < 0)
  {
    if income > 0 then (income - expense) * 100 >= pct * income
    else if income < 0 then (income - expense) * 100 <= pct * income
    else expense < 0
  }

  /** With a non-zero income the test is exactly the real-number comparison
      of the savings rate with the threshold. */
  lemma RateAtLeastIsRealComparison(income: int, expense: int, pct: int)
    requires income != 0
    ensures RateAtLeast(income, expense, pct)
            <==> ((income - expense) as real / income as real) * 100.0 >= pct as real
  {
    var q := (income - expense) as real / income as real;
    assert q * income as real == (income - expense) as real;
    if income > 0 {
      assert q * 100.0 >= pct as real <==> q * 100.0 * income as real >= pct as real * income as real;
    } else {
      assert q * 100.0 >= pct as real <==> q * 100.0 * income as real <= pct as real * income as real;
    }
  }

  /** Whoever saves half their income also saves a fifth of it. */
  lemma PremiumImpliesStar(income: int, expense: int)
    ensures RateAtLeast(income, expense, 50) ==> RateAtLeast(income, expense, 20)
  {
  }

  /** A month without income and with non-negative spending earns no saving badge. */
  lemma ZeroIncomeNeverSaves(expense: int, pct: int)
    requires expense >= 0
    ensures !RateAtLeast(0, expense, pct)
  {
  }

  /** The badges a monthly check awards, in order, given the outcome of the
      budget rule and of the 20% and 50% tests, for a streak counter that
      stood at `streak` before it. */
  function AwardsFor(within: bool, star: bool, premium: bool, streak: int): (r: seq<AchievementId>)
    ensures |r| <= 4 && YearlyBudgetMaster !in r
    ensures forall i, j :: 0 <= i < j < |r| ==> r[i] != r[j]
  {
    (if within then [MonthlyBudgetMaster] else [])
    + (if star then [MonthlySavingStar] + (if streak + 1 >= 3 then [SavingStreak] else []) else [])
    + (if premium then [MonthlyPremiumSaver] else [])
  }

  lemma AwardsForMembership(within: bool, star: bool, premium: bool, streak: int)
    ensures var awards := AwardsFor(within, star, premium, streak);
            && (MonthlyBudgetMaster in awards <==> within)
            && (MonthlySavingStar in awards <==> star)
            && (MonthlyPremiumSaver in awards <==> premium)
            && (SavingStreak in awards <==> star && streak + 1 >= 3)
            && YearlyBudgetMaster !in awards
  {
  }

  /** The outcome of the three monthly tests: every budget kept, at least 20%
      saved, at least 50% saved. */
  datatype Verdict = Verdict(within: bool, star: bool, premium: bool)

  function MonthlyVerdict(budgets: seq<Budget>, expenses: seq<Transaction>, incomes: seq<Transaction>,
                          today: Date): (v: Verdict)
    ensures v.premium ==> v.star
    ensures budgets == [] ==> v.within
  {
    var monthExpenses := MonthRecords(expenses, today);
    var income := SumAmounts(MonthRecords(incomes, today));
    var spent := SumAmounts(monthExpenses);
    PremiumImpliesStar(income, spent);
    Verdict(WithinAllBudgets(budgets, monthExpenses), RateAtLeast(income, spent, 20), RateAtLeast(income, spent, 50))
  }

  /** The badges one monthly check awards on the month of `today`. */
  function MonthlyAwards(budgets: seq<Budget>, expenses: seq<Transaction>, incomes: seq<Transaction>,
                         streak: int, today: Date): (r: seq<AchievementId>)
    ensures MonthlyPremiumSaver in r ==> MonthlySavingStar in r
    ensures SavingStreak in r ==> MonthlySavingStar in r
    ensures forall i, j :: 0 <= i < j < |r| ==> r[i] != r[j]
  {
    var v := MonthlyVerdict(budgets, expenses, incomes, today);
    AwardsForMembership(v.within, v.star, v.premium, streak);
    AwardsFor(v.within, v.star, v.premium, streak)
  }

  /** The streak counter after a monthly check: one more when the month
      earned the 20% badge, back to 0 otherwise. */
  function StreakAfterMonth(budgets: seq<Budget>, expenses: seq<Transaction>, incomes: seq<Transaction>,
                            streak: int, today: Date): (r: int)
    ensures MonthlySavingStar in MonthlyAwards(budgets, expenses, incomes, streak, today) ==> r == streak + 1
    ensures MonthlySavingStar !in MonthlyAwards(budgets, expenses, incomes, streak, today) ==> r == 0
  {
    var v := MonthlyVerdict(budgets, expenses, incomes, today);
    AwardsForMembership(v.within, v.star, v.premium, streak);
    if MonthlyVerdict(budgets, expenses, incomes, today).star then streak + 1 else 0
  }

  /** What one monthly check awards, stated rule by rule. */
  lemma MonthlyAwardsRules(budgets: seq<Budget>, expenses: seq<Transaction>, incomes: seq<Transaction>,
                           streak: int, today: Date)
    ensures var awards := MonthlyAwards(budgets, expenses, incomes, streak, today);
            var monthExpenses := MonthRecords(expenses, today);
            var income := SumAmounts(MonthRecords(incomes, today));
            var spent := SumAmounts(monthExpenses);
            && (MonthlyBudgetMaster in awards <==>
                  forall i :: 0 <= i < |budgets| ==> Spent(budgets[i], monthExpenses) <= budgets[i].amount)
            && (MonthlySavingStar in awards <==> RateAtLeast(income, spent, 20))
            && (MonthlyPremiumSaver in awards <==> RateAtLeast(income, spent, 50))
            && (MonthlyPremiumSaver in awards ==> MonthlySavingStar in awards)
            && (SavingStreak in awards <==> MonthlySavingStar in awards && streak + 1 >= 3)
            && (StreakAfterMonth(budgets, expenses, incomes, streak, today) == 0 <==> MonthlySavingStar !in awards || streak + 1 == 0)
            && YearlyBudgetMaster !in awards
  {
    var monthExpenses := MonthRecords(expenses, today);
    var income := SumAmounts(MonthRecords(incomes, today));
    var spent := SumAmounts(monthExpenses);
    var within := WithinAllBudgets(budgets, monthExpenses);
    var star := RateAtLeast(income, spent, 20);
    var premium := RateAtLeast(income, spent, 50);
    AwardsForMembership(within, star, premium, streak);
    PremiumImpliesStar(income, spent);
  }

  /** With no budgets the budget rule holds vacuously. */
  lemma NoBudgetsIsMastery(expenses: seq<Transaction>, incomes: seq<Transaction>, streak: int, today: Date)
    ensures MonthlyBudgetMaster in MonthlyAwards([], expenses, incomes, streak, today)
  {
  }

  /** A month with 1000.00 of income and 750.00 of spending saves 25%: the
      star but not the premium badge. */
  lemma QuarterSavedEarnsStarOnly(e: Transaction, i: Transaction, today: Date)
    requires InMonthOf(e, today) && InMonthOf(i, today)
    requires e.amount == 75000 && i.amount == 100000
    ensures var awards := MonthlyAwards([], [e], [i], 0, today);
            MonthlySavingStar in awards && MonthlyPremiumSaver !in awards && SavingStreak !in awards
  {
    assert MonthRecords([e], today) == [e];
    assert MonthRecords([i], today) == [i];
    assert SumAmounts([e]) == 75000;
    assert SumAmounts([i]) == 100000;
  }

  function Stamp(ids: seq<AchievementId>, date: Date): (r: seq<Award>)
    ensures |r| == |ids|
    ensures forall k :: 0 <= k < |ids| ==> r[k] == Badge(ids[k], date)
  {
    if ids == [] then [] else [Badge(ids[0], date)] + Stamp(ids[1..], date)
  }

  /** The award log after a monthly check with verdict `v`, rule by rule as
      the check runs them: the budget badge, then the 20% badge followed by
      the streak badge from the third kept month on, then the 50% badge. */
  function MonthlyLog(log: seq<Award>, v: Verdict, streak: int, today: Date): (r: seq<Award>)
    ensures log <= r && |r| <= |log| + 4
    ensures forall k :: |log| <= k < |r| ==> r[k].dateAwarded == today
  {
    var l1 := if v.within then log + [Badge(MonthlyBudgetMaster, today)] else log;
    var l2 := if !v.star then l1
              else if streak + 1 >= 3 then l1 + [Badge(MonthlySavingStar, today)] + [Badge(SavingStreak, today)]
              else l1 + [Badge(MonthlySavingStar, today)];
    if v.premium then l2 + [Badge(MonthlyPremiumSaver, today)] else l2
  }

  /** The monthly check only appends, and what it appends are exactly the
      badges the rules award, in order. */
  lemma MonthlyLogAppendsAwards(log: seq<Award>, v: Verdict, streak: int, today: Date)
    ensures MonthlyLog(log, v, streak, today) == log + Stamp(AwardsFor(v.within, v.star, v.premium, streak), today)
  {
    var ids: seq<AchievementId> := [];
    var l := log;
    assert l == log + Stamp(ids, today);
    if v.within {
      StampSnoc(log, ids, MonthlyBudgetMaster, today);
      ids, l := ids + [MonthlyBudgetMaster], l + [Badge(MonthlyBudgetMaster, today)];
    }
    assert ids == if v.within then [MonthlyBudgetMaster] else [];
    if v.star {
      StampSnoc(log, ids, MonthlySavingStar, today);
      ids, l := ids + [MonthlySavingStar], l + [Badge(MonthlySavingStar, today)];
      if streak + 1 >= 3 {
        StampSnoc(log, ids, SavingStreak, today);
        ids, l := ids + [SavingStreak], l + [Badge(SavingStreak, today)];
      }
    }
    assert ids == (if v.within then [MonthlyBudgetMaster] else [])
                  + (if v.star then [MonthlySavingStar] + (if streak + 1 >= 3 then [SavingStreak] else []) else []);
    if v.premium {
      StampSnoc(log, ids, MonthlyPremiumSaver, today);
      ids, l := ids + [MonthlyPremiumSaver], l + [Badge(MonthlyPremiumSaver, today)];
    }
    assert l == MonthlyLog(log, v, streak, today);
    assert ids == AwardsFor(v.within, v.star, v.premium, streak);
  }

  /** Stamping one more badge extends the stamped log by its record. */
  lemma StampSnoc(log: seq<Award>, ids: seq<AchievementId>, a: AchievementId, date: Date)
    ensures log + Stamp(ids, date) + [Badge(a, date)] == log + Stamp(ids + [a], date)
  {
    StampAppend(ids, [a], date);
  }

  lemma {:induction false} StampAppend(a: seq<AchievementId>, b: seq<AchievementId>, date: Date)
    ensures Stamp(a + b, date) == Stamp(a, date) + Stamp(b, date)
  {
    if a == [] {
      assert a + b == b;
    } else {
      assert (a + b)[1..] == a[1..] + b;
      StampAppend(a[1..], b, date);
    }
  }

  class AchievementSystem {
    var userAchievements: seq<Award>
    var totalPoints: int
    var streakCount: int
    /** The badge the pop-up currently shows. */
    var showAchievement: Option<Award>
    /** Browser storage: the `achievements_<uid>` and `streak_<uid>` entries. */
    var storedLog: Option<seq<Award>>
    var storedStreak: Option<int>

    /** The point total is the sum over the log, and reloading from storage
        would give back the same log and streak. */
    predicate Valid()
      reads this
    {
      totalPoints == TotalPoints(userAchievements)
      && storedLog.GetOr([]) == userAchievements
      && storedStreak.GetOr(0) == streakCount
    }

    /** The load effect: a missing log reads as [], a missing streak as 0. */
    constructor (savedLog: Option<seq<Award>>, savedStreak: Option<int>)
      ensures Valid()
      ensures userAchievements == savedLog.GetOr([]) && streakCount == savedStreak.GetOr(0)
      ensures storedLog == savedLog && storedStreak == savedStreak && showAchievement == None
    {
      userAchievements := savedLog.GetOr([]);
      streakCount := savedStreak.GetOr(0);
      totalPoints := TotalPoints(savedLog.GetOr([]));
      storedLog, storedStreak := savedLog, savedStreak;
      showAchievement := None;
    }

    /** awardAchievement: appends the stamped catalogue record, with no
        duplicate check, shows it, recomputes the total and persists the log. */
    method AwardAchievement(a: AchievementId, today: Date)
      requires Valid()
      modifies this
      ensures Valid()
      ensures userAchievements == old(userAchievements) + [Badge(a, today)]
      ensures totalPoints == old(totalPoints) + Badge(a, today).points.value
      ensures showAchievement == Some(Badge(a, today))
      ensures streakCount == old(streakCount) && storedStreak == old(storedStreak)
    {
      var award := Badge(a, today);
      var updated := userAchievements + [award];
      TotalPointsAppend(userAchievements, [award]);
      assert TotalPoints([award]) == award.points.value + TotalPoints([]);
      userAchievements := updated;
      showAchievement := Some(award);
      totalPoints := TotalPoints(updated);
      storedLog := Some(updated);
    }

    /** updateSavingStreak: a kept month extends the streak and, from three
        on, awards SAVING_STREAK; a missed month resets it to 0. */
    method UpdateSavingStreak(maintained: bool, today: Date)
      requires Valid()
      modifies this
      ensures Valid()
      ensures streakCount == if maintained then old(streakCount) + 1 else 0
      ensures maintained && old(streakCount) + 1 >= 3 ==>
                userAchievements == old(userAchievements) + [Badge(SavingStreak, today)]
      ensures !(maintained && old(streakCount) + 1 >= 3) ==>
                userAchievements == old(userAchievements) && showAchievement == old(showAchievement)
    {
      if maintained {
        var newStreak := streakCount + 1;
        streakCount := newStreak;
        storedStreak := Some(newStreak);
        if newStreak >= 3 {
          AwardAchievement(SavingStreak, today);
        }
      } else {
        streakCount := 0;
        storedStreak := Some(0);
      }
    }

    /** checkStreakAchievements: awards SAVING_STREAK only while the streak is
        at least 3 and the badge was not yet awarded this month. */
    method CheckStreakAchievements(today: Date)
      requires Valid()
      modifies this
      ensures Valid()
      ensures streakCount == old(streakCount)
      ensures old(streakCount) >= 3 && !HasAchievement(old(userAchievements), SavingStreak, today) ==>
                userAchievements == old(userAchievements) + [Badge(SavingStreak, today)]
      ensures !(old(streakCount) >= 3 && !HasAchievement(old(userAchievements), SavingStreak, today)) ==>
                userAchievements == old(userAchievements) && showAchievement == old(showAchievement)
      ensures streakCount >= 3 ==> HasAchievement(userAchievements, SavingStreak, today)
    {
      if streakCount >= 3 && !HasAchievement(userAchievements, SavingStreak, today) {
        AwardAchievement(SavingStreak, today);
        assert userAchievements[|userAchievements| - 1] == Badge(SavingStreak, today);
      }
    }

    /** checkMonthlyAchievements: the budget rule, then the 20% rule with the
        streak update, then the 50% rule, on the month of `today`. */
    method CheckMonthlyAchievements(budgets: seq<Budget>, expenses: seq<Transaction>,
                                    incomes: seq<Transaction>, today: Date)
      requires Valid()
      modifies this
      ensures Valid()
      ensures userAchievements == MonthlyLog(old(userAchievements), MonthlyVerdict(budgets, expenses, incomes, today),
                                             old(streakCount), today)
      ensures streakCount == StreakAfterMonth(budgets, expenses, incomes, old(streakCount), today)
    {
      var v := MonthlyVerdict(budgets, expenses, incomes, today);
      ghost var log0 := userAchievements;
      if v.within {
        AwardAchievement(MonthlyBudgetMaster, today);
      }
      ghost var log1 := userAchievements;
      if v.star {
        AwardAchievement(MonthlySavingStar, today);
        UpdateSavingStreak(true, today);
      } else {
        UpdateSavingStreak(false, today);
      }
      if v.premium {
        AwardAchievement(MonthlyPremiumSaver, today);
      }
    }

    /** checkYearlyAchievements: awards YEARLY_BUDGET_MASTER once the log holds
        twelve or more MONTHLY_BUDGET_MASTER entries from the current year. */
    method CheckYearlyAchievements(today: Date)
      requires Valid()
      modifies this
      ensures Valid()
      ensures streakCount == old(streakCount)
      ensures userAchievements == YearlyLog(old(userAchievements), today)
    {
      if MonthlyMastersIn(userAchievements, today.year) >= 12 {
        AwardAchievement(YearlyBudgetMaster, today);
      }
    }

    /** The effect run whenever budgets, expenses or incomes change: monthly
        rules on the last day of the month, yearly rules only at the very last
        millisecond of the year, the streak rule every time. */
    method Evaluate(budgets: seq<Budget>, expenses: seq<Transaction>, incomes: seq<Transaction>, now: Instant)
      requires Valid()
      modifies this
      ensures Valid()
      ensures !IsLastDayOfMonth(now.date) ==>
                streakCount == old(streakCount)
                && userAchievements == old(userAchievements)
                   + (if old(streakCount) >= 3 && !HasAchievement(old(userAchievements), SavingStreak, now.date)
                      then [Badge(SavingStreak, now.date)] else [])
      ensures IsLastDayOfMonth(now.date) ==>
                streakCount == StreakAfterMonth(budgets, expenses, incomes, old(streakCount), now.date)
      ensures IsLastDayOfMonth(now.date) ==>
                var l1 := MonthlyLog(old(userAchievements), MonthlyVerdict(budgets, expenses, incomes, now.date),
                                     old(streakCount), now.date);
                var l2 := if now == EndOfYear(now.date) then YearlyLog(l1, now.date) else l1;
                userAchievements == l2
                  + (if StreakAfterMonth(budgets, expenses, incomes, old(streakCount), now.date) >= 3
                        && !HasAchievement(l2, SavingStreak, now.date)
                     then [Badge(SavingStreak, now.date)] else [])
      ensures old(userAchievements) <= userAchievements
      ensures streakCount >= 3 ==> HasAchievement(userAchievements, SavingStreak, now.date)
    {
      var today := now.date;
      ghost var log0 := userAchievements;
      if IsLastDayOfMonth(today) {
        CheckMonthlyAchievements(budgets, expenses, incomes, today);
      }
      ghost var log1 := userAchievements;
      assert log0 <= log1;
      if now == EndOfYear(today) {
        YearEndIsMonthEnd(now);
        CheckYearlyAchievements(today);
      }
      ghost var log2 := userAchievements;
      assert log1 <= log2;
      CheckStreakAchievements(today);
      assert log2 <= userAchievements;
    }
  }

  /** The year-end instant falls on the last day of December, so whenever the
      yearly rule runs the monthly rules have just run. */
  lemma YearEndIsMonthEnd(now: Instant)
    requires now == EndOfYear(now.date)
    ensures IsLastDayOfMonth(now.date) && now.date.month == 12
  {
  }

  /** Awarding one badge adds one to this year's monthly-master count when it
      is MONTHLY_BUDGET_MASTER and nothing otherwise. */
  lemma MonthlyMastersInSnoc(log: seq<Award>, a: AchievementId, date: Date)
    ensures MonthlyMastersIn(log + [Badge(a, date)], date.year)
            == MonthlyMastersIn(log, date.year) + (if a == MonthlyBudgetMaster then 1 else 0)
  {
    MonthlyMastersInAppend(log, [Badge(a, date)], date.year);
    CatalogueIsWellFormed(a, MonthlyBudgetMaster, date);
    assert [Badge(a, date)][1..] == [];
  }

  /** A month-end check raises this year's monthly-master count by one when
      every budget was kept and leaves it unchanged otherwise. */
  lemma MonthlyLogCountsMastery(log: seq<Award>, v: Verdict, streak: int, today: Date)
    ensures MonthlyMastersIn(MonthlyLog(log, v, streak, today), today.year)
            == MonthlyMastersIn(log, today.year) + (if v.within then 1 else 0)
  {
    var l1 := if v.within then log + [Badge(MonthlyBudgetMaster, today)] else log;
    if v.within {
      MonthlyMastersInSnoc(log, MonthlyBudgetMaster, today);
    }
    var l2 := l1;
    if v.star {
      MonthlyMastersInSnoc(l1, MonthlySavingStar, today);
      l2 := l1 + [Badge(MonthlySavingStar, today)];
      if streak + 1 >= 3 {
        MonthlyMastersInSnoc(l2, SavingStreak, today);
        l2 := l2 + [Badge(SavingStreak, today)];
      }
    }
    if v.premium {
      MonthlyMastersInSnoc(l2, MonthlyPremiumSaver, today);
    }
  }

  /** At the year-end run the yearly badge is appended exactly when the
      monthly-master badges of the year, counting the one the month-end check
      has just awarded, reach twelve: eleven earlier kept months and a kept
      December earn it, eleven kept months in all do not. */
  lemma YearEndAwardsYearly(log: seq<Award>, v: Verdict, streak: int, today: Date)
    ensures var l1 := MonthlyLog(log, v, streak, today);
            var kept := MonthlyMastersIn(log, today.year) + (if v.within then 1 else 0);
            && ((YearlyLog(l1, today) == l1 + [Badge(YearlyBudgetMaster, today)]) <==> kept >= 12)
            && ((YearlyLog(l1, today) == l1) <==> kept < 12)
  {
    var l1 := MonthlyLog(log, v, streak, today);
    MonthlyLogCountsMastery(log, v, streak, today);
    assert |l1 + [Badge(YearlyBudgetMaster, today)]| != |l1|;
  }
}
