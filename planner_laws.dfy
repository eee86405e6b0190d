/**
 * What the deterministic planner promises about every plan it returns: its shape, the
 * template order and dependency chain of the phases, a gap-free timeline of equal windows,
 * where the marketing task goes, and when the date arithmetic overflows.
 *
 * Most lemmas speak about `Assemble(chosen, p, augmented, today)` for any chosen phases
 * and width; `PlanFollowsTemplate` and `MockPlanSucceeds` tie them to the phases and
 * width the planner actually picks and to whole goals.
 */
module PlannerLaws {
  import opened Results
  import opened Calendar
  import opened DurationParser
  import opened Planner

  /** The assembled list has one task per phase, and one more when augmented. */
  lemma AssembleLength(chosen: seq<Phase>, p: nat, augmented: bool, today: Date)
    requires |chosen| > 0
    ensures |Assemble(chosen, p, augmented, today)| == |chosen| + (if augmented then 1 else 0)
  {
  }

  /** The task in position `m`: the marketing task at `n - 1` when augmented, else a phase task. */
  lemma TaskAt(chosen: seq<Phase>, p: nat, augmented: bool, today: Date, m: nat)
    requires 0 < |chosen| && m < |chosen| + (if augmented then 1 else 0)
    ensures |Assemble(chosen, p, augmented, today)| == |chosen| + (if augmented then 1 else 0)
    ensures Assemble(chosen, p, augmented, today)[m] ==
      if augmented && m == |chosen| - 1 then MarketingTask(chosen, p, today)
      else PhaseTask(chosen, if augmented && m == |chosen| then |chosen| - 1 else m, p, today)
  {
  }

  /** The phase at chosen position `k` is the task in `Slot(n, augmented, k)`. */
  lemma SlotTask(chosen: seq<Phase>, p: nat, augmented: bool, today: Date, k: nat)
    requires k < |chosen|
    ensures Slot(|chosen|, augmented, k) < |Assemble(chosen, p, augmented, today)|
    ensures Assemble(chosen, p, augmented, today)[Slot(|chosen|, augmented, k)] == PhaseTask(chosen, k, p, today)
  {
    TaskAt(chosen, p, augmented, today, Slot(|chosen|, augmented, k));
  }

  /**
   * The phases keep their order, titles and descriptions; each depends on the one before it
   * (the first on nothing), and no task carries a note.
   */
  lemma PhasesInOrder(chosen: seq<Phase>, p: nat, augmented: bool, today: Date)
    requires |chosen| > 0
    ensures var tasks := Assemble(chosen, p, augmented, today);
      forall k :: 0 <= k < |chosen| ==>
        Slot(|chosen|, augmented, k) < |tasks|
        && tasks[Slot(|chosen|, augmented, k)].title == chosen[k].title
        && tasks[Slot(|chosen|, augmented, k)].description == chosen[k].description
        && tasks[Slot(|chosen|, augmented, k)].dependsOn == (if k == 0 then "" else chosen[k - 1].title)
    ensures forall t :: t in Assemble(chosen, p, augmented, today) ==> t.llmNote.None?
  {
    var tasks := Assemble(chosen, p, augmented, today);
    forall k | 0 <= k < |chosen|
      ensures Slot(|chosen|, augmented, k) < |tasks|
      ensures tasks[Slot(|chosen|, augmented, k)] == PhaseTask(chosen, k, p, today)
    {
      SlotTask(chosen, p, augmented, today, k);
    }
    forall m | 0 <= m < |tasks| ensures tasks[m].llmNote.None? {
      TaskAt(chosen, p, augmented, today, m);
    }
  }

  /** Phase `k` of the chosen ones runs `p` days, from `today + k * p`. */
  lemma PhaseWindows(chosen: seq<Phase>, p: nat, augmented: bool, today: Date)
    requires |chosen| > 0
    ensures var tasks := Assemble(chosen, p, augmented, today);
      forall k :: 0 <= k < |chosen| ==>
        Slot(|chosen|, augmented, k) < |tasks|
        && tasks[Slot(|chosen|, augmented, k)].startDate == today + k * p
        && tasks[Slot(|chosen|, augmented, k)].endDate - tasks[Slot(|chosen|, augmented, k)].startDate + 1 == p
  {
    forall k | 0 <= k < |chosen|
      ensures Slot(|chosen|, augmented, k) < |Assemble(chosen, p, augmented, today)|
      ensures Assemble(chosen, p, augmented, today)[Slot(|chosen|, augmented, k)] == PhaseTask(chosen, k, p, today)
    {
      SlotTask(chosen, p, augmented, today, k);
    }
  }

  /**
   * The phases tile the calendar from `today` without gaps or overlaps: each starts the day
   * after the one before it ends, and the last one (which stays last) ends `n * p - 1` days
   * after `today`.
   */
  lemma TimelineContiguous(chosen: seq<Phase>, p: nat, augmented: bool, today: Date)
    requires |chosen| >= 2
    ensures var tasks := Assemble(chosen, p, augmented, today);
      var n := |chosen|;
      |tasks| > 0
      && tasks[0].startDate == today
      && (forall k :: 0 < k < n ==>
            Slot(n, augmented, k) < |tasks|
            && tasks[Slot(n, augmented, k)].startDate == tasks[Slot(n, augmented, k - 1)].endDate + 1)
      && tasks[|tasks| - 1].endDate == today + n * p - 1
  {
    var n := |chosen|;
    var tasks := Assemble(chosen, p, augmented, today);
    forall k | 0 < k < n
      ensures Slot(n, augmented, k) < |tasks|
      ensures tasks[Slot(n, augmented, k)].startDate == tasks[Slot(n, augmented, k - 1)].endDate + 1
    {
      SlotTask(chosen, p, augmented, today, k);
      SlotTask(chosen, p, augmented, today, k - 1);
      assert (k - 1 + 1) * p == k * p;
    }
    SlotTask(chosen, p, augmented, today, 0);
    SlotTask(chosen, p, augmented, today, n - 1);
  }

  /**
   * The marketing task appears exactly when asked for (provided no phase already bears its
   * title). It then sits just before the last phase, runs from one phase width after
   * `today` to two widths after it, and depends on the first phase, as the second phase does.
   */
  lemma MarketingPlacement(chosen: seq<Phase>, p: nat, augmented: bool, today: Date)
    requires |chosen| >= 3
    requires forall k :: 0 <= k < |chosen| ==> chosen[k].title != MARKETING_PREP.title
    ensures var tasks := Assemble(chosen, p, augmented, today);
      var n := |chosen|;
      augmented ==>
        |tasks| == n + 1
        && tasks[n - 1] == Task(MARKETING_PREP.title, MARKETING_PREP.description, today + p, today + 2 * p, tasks[0].title, None)
        && tasks[n - 1].dependsOn == tasks[1].dependsOn
        && tasks[n] == PhaseTask(chosen, n - 1, p, today)
    ensures var tasks := Assemble(chosen, p, augmented, today);
      (exists m :: 0 <= m < |tasks| && tasks[m].title == MARKETING_PREP.title) <==> augmented
  {
    var n := |chosen|;
    var tasks := Assemble(chosen, p, augmented, today);
    TaskAt(chosen, p, augmented, today, 0);
    TaskAt(chosen, p, augmented, today, 1);
    if augmented {
      TaskAt(chosen, p, augmented, today, n - 1);
      TaskAt(chosen, p, augmented, today, n);
      assert tasks[n - 1].title == MARKETING_PREP.title;
    } else {
      forall m | 0 <= m < |tasks| ensures tasks[m].title != MARKETING_PREP.title {
        TaskAt(chosen, p, augmented, today, m);
      }
    }
  }

  /**
   * Dependencies point backwards: only the first task depends on nothing (given non-empty
   * titles), and every other task names a task that comes earlier in the list.
   */
  lemma DependenciesPointBackward(chosen: seq<Phase>, p: nat, augmented: bool, today: Date)
    requires |chosen| >= 2
    requires forall k :: 0 <= k < |chosen| ==> chosen[k].title != ""
    ensures var tasks := Assemble(chosen, p, augmented, today);
      forall m :: 0 <= m < |tasks| ==> (tasks[m].dependsOn == "" <==> m == 0)
    ensures var tasks := Assemble(chosen, p, augmented, today);
      forall m :: 0 < m < |tasks| ==> exists l :: 0 <= l < m && tasks[l].title == tasks[m].dependsOn
  {
    var n := |chosen|;
    var tasks := Assemble(chosen, p, augmented, today);
    AssembleLength(chosen, p, augmented, today);
    forall m | 0 <= m < |tasks|
      ensures (tasks[m].dependsOn == "" <==> m == 0)
      ensures m > 0 ==> exists l :: 0 <= l < m && tasks[l].title == tasks[m].dependsOn
    {
      TaskAt(chosen, p, augmented, today, m);
      TaskAt(chosen, p, augmented, today, 0);
      if augmented && m == n - 1 {
        assert tasks[0].title == tasks[m].dependsOn;
      } else {
        // Task `m` is phase `k`, and the phase before it sits at position `k - 1`.
        var k := if augmented && m == n then n - 1 else m;
        if k > 0 {
          TaskAt(chosen, p, augmented, today, k - 1);
          assert tasks[k - 1].title == tasks[m].dependsOn;
        }
      }
    }
  }

  /**
   * Every window is well formed: it starts no earlier than `today`, ends no earlier than it
   * starts and no later than the horizon.
   */
  lemma WindowsWithinHorizon(chosen: seq<Phase>, p: nat, augmented: bool, today: Date)
    requires |chosen| > 0 && p >= 1
    ensures var tasks := Assemble(chosen, p, augmented, today);
      forall m :: 0 <= m < |tasks| ==>
        today <= tasks[m].startDate <= tasks[m].endDate <= today + HorizonOf(|chosen|, p, augmented)
  {
    var n := |chosen|;
    var tasks := Assemble(chosen, p, augmented, today);
    AssembleLength(chosen, p, augmented, today);
    forall m | 0 <= m < |tasks|
      ensures today <= tasks[m].startDate <= tasks[m].endDate <= today + HorizonOf(n, p, augmented)
    {
      TaskAt(chosen, p, augmented, today, m);
      if augmented && m == n - 1 {
        WithinHorizon(n, p, augmented, 1);
      } else {
        var k := if augmented && m == n then n - 1 else m;
        WithinHorizon(n, p, augmented, k + 1);
      }
    }
  }

  /**
   * The planner's own choice satisfies the laws' assumptions: four or six template entries,
   * in template order, with non-empty titles none of which is "Marketing prep", and a width
   * of at least one day that uses all but fewer than `n` days of the duration.
   */
  lemma PlanFollowsTemplate(days: nat)
    ensures var chosen := ChosenPhases(days);
      var n := |chosen|;
      var p := PerTaskDays(days, n);
      (n == 6 <==> days >= 10) && (n == 4 <==> days < 10)
      && (forall k :: 0 <= k < n ==> chosen[k] == Phase(TemplateTitle(k), TemplateDescription(k)))
      && (forall k :: 0 <= k < n ==> chosen[k].title != "" && chosen[k].title != MARKETING_PREP.title)
      && p >= 1
      && (days >= n ==> n * p <= days < n * p + n)
      && (days < n ==> p == 1)
  {
    var chosen := ChosenPhases(days);
    TemplateTitles();
    forall k | 0 <= k < |chosen|
      ensures chosen[k] == Phase(TemplateTitle(k), TemplateDescription(k))
    {
      assert chosen[k] == Template()[k];
    }
  }

  /** A successful plan has four or six phases (by duration) plus the marketing task when augmented. */
  lemma PlanShape(days: nat, augmented: bool, today: Date)
    requires IsDate(today) && Timeline(days, augmented, today).Ok?
    ensures var tasks := Timeline(days, augmented, today).value;
      |tasks| == (if days >= 10 then 6 else 4) + (if augmented then 1 else 0)
      && 4 <= |tasks| <= 7
  {
    var chosen := ChosenPhases(days);
    AssembleLength(chosen, PerTaskDays(days, |chosen|), augmented, today);
  }

  /**
   * The horizon is at least three days and never beyond the duration (or three days, for
   * durations under three).
   */
  lemma HorizonBounds(days: nat, augmented: bool)
    ensures var n := |ChosenPhases(days)|;
      var h := HorizonOf(n, PerTaskDays(days, n), augmented);
      3 <= h <= (if days < 3 then 3 else days)
  {
    var n := |ChosenPhases(days)|;
    var p := PerTaskDays(days, n);
    assert n <= p * n;
    assert 2 * p <= n * p;
  }

  /** Every date of a successful timeline is a representable day. */
  lemma TimelineDates(days: nat, augmented: bool, today: Date)
    requires IsDate(today) && Timeline(days, augmented, today).Ok?
    ensures forall t :: t in Timeline(days, augmented, today).value ==> IsDate(t.startDate) && IsDate(t.endDate)
  {
    var chosen := ChosenPhases(days);
    WindowsWithinHorizon(chosen, PerTaskDays(days, |chosen|), augmented, today);
  }

  /**
   * The deterministic planner fails exactly when the deadline or a task date would pass the
   * last representable day: precisely when `today` plus the duration (at least three days)
   * does. Then every task date is a representable day.
   */
  lemma MockPlanSucceeds(goal: string, today: Date)
    requires IsDate(today)
    ensures var days := GoalDays(goal);
      MockPlan(goal, today).Ok? <==> today + (if days < 3 then 3 else days) <= MAX_ORDINAL
    ensures MockPlan(goal, today).Err? ==> MockPlan(goal, today).error == DateOverflow
    ensures MockPlan(goal, today).Ok? ==>
      forall t :: t in MockPlan(goal, today).value ==> IsDate(t.startDate) && IsDate(t.endDate)
  {
    var days := GoalDays(goal);
    var augmented := Augments(goal);
    HorizonBounds(days, augmented);
    var parsed := ParseGoalDuration(goal, today);
    if parsed.Ok? {
      assert MockPlan(goal, today) == Timeline(days, augmented, today);
      if Timeline(days, augmented, today).Ok? {
        TimelineDates(days, augmented, today);
      }
    }
  }

  /**
   * The laws stated directly about the plan for a goal: 4 or 6 phase tasks by duration, the
   * "Marketing prep" task present exactly for product-marketing goals, only the first task
   * without a dependency, and every other dependency naming an earlier task.
   */
  lemma MockPlanLaws(goal: string, today: Date)
    requires IsDate(today) && MockPlan(goal, today).Ok?
    ensures var tasks := MockPlan(goal, today).value;
      |tasks| == (if GoalDays(goal) >= 10 then 6 else 4) + (if Augments(goal) then 1 else 0)
    ensures var tasks := MockPlan(goal, today).value;
      (exists m :: 0 <= m < |tasks| && tasks[m].title == MARKETING_PREP.title) <==> Augments(goal)
    ensures var tasks := MockPlan(goal, today).value;
      forall m :: 0 <= m < |tasks| ==> (tasks[m].dependsOn == "" <==> m == 0)
    ensures var tasks := MockPlan(goal, today).value;
      forall m :: 0 < m < |tasks| ==> DependsOnEarlier(tasks, m)
  {
    var days := GoalDays(goal);
    var augmented := Augments(goal);
    var chosen := ChosenPhases(days);
    var p := PerTaskDays(days, |chosen|);
    var tasks := MockPlan(goal, today).value;
    MockPlanIsAssemble(goal, today);
    PlanFollowsTemplate(days);
    AssembleLength(chosen, p, augmented, today);
    MarketingPlacement(chosen, p, augmented, today);
    DependenciesPointBackward(chosen, p, augmented, today);
    forall m | 0 < m < |tasks|
      ensures DependsOnEarlier(tasks, m)
    {
      var l :| 0 <= l < m && tasks[l].title == tasks[m].dependsOn;
    }
  }

  /** Task `m` depends on the title of some task before it. */
  ghost predicate DependsOnEarlier(tasks: seq<Task>, m: nat)
    requires m < |tasks|
  {
    exists l :: 0 <= l < m && tasks[l].title == tasks[m].dependsOn
  }

  /** A plan the planner accepts is the list assembled from its chosen phases and width. */
  lemma MockPlanIsAssemble(goal: string, today: Date)
    requires IsDate(today) && MockPlan(goal, today).Ok?
    ensures var days := GoalDays(goal);
      var chosen := ChosenPhases(days);
      MockPlan(goal, today).value == Assemble(chosen, PerTaskDays(days, |chosen|), Augments(goal), today)
  {
    assert ParseGoalDuration(goal, today).Ok?;
  }
}
