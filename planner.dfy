/**
 * The deterministic planner (`mock_llm_reasoning`): it selects phases from a fixed
 * six-entry template by duration, gives each phase an equal window of whole days, chains
 * the phases by title, and inserts a marketing task for product-marketing goals.
 *
 * Dates are day ordinals (see `Calendar`); `today` is the day `utcnow()` returns, taken as
 * one day for both of the source's calls.
 */
module Planner {
  import opened Results
  import opened Text
  import opened Calendar
  import opened DurationParser

  datatype Phase = Phase(title: string, description: string)

  /** One task record: the keys of the plan's dictionaries, with the optional `llm_note`. */
  datatype Task = Task(
    title: string,
    description: string,
    startDate: Date,
    endDate: Date,
    dependsOn: string,
    llmNote: Option<string>)

  const MARKETING_PREP := Phase("Marketing prep", "Prepare assets, landing page, email sequences and socials.")

  /** The title of entry `k` of the phase template. */
  function TemplateTitle(k: nat): string
    requires k < 6
  {
    match k
    case 0 => "Define scope & success metrics"
    case 1 => "Design & plan"
    case 2 => "Implementation"
    case 3 => "Testing & QA"
    case 4 => "Deployment & Launch"
    case 5 => "Post-launch monitoring"
  }

  /** The description of entry `k` of the phase template. */
  function TemplateDescription(k: nat): string
    requires k < 6
  {
    match k
    case 0 => "Clarify goal, success metrics, target audience, and constraints."
    case 1 => "Create designs, wireframes or implementation plans."
    case 2 => "Develop core functionality and integrate components."
    case 3 => "Test features, fix bugs, and verify performance."
    case 4 => "Deploy to production and run launch checklist."
    case 5 => "Monitor usage, collect feedback, and iterate."
  }

  /** The phase template, in dependency order. */
  function Template(): (phases: seq<Phase>)
    ensures |phases| == 6
  {
    seq(6, k requires 0 <= k < 6 => Phase(TemplateTitle(k), TemplateDescription(k)))
  }

  /** The template's titles are non-empty, distinct, and none is "Marketing prep". */
  lemma TemplateTitles()
    ensures forall i, j :: 0 <= i < j < 6 ==> TemplateTitle(i) != TemplateTitle(j)
    ensures forall i :: 0 <= i < 6 ==> TemplateTitle(i) != "" && TemplateTitle(i) != MARKETING_PREP.title
  {
  }

  /** The phases kept for a duration: the whole template from 10 days on, else its first four. */
  function ChosenPhases(days: nat): (chosen: seq<Phase>)
    ensures |chosen| == (if days >= 10 then 6 else 4)
    ensures chosen == Template()[..|chosen|]
  {
    if days >= 10 then Template() else Template()[..4]
  }

  /**
   * `max(1, days // count)`: the largest whole number of days per phase that fits `count`
   * phases into `days`, but never less than one. Up to `count - 1` days are left unused.
   */
  function PerTaskDays(days: nat, count: nat): (p: nat)
    requires count > 0
    ensures p >= 1
    ensures days >= count ==> p * count <= days < (p + 1) * count
    ensures days < count ==> p == 1
  {
    var q := days / count;
    if q < 1 then 1 else q
  }

  /** The task that loop iteration `i = k + 1` appends for the phase at 0-based position `k`. */
  function PhaseTask(chosen: seq<Phase>, k: nat, p: nat, today: Date): Task
    requires k < |chosen|
  {
    Task(chosen[k].title, chosen[k].description, today + k * p, today + (k + 1) * p - 1,
         if k == 0 then "" else chosen[k - 1].title, None)
  }

  /** The list the loop builds: one task per chosen phase, in order. */
  function Allocation(chosen: seq<Phase>, p: nat, today: Date): seq<Task> {
    seq(|chosen|, k requires 0 <= k < |chosen| => PhaseTask(chosen, k, p, today))
  }

  /** The extra task: one phase width after the start to two widths, anchored on the first phase. */
  function MarketingTask(chosen: seq<Phase>, p: nat, today: Date): Task
    requires |chosen| > 0
  {
    Task(MARKETING_PREP.title, MARKETING_PREP.description, today + p, today + 2 * p, chosen[0].title, None)
  }

  /** `tasks.insert(len(tasks) - 1, t)`: `t` goes just before the last element. */
  function InsertBeforeLast(tasks: seq<Task>, t: Task): (r: seq<Task>)
    requires |tasks| > 0
    ensures |r| == |tasks| + 1
    ensures r[|tasks| - 1] == t && r[|tasks|] == tasks[|tasks| - 1]
    ensures forall k :: 0 <= k < |tasks| - 1 ==> r[k] == tasks[k]
  {
    tasks[..|tasks| - 1] + [t] + tasks[|tasks| - 1..]
  }

  /** The keyword heuristic: the lower-cased goal mentions both "product" and "marketing". */
  predicate Augments(goal: string) {
    Contains(Lower(goal), "product") && Contains(Lower(goal), "marketing")
  }

  /** The task list built from the chosen phases and width, computed on unbounded day numbers. */
  function Assemble(chosen: seq<Phase>, p: nat, augmented: bool, today: Date): seq<Task>
    requires |chosen| > 0
  {
    var tasks := Allocation(chosen, p, today);
    if augmented then InsertBeforeLast(tasks, MarketingTask(chosen, p, today)) else tasks
  }

  /**
   * The furthest day offset a task date reaches with `count` phases of width `p`. The
   * marketing task's end `2p` passes the last phase's end only for fewer than three phases,
   * which the planner never chooses; that branch serves the laws stated for any phase list.
   */
  function HorizonOf(count: nat, p: nat, augmented: bool): int {
    var last := count * p - 1;
    if augmented && 2 * p > last then 2 * p else last
  }

  /**
   * The timeline for a parsed duration: the assembled tasks, or the `OverflowError` raised
   * when some task date would pass the last representable day.
   */
  function Timeline(days: nat, augmented: bool, today: Date): Result<seq<Task>, Error>
    requires IsDate(today)
  {
    var chosen := ChosenPhases(days);
    var p := PerTaskDays(days, |chosen|);
    if today + HorizonOf(|chosen|, p, augmented) <= MAX_ORDINAL then Ok(Assemble(chosen, p, augmented, today))
    else Err(DateOverflow)
  }

  /**
   * `mock_llm_reasoning(goal)` when `utcnow()` is `today`: the plan, or the `OverflowError`
   * raised when the deadline or a task date would pass the last representable day.
   */
  function MockPlan(goal: string, today: Date): Result<seq<Task>, Error>
    requires IsDate(today)
  {
    match ParseGoalDuration(goal, today)
    case Err(e) => Err(e)
    case Ok(d) => Timeline(d.days, Augments(goal), today)
  }

  /** Where the phase at chosen position `k` sits in the plan: the insertion moves only the last one. */
  function Slot(count: nat, augmented: bool, k: nat): nat {
    if augmented && k == count - 1 then k + 1 else k
  }

  /** No task date of the plan lies after the horizon. */
  lemma WithinHorizon(count: nat, p: nat, augmented: bool, i: nat)
    requires 1 <= i <= count && p >= 1
    ensures 0 <= (i - 1) * p <= i * p - 1 <= HorizonOf(count, p, augmented)
    ensures augmented ==> 2 * p <= HorizonOf(count, p, augmented)
  {
    assert i * p <= count * p;
    assert p <= i * p;
  }

  /**
   * The allocation loop of `mock_llm_reasoning`: phase `i` runs from `today + (i-1)*p` to
   * `today + i*p - 1` and depends on the phase before it. Each date computation can raise
   * `OverflowError`.
   */
  method AllocatePhases(chosen: seq<Phase>, p: nat, today: Date) returns (r: Result<seq<Task>, Error>)
    requires IsDate(today) && p >= 1
    ensures r.Ok? <==> |chosen| == 0 || today + |chosen| * p - 1 <= MAX_ORDINAL
    ensures r.Ok? ==> r.value == Allocation(chosen, p, today)
    ensures r.Err? ==> r.error == DateOverflow
  {
    ghost var phaseTasks := Allocation(chosen, p, today);
    var tasks: seq<Task> := [];
    var i := 1;
    while i <= |chosen|
      invariant 1 <= i <= |chosen| + 1
      invariant tasks == phaseTasks[..i - 1]
      invariant today + (i - 1) * p - 1 <= MAX_ORDINAL
    {
      WithinHorizon(|chosen|, p, false, i);
      var startDate := AddDays(today, (i - 1) * p);
      var endDate := AddDays(today, i * p - 1);
      if startDate.Err? || endDate.Err? {
        return Err(DateOverflow);
      }
      var dependsOn := if i == 1 then "" else chosen[i - 2].title;
      var task := Task(chosen[i - 1].title, chosen[i - 1].description, startDate.value, endDate.value, dependsOn, None);
      assert task == phaseTasks[i - 1];
      assert phaseTasks[..i] == phaseTasks[..i - 1] + [task];
      tasks := tasks + [task];
      i := i + 1;
    }
    return Ok(tasks);
  }

  /**
   * The body of `mock_llm_reasoning` after the duration is parsed: the allocation loop, then
   * the marketing task inserted before the last phase, whose dates can also overflow.
   */
  method BuildTimeline(days: nat, augmented: bool, today: Date) returns (r: Result<seq<Task>, Error>)
    requires IsDate(today)
    ensures r == Timeline(days, augmented, today)
  {
    var chosen := ChosenPhases(days);
    var p := PerTaskDays(days, |chosen|);
    WithinHorizon(|chosen|, p, augmented, |chosen|);
    r := AllocatePhases(chosen, p, today);
    if r.Err? {
      return;
    }
    var tasks := r.value;
    if augmented {
      var startDate := AddDays(today, p);
      var endDate := AddDays(today, 2 * p);
      if startDate.Err? || endDate.Err? {
        return Err(DateOverflow);
      }
      var prep := Task(MARKETING_PREP.title, MARKETING_PREP.description, startDate.value, endDate.value, chosen[0].title, None);
      assert prep == MarketingTask(chosen, p, today);
      tasks := InsertBeforeLast(tasks, prep);
    }
    return Ok(tasks);
  }

  /** `mock_llm_reasoning(goal)`: parse the duration (its deadline can overflow), then build the timeline. */
  method MockLlmReasoning(goal: string, today: Date) returns (r: Result<seq<Task>, Error>)
    requires IsDate(today)
    ensures r == MockPlan(goal, today)
  {
    var duration := ParseGoalDuration(goal, today);
    if duration.Err? {
      return Err(duration.error);
    }
    r := BuildTimeline(duration.value.days, Augments(goal), today);
  }
}
