/**
 * Plan generation (`build_prompt`, `generate_plan`): route a goal either to the external
 * language model or to the deterministic planner, falling back to the planner whenever
 * the external route fails.
 *
 * The HTTP request of `call_openai` and the JSON decoder are parameters: `callModel`
 * stands for the whole request (every error it can raise becomes `Failed`), and
 * `parseJson` for `json.loads` (every error it can raise becomes `Unparseable`).
 */
module Orchestrator {
  import opened Results
  import opened Text
  import opened Calendar
  import opened Planner
  import DurationParser
  import PlannerLaws

  /** What `await call_openai(prompt)` does: raise, or return the reply's message content. */
  datatype CallOutcome = Failed | Reply(content: string)

  /** What `json.loads(reply)` does: return a decoded JSON value, or raise. */
  datatype ParseOutcome<J> = Parsed(value: J) | Unparseable

  /** What `generate_plan` returns: the decoded reply as is, or a list of planner tasks. */
  datatype PlanOutput<J> = External(value: J) | Deterministic(tasks: seq<Task>)

  /** The length of the reply excerpt kept as the debug note (`reply[:400]`). */
  const NOTE_LIMIT := 400

  /** The fixed text in front of the goal in the prompt. */
  const PROMPT_HEAD: string :=
    "Break down this user goal into an actionable task list. "
    + "Include for each task: title, short description, estimated start date and end date (ISO YYYY-MM-DD), and dependencies (titles). "
    + "If the goal includes a duration (e.g., 'in 2 weeks'), use that to set deadlines. "
    + "Goal: "

  /** The fixed text after the goal in the prompt. */
  const PROMPT_TAIL: string :=
    "\n" + "Return as JSON array of objects with keys: title, description, start_date, end_date, depends_on."

  /** `build_prompt(goal)`: the instructions, the goal, and the requested output format. */
  function BuildPrompt(goal: string): (prompt: string)
    ensures |prompt| == |PROMPT_HEAD| + |goal| + |PROMPT_TAIL|
    ensures PROMPT_HEAD <= prompt && prompt[|PROMPT_HEAD|..|PROMPT_HEAD| + |goal|] == goal
    ensures prompt[|PROMPT_HEAD| + |goal|..] == PROMPT_TAIL
  {
    PROMPT_HEAD + goal + PROMPT_TAIL
  }

  /** Reads the goal back out of a prompt: the text between the fixed head and tail. */
  function PromptGoal(prompt: string): (goal: Option<string>)
    ensures goal.Some? ==> |PROMPT_HEAD| + |goal.value| + |PROMPT_TAIL| == |prompt|
  {
    if |prompt| >= |PROMPT_HEAD| + |PROMPT_TAIL| && PROMPT_HEAD <= prompt
       && prompt[|prompt| - |PROMPT_TAIL|..] == PROMPT_TAIL
    then Some(prompt[|PROMPT_HEAD|..|prompt| - |PROMPT_TAIL|])
    else None
  }

  /** The goal can be read back from its prompt, so different goals give different prompts. */
  lemma PromptRoundTrip(goal: string, other: string)
    ensures PromptGoal(BuildPrompt(goal)) == Some(goal)
    ensures BuildPrompt(goal) == BuildPrompt(other) ==> goal == other
  {
    var prompt := BuildPrompt(goal);
    assert prompt[|prompt| - |PROMPT_TAIL|..] == PROMPT_TAIL;
    assert prompt[|PROMPT_HEAD|..|prompt| - |PROMPT_TAIL|] == goal;
    var otherPrompt := BuildPrompt(other);
    assert otherPrompt[|otherPrompt| - |PROMPT_TAIL|..] == PROMPT_TAIL;
    assert otherPrompt[|PROMPT_HEAD|..|otherPrompt| - |PROMPT_TAIL|] == other;
  }

  /** `s[:limit]`: the first `limit` characters, or all of `s` when it is shorter. */
  function Truncate(s: string, limit: nat): (r: string)
    ensures r <= s
    ensures |r| == if |s| < limit then |s| else limit
  {
    if |s| < limit then s else s[..limit]
  }

  /** `t.setdefault("llm_note", note)`: a task that has no note gets `note`; nothing else changes. */
  function WithDefaultNote(t: Task, note: string): Task {
    if t.llmNote.None? then t.(llmNote := Some(note)) else t
  }

  /**
   * The fallback loop of `generate_plan`: `setdefault` the note on every task of the plan,
   * in order.
   */
  method AnnotatePlan(plan: seq<Task>, note: string) returns (annotated: seq<Task>)
    ensures |annotated| == |plan|
    ensures forall i :: 0 <= i < |plan| ==> annotated[i] == WithDefaultNote(plan[i], note)
  {
    annotated := [];
    var i := 0;
    while i < |plan|
      invariant 0 <= i <= |plan|
      invariant |annotated| == i
      invariant forall k :: 0 <= k < i ==> annotated[k] == WithDefaultNote(plan[k], note)
    {
      annotated := annotated + [WithDefaultNote(plan[i], note)];
      i := i + 1;
    }
  }

  /**
   * A note only fills an empty slot: every field but the note is kept, an existing note is
   * kept, and a task without one gets exactly `note`.
   */
  lemma DefaultNoteKeepsTask(t: Task, note: string)
    ensures var u := WithDefaultNote(t, note);
      u.title == t.title && u.description == t.description && u.startDate == t.startDate
      && u.endDate == t.endDate && u.dependsOn == t.dependsOn
      && u.llmNote == (if t.llmNote.Some? then t.llmNote else Some(note))
    ensures WithDefaultNote(WithDefaultNote(t, note), note) == WithDefaultNote(t, note)
  {
  }

  /**
   * `generate_plan(goal_text, use_openai)` with `OPENAI_KEY` set exactly when `keyPresent`.
   * The goal is stripped first. With the flag and a key, the prompt for the stripped goal
   * goes to the model: a reply that decodes is returned as is; a reply that does not gives
   * the deterministic plan with the first 400 characters of the reply as every task's note;
   * a failed call gives the plain deterministic plan. Without the flag or the key the
   * deterministic plan is returned directly. The planner's own `OverflowError` escapes
   * every route (in the undecodable-reply route it is caught once, and the retry raises it
   * again).
   */
  method GeneratePlan<J>(goalText: string, useOpenai: bool, keyPresent: bool,
                         callModel: string -> CallOutcome, parseJson: string -> ParseOutcome<J>,
                         today: Date)
    returns (r: Result<PlanOutput<J>, Error>)
    requires IsDate(today)
    ensures var goal := Strip(goalText);
      !(useOpenai && keyPresent) ==> r == Lift(MockPlan(goal, today))
    ensures var goal := Strip(goalText);
      useOpenai && keyPresent && callModel(BuildPrompt(goal)).Failed? ==> r == Lift(MockPlan(goal, today))
    ensures var goal := Strip(goalText);
      var reply := callModel(BuildPrompt(goal));
      useOpenai && keyPresent && reply.Reply? && parseJson(reply.content).Parsed? ==>
        r == Ok(External(parseJson(reply.content).value))
    ensures var goal := Strip(goalText);
      var reply := callModel(BuildPrompt(goal));
      useOpenai && keyPresent && reply.Reply? && parseJson(reply.content).Unparseable? ==>
        (r.Ok? <==> MockPlan(goal, today).Ok?)
        && (r.Err? ==> r.error == DateOverflow)
        && (r.Ok? ==>
              r.value.Deterministic?
              && |r.value.tasks| == |MockPlan(goal, today).value|
              && forall i :: 0 <= i < |r.value.tasks| ==>
                   r.value.tasks[i] == MockPlan(goal, today).value[i].(llmNote := Some(Truncate(reply.content, NOTE_LIMIT))))
  {
    var goal := Strip(goalText);
    if !(useOpenai && keyPresent) {
      var plan := MockLlmReasoning(goal, today);
      return Lift(plan);
    }
    var prompt := BuildPrompt(goal);
    var reply := callModel(prompt);
    if reply.Failed? {
      var plan := MockLlmReasoning(goal, today);
      return Lift(plan);
    }
    var parsed := parseJson(reply.content);
    if parsed.Parsed? {
      return Ok(External(parsed.value));
    }
    var plan := MockLlmReasoning(goal, today);
    if plan.Err? {
      // The outer handler retries the planner, which raises the same error again.
      var retry := MockLlmReasoning(goal, today);
      return Lift(retry);
    }
    MockPlanHasNoNotes(goal, today);
    var annotated := AnnotatePlan(plan.value, Truncate(reply.content, NOTE_LIMIT));
    return Ok(Deterministic(annotated));
  }

  /** Wraps the planner's answer as a result of `generate_plan`. */
  function Lift<J>(plan: Result<seq<Task>, Error>): Result<PlanOutput<J>, Error> {
    match plan
    case Ok(tasks) => Ok(Deterministic(tasks))
    case Err(e) => Err(e)
  }

  /** The planner's tasks carry no note yet, so `setdefault` always sets it. */
  lemma MockPlanHasNoNotes(goal: string, today: Date)
    requires IsDate(today)
    ensures MockPlan(goal, today).Ok? ==> forall t :: t in MockPlan(goal, today).value ==> t.llmNote.None?
  {
    if MockPlan(goal, today).Ok? {
      var days := DurationParser.GoalDays(goal);
      var chosen := ChosenPhases(days);
      PlannerLaws.PhasesInOrder(chosen, PerTaskDays(days, |chosen|), Augments(goal), today);
    }
  }
}
