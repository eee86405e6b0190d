# Smart Task Planner: task decomposition and timeline engine

This project models the planning core of the Smart Task Planner backend (`task_logic.py`)
in Dafny and proves properties of it. Given a free-text goal, the engine does three things:

- It infers a duration. The first `<number> <unit>` phrase gives days, weeks or months;
  without one, a keyword fallback gives 14 or 30 days.
- It picks four or six phases from a fixed template.
- It gives each phase an equal window of whole days starting today, and chains the phases
  by title. Goals that mention both "product" and "marketing" get an extra
  "Marketing prep" task just before the last phase.

`generate_plan` can send a prompt to an external language model instead. It falls back to
the deterministic planner when the call fails. When the reply is not JSON, it returns the
deterministic plan with an excerpt of the reply attached to every task.

Modules, one file each:

- `Results` (`results.dfy`): the `Option` and `Result` wrappers.
- `Text` (`text.dfy`): the ASCII character classes Python uses here, `lower`, substring
  containment (`in`) and `strip`.
- `Calendar` (`calendar.dfy`): days as proleptic Gregorian ordinals (`date.toordinal()`),
  from 0001-01-01 (1) to 9999-12-31 (3652059), and `date + timedelta(days=n)` with the
  `OverflowError` past the last day.
- `DurationParser` (`duration.dfy`): `parse_goal_duration`. The regular-expression search
  `(\d+)\s*(day|days|week|weeks|month|months)` is modelled the way the regex engine searches: it tries
  each start position, takes the greedy digit run and the greedy whitespace run, and then
  the first unit alternative that fits. The lemmas show that this greedy match is found
  exactly where the pattern matches at all, and that the first match is the leftmost one.
- `Planner` (`planner.dfy`): `mock_llm_reasoning`. It covers the template, the phase
  choice, the width per phase, the allocation loop (a `while` loop over the phases) and
  the marketing insertion.
- `PlannerLaws` (`planner_laws.dfy`): what every plan satisfies. It covers the shape, the
  template order, the dependency chain, gap-free equal windows, marketing placement,
  windows within the horizon, and the exact overflow condition.
- `Orchestrator` (`orchestrator.dfy`): `build_prompt` and `generate_plan`. The model call
  and `json.loads` are function parameters. The setdefault loop is a `while` loop.

Two behaviours of `task_logic.py` a caller may not expect:

- The engine is not total. Python's `datetime` raises `OverflowError` when the deadline or
  a task date would pass 9999-12-31. The model returns `Err(DateOverflow)` in exactly those
  cases; see `PlannerLaws.MockPlanSucceeds` for the condition.
- A duration of zero days is accepted (for example "0 days"). It gives a deadline of
  today, and every phase gets the minimum width of one day.

## Model

| member | source | states |
|---|---|---|
| `Text.IsDigit` | task_logic.py:27 | `\d` on ASCII: the ten decimal digits. Not contracted; the pattern lemmas use it. |
| `Text.IsSpace` | task_logic.py:27 | `\s` on ASCII: space, `\t` to `\r` and 0x1C to 0x1F. Not contracted; the pattern lemmas and `Text.TrimStart`/`Text.TrimEnd` use it. |
| `Text.Lower` | task_logic.py:24 | `lower()`: same length, every upper-case ASCII letter becomes its lower-case letter (code point + 32), and every other character is kept. |
| `Text.Contains` | task_logic.py:40 | The substring test `sub in s`; `Text.ContainsIffOccurs` states its meaning. |
| `Text.ContainsIffOccurs` | task_logic.py:40 | The substring test `sub in s` holds exactly when `sub` occurs at some index of `s`. |
| `Text.TrimStart` | task_logic.py:133 | Leading strip: the result is a suffix of the input, everything removed is whitespace, and the result does not start with whitespace. |
| `Text.TrimEnd` | task_logic.py:133 | Trailing strip: the result is a prefix of the input, everything removed is whitespace, and the result does not end with whitespace. |
| `Text.Strip` | task_logic.py:133 | `strip()`: the result is the contiguous piece of the goal left after removing whitespace only, from the front and the back, and it neither starts nor ends with whitespace. |
| `Text.StripIdempotent` | task_logic.py:133 | Stripping a stripped goal changes nothing. |
| `Calendar.AddDays` | task_logic.py:37 | `now + timedelta(days=n)` succeeds exactly when the day stays within 9999-12-31, and then lies `n` days later. |
| `DurationParser.PatternAt` | task_logic.py:27 | The search pattern as a relation on positions: one or more digits, then optional whitespace, then one of the six unit words. Not contracted; `DurationParser.PatternImpliesMatch`, `DurationParser.FirstMatchIsLeftmost`, `DurationParser.FirstPhraseDecides` and `DurationParser.NoPatternFallback` are stated with it. |
| `DurationParser.RunEnd` | task_logic.py:27 | A greedy `\d+` or `\s*` run: every character in the run is in the class, and the next one is not. |
| `DurationParser.FirstAlternative` | task_logic.py:27 | The alternation picks the first unit word, in pattern order, that the text starts with (so "days" yields group "day"); it fails only when no alternative fits. |
| `DurationParser.MatchAt` | task_logic.py:27 | The regex engine's attempt at one start position: greedy digits, greedy whitespace, first unit alternative. `DurationParser.MatchIsPattern` and `DurationParser.PatternImpliesMatch` state what it finds. |
| `DurationParser.MatchIsPattern` | task_logic.py:27 | Every match the engine reports at a position is a match of the pattern that starts there. |
| `DurationParser.FindMatch` | task_logic.py:27 | `re.search` reports a digit group that lies inside the text and is not empty. |
| `DurationParser.FindMatchIsFirst` | task_logic.py:27 | The search result is the match at its start, no earlier position matches, and "no match" means no position matches. |
| `DurationParser.PatternImpliesMatch` | task_logic.py:27 | Backtracking never helps. Wherever the pattern matches at all, the greedy match succeeds there with the same digits, the same whitespace and a unit of the same multiplier. |
| `DurationParser.FirstMatchIsLeftmost` | task_logic.py:27 | The match found starts at the least position at which the pattern matches. |
| `DurationParser.FirstMatchStartsDigitRun` | task_logic.py:27 | The number of the first match is a whole digit run: no digit comes right before it. |
| `DurationParser.DecimalValue` | task_logic.py:29 | `int(m.group(1))` on a run of ASCII digits, read most significant digit first. Not contracted. |
| `DurationParser.UnitFactor` | task_logic.py:31-36 | The multiplier chosen by `'week' in unit` and `'month' in unit`; `DurationParser.UnitFactors` gives it for every unit word. |
| `DurationParser.UnitFactors` | task_logic.py:31-36 | "day"/"days" multiply by 1, "week"/"weeks" by 7, and "month"/"months" by 30. |
| `DurationParser.FirstPhraseDecides` | task_logic.py:27-36 | First match wins: a duration phrase with no phrase starting before it decides the days, its number times its unit's multiplier, even when digits come before it. |
| `DurationParser.NoPatternFallback` | task_logic.py:39-41 | A text in which the duration pattern occurs nowhere gets 14 days if it mentions launch, ship or release, and 30 days otherwise, whatever digits it holds. |
| `DurationParser.NoDigitFallback` | task_logic.py:39-41 | Corollary: a goal without digits gets 14 days if it mentions launch, ship or release, and 30 days otherwise. |
| `DurationParser.DurationDays` | task_logic.py:27-40 | The days for the lower-cased text. `DurationParser.FirstPhraseDecides` and `DurationParser.NoPatternFallback` state its two branches. |
| `DurationParser.GoalDays` | task_logic.py:24-40 | The days for a goal: `DurationParser.DurationDays` of its lower-cased text. |
| `DurationParser.ParseGoalDuration` | task_logic.py:19-41 | The inferred days, with a deadline exactly that many days after today; the call fails with an overflow exactly when the deadline would pass the last day. |
| `Planner.Template` | task_logic.py:55-62 | The phase template has six entries. |
| `Planner.TemplateTitles` | task_logic.py:55-62 | The template's titles are non-empty and pairwise distinct, and none is "Marketing prep". |
| `Planner.ChosenPhases` | task_logic.py:65 | Durations of 10 days or more keep all six phases; shorter ones keep the first four of the template. |
| `Planner.PerTaskDays` | task_logic.py:68 | The width per phase is at least one day. When the duration covers the phases, the width times the phase count fits in the duration and leaves fewer days unused than there are phases; otherwise the width is one. |
| `Planner.PhaseTask` | task_logic.py:72-79 | The task of loop iteration `k + 1`; `PlannerLaws.PhasesInOrder` and `PlannerLaws.PhaseWindows` state its fields. |
| `Planner.Allocation` | task_logic.py:71-80 | The list the loop builds, one `Planner.PhaseTask` per chosen phase; `Planner.AllocatePhases` is proved equal to it. |
| `Planner.MarketingTask` | task_logic.py:84-90 | The inserted task; `PlannerLaws.MarketingPlacement` states its window and dependency. |
| `Planner.InsertBeforeLast` | task_logic.py:84 | `insert(len - 1, t)`: the list grows by one, `t` is second to last, the old last element stays last, and the rest is unchanged. |
| `Planner.Augments` | task_logic.py:83 | The keyword test: the lower-cased goal contains both "product" and "marketing". Used by `Planner.MockPlan`; `PlannerLaws.MarketingPlacement` states its effect. |
| `Planner.AllocatePhases` | task_logic.py:71-80 | The allocation loop builds one task per phase, in order, with windows `[(i-1)p, ip-1]` and the previous phase as the dependency. It fails with an overflow exactly when the last end date would pass the last day. |
| `Planner.Assemble` | task_logic.py:71-90 | The list `mock_llm_reasoning` builds from the chosen phases and width: the allocation, then the marketing insertion when requested. Not contracted; the `PlannerLaws` lemmas characterise it. |
| `Planner.HorizonOf` | task_logic.py:73-88 | The furthest day offset any task date reaches, which decides when `Planner.Timeline` overflows. Not contracted; `PlannerLaws.WindowsWithinHorizon` and `PlannerLaws.HorizonBounds` state it. |
| `Planner.Timeline` | task_logic.py:64-90 | The plan for a parsed duration, or the overflow; `Planner.BuildTimeline` computes it and the `PlannerLaws` lemmas characterise it. |
| `Planner.MockPlan` | task_logic.py:43-91 | `mock_llm_reasoning` as a function: the parsed duration, then `Planner.Timeline`; `PlannerLaws.MockPlanSucceeds` states when it succeeds. |
| `Planner.BuildTimeline` | task_logic.py:64-90 | Allocation followed by the marketing insertion computes the timeline for a parsed duration, including its overflow. |
| `Planner.MockLlmReasoning` | task_logic.py:43-91 | `mock_llm_reasoning` returns the deterministic plan for the goal, or the overflow error of the duration or of a task date. |
| `PlannerLaws.PhasesInOrder` | task_logic.py:71-80 | Phase `k` keeps its title and description, depends on phase `k-1` (the first on nothing), and no new task has a note. |
| `PlannerLaws.PhaseWindows` | task_logic.py:72-73 | Phase `k` starts `k * p` days after today and lasts exactly `p` days. |
| `PlannerLaws.TimelineContiguous` | task_logic.py:69-80 | The plan starts today, each phase starts the day after the previous one ends, and the last task ends `n * p - 1` days after today. |
| `PlannerLaws.MarketingPlacement` | task_logic.py:83-90 | A "Marketing prep" task is present exactly when requested. It is second to last, runs from `today + p` to `today + 2p`, shares its dependency (the first phase) with the second phase, and the last phase follows it. |
| `PlannerLaws.DependenciesPointBackward` | task_logic.py:79-89 | Only the first task has no dependency, and every other task depends on the title of an earlier task. |
| `PlannerLaws.WindowsWithinHorizon` | task_logic.py:71-90 | Every window starts no earlier than today, ends no earlier than it starts, and ends within the horizon. |
| `PlannerLaws.PlanFollowsTemplate` | task_logic.py:55-68 | The chosen phases are the first four or six template entries, with non-empty titles other than "Marketing prep", and the width uses all but fewer than `n` days. |
| `PlannerLaws.PlanShape` | task_logic.py:65-90 | A plan has 4 or 6 phase tasks, by duration, plus one when augmented: always 4 to 7 tasks. |
| `PlannerLaws.HorizonBounds` | task_logic.py:68-88 | The last day any task reaches is at least 3 days and at most the duration (3 for shorter durations) after today. |
| `PlannerLaws.TimelineDates` | task_logic.py:72-88 | Every date of a successful timeline is a representable day. |
| `PlannerLaws.MockPlanSucceeds` | task_logic.py:43-91 | The planner succeeds exactly when today plus the duration (at least 3) stays within 9999-12-31; it fails only with the overflow, and every date it returns is valid. |
| `PlannerLaws.MockPlanLaws` | task_logic.py:43-91 | For every goal the planner accepts: 4 or 6 phase tasks by duration plus one for product-marketing goals, a "Marketing prep" task exactly when the goal mentions both keywords, only the first task without a dependency, and every other dependency naming an earlier task. |
| `Orchestrator.BuildPrompt` | task_logic.py:117-124 | The prompt is the fixed instructions, then the goal verbatim, then the fixed format request. |
| `Orchestrator.PromptGoal` | task_logic.py:117-124 | Not a part of the source: the inverse reader of `build_prompt`'s concatenation, used by `Orchestrator.PromptRoundTrip`. What it reads fits exactly between the fixed head and tail. |
| `Orchestrator.PromptRoundTrip` | task_logic.py:117-124 | The goal can be read back from its prompt, so different goals give different prompts. |
| `Orchestrator.Truncate` | task_logic.py:147 | `reply[:400]` is a prefix of the reply, of length 400 or the reply's length if shorter. |
| `Orchestrator.WithDefaultNote` | task_logic.py:147 | `setdefault("llm_note", note)` on one task; `Orchestrator.DefaultNoteKeepsTask` states what it changes. |
| `Orchestrator.AnnotatePlan` | task_logic.py:146-147 | The setdefault loop keeps the list's length and applies `setdefault("llm_note", note)` to each task, in order. |
| `Orchestrator.DefaultNoteKeepsTask` | task_logic.py:147 | `setdefault` changes only a missing note, sets it to the given text, and is idempotent. |
| `Orchestrator.MockPlanHasNoNotes` | task_logic.py:74-90 | Planner tasks have no note, so the fallback's setdefault always sets it. |
| `Orchestrator.Lift` | task_logic.py:145-154 | Passes the planner's tasks or its `OverflowError` through as `generate_plan`'s result. Not contracted; `Orchestrator.GeneratePlan` states the routes with it. |
| `Orchestrator.GeneratePlan` | task_logic.py:126-154 | Routing on the stripped goal. Without the flag or a key, or when the call fails, the result is the planner's result. A reply that decodes is returned as is. An undecodable reply gives the planner's tasks, each with the first 400 characters of the reply as its note, or the planner's overflow. |

## Left out

- `call_openai` (task_logic.py:93-115) is not modelled: it builds an HTTP request with a
  timeout and an API key. `GeneratePlan` takes a `callModel` function in its place. Every
  exception of the call (the missing-key `RuntimeError`, HTTP errors, a malformed response
  body) becomes `Failed`.
- Neither is `json.loads`: `GeneratePlan` takes a `parseJson` function, and any decoding
  exception becomes `Unparseable`. A reply whose message content is `null` is not
  represented: the reply is always a string.
- `OPENAI_KEY` (task_logic.py:17) is read from the environment when the module is imported.
  Here it is the `keyPresent` flag.
- The `print` of the failure (task_logic.py:151) is not modelled: it is console output only.
- The clock: `datetime.utcnow()` is called at task_logic.py:25 and again at task_logic.py:69.
  Both calls are taken to return the same day, `today`, and the time of day is dropped.
  Only the date part of each result is used, so the time of day matters only for overflow,
  and there it changes nothing.
- `isoformat()` is not modelled: dates are day ordinals and the `YYYY-MM-DD` text is not
  produced. Calendar conversion is not part of this model.
- `title = goal_text.strip().capitalize()` (task_logic.py:49) computes a value that is never
  used.
- Unicode: Python's `lower`, `strip`, `\d` and `\s` also act on non-ASCII characters, and
  `int()` accepts non-ASCII decimal digits. The model covers ASCII: digits `0`-`9`, the
  whitespace characters space, `\t` to `\r` and `\x1c` to `\x1f`, and `A`-`Z` lower-casing.
- `DurationParser.ParseGoalDuration`: does not model the digit-count limit of `int()`.
  From Python 3.11 on, `int()` raises `ValueError` on a string of more than 4300 digits,
  leading zeros included (task_logic.py:29). The model computes the value of any digit run.
  So for 4300 zeros followed by "5 days" it returns 5 days where Python raises. When the
  value itself is that large, the model reports the overflow instead, because such a duration
  always passes the last representable day.
- Task dictionaries are records (`Planner.Task`); the JSON key names are not modelled.
  The list insertion and the setdefault loop work on sequences, so aliasing between the
  returned dictionaries is not captured.
- The async structure of `generate_plan` is not modelled, because nothing in the core runs
  concurrently.
- The API server, the persistence layer and the request/response schemas (main.py,
  database.py, models.py, schemas.py) are not part of this model.
