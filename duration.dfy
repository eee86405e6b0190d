/**
 * Duration inference from goal text (`parse_goal_duration`): the first match of the
 * pattern `(\d+)\s*(day|days|week|weeks|month|months)` in the lower-cased text gives the
 * number of days; without a match a keyword fallback gives 14 or 30 days.
 */
module DurationParser {
  import opened Results
  import opened Text
  import opened Calendar

  /** The alternatives of the pattern's unit group, in the order the regex engine tries them. */
  const UNIT_WORDS: seq<string> := ["day", "days", "week", "weeks", "month", "months"]

  /**
   * One match of the pattern: group 1 (the number) is `s[start..digitsEnd]`, the
   * whitespace is `s[digitsEnd..unitStart]`, and group 2 is `unit`, starting at `unitStart`.
   */
  datatype Match = Match(start: nat, digitsEnd: nat, unitStart: nat, unit: string)

  /** The `(days, deadline)` pair `parse_goal_duration` returns. */
  datatype Duration = Duration(days: nat, deadline: Date)

  /**
   * The regex as a relation: `s[i..j]` is one or more digits, `s[j..k]` is whitespace and
   * the unit alternative `w` starts at `k`.
   */
  ghost predicate PatternAt(s: string, i: nat, j: nat, k: nat, w: string) {
    i < j <= k <= |s|
    && (forall m :: i <= m < j ==> IsDigit(s[m]))
    && (forall m :: j <= m < k ==> IsSpace(s[m]))
    && w in UNIT_WORDS && w <= s[k..]
  }

  /** End of the longest run of `inClass` characters that starts at `i` (greedy `+` or `*`). */
  function RunEnd(s: string, i: nat, inClass: char -> bool): (j: nat)
    requires i <= |s|
    ensures i <= j <= |s|
    ensures forall m :: i <= m < j ==> inClass(s[m])
    ensures j == |s| || !inClass(s[j])
    decreases |s| - i
  {
    if i < |s| && inClass(s[i]) then RunEnd(s, i + 1, inClass) else i
  }

  /** The first alternative in `alts` that `t` starts with, as regex alternation picks it. */
  function FirstAlternative(alts: seq<string>, t: string): (r: Option<string>)
    ensures r.Some? ==> r.value in alts && r.value <= t
    ensures r.None? ==> forall w :: w in alts ==> !(w <= t)
    ensures r.Some? ==> exists m :: 0 <= m < |alts| && alts[m] == r.value && forall l :: 0 <= l < m ==> !(alts[l] <= t)
  {
    if alts == [] then None
    else if alts[0] <= t then Some(alts[0])
    else
      assert forall w :: w in alts ==> w == alts[0] || w in alts[1..];
      FirstAlternative(alts[1..], t)
  }

  /**
   * The match the regex engine finds when it starts at `i`. It takes the longest digit run
   * and the longest whitespace run, then the first alternative that fits.
   */
  function MatchAt(s: string, i: nat): Option<Match>
    requires i <= |s|
  {
    if i < |s| && IsDigit(s[i]) then
      var j := RunEnd(s, i, IsDigit);
      var k := RunEnd(s, j, IsSpace);
      match FirstAlternative(UNIT_WORDS, s[k..])
      case None => None
      case Some(w) => Some(Match(i, j, k, w))
    else None
  }

  /** Every match the engine reports is a match of the pattern, at the position it was tried. */
  lemma MatchIsPattern(s: string, i: nat)
    requires i <= |s| && MatchAt(s, i).Some?
    ensures var m := MatchAt(s, i).value;
      m.start == i && PatternAt(s, i, m.digitsEnd, m.unitStart, m.unit)
  {
  }

  /** The match the engine would report at each start position `0..|s|`. */
  function MatchTable(s: string): (t: seq<Option<Match>>)
    ensures |t| == |s| + 1
  {
    seq(|s| + 1, i requires 0 <= i <= |s| => MatchAt(s, i))
  }

  /** The least index at or after `from` that holds a value. */
  function FirstSome<T>(xs: seq<Option<T>>, from: nat): (r: Option<nat>)
    requires from <= |xs|
    ensures r.Some? ==> from <= r.value < |xs| && xs[r.value].Some?
    decreases |xs| - from
  {
    if from == |xs| then None
    else if xs[from].Some? then Some(from)
    else FirstSome(xs, from + 1)
  }

  /** `FirstSome` skips only empty entries, and finds nothing only when every entry is empty. */
  lemma {:induction false} FirstSomeIsFirst<T>(xs: seq<Option<T>>, from: nat)
    requires from <= |xs|
    ensures FirstSome(xs, from).Some? ==> forall i :: from <= i < FirstSome(xs, from).value ==> xs[i].None?
    ensures FirstSome(xs, from).None? ==> forall i :: from <= i < |xs| ==> xs[i].None?
    decreases |xs| - from
  {
    if from < |xs| && xs[from].None? {
      FirstSomeIsFirst(xs, from + 1);
    }
  }

  /** `re.search`: the match at the least start position that has one. */
  function FindMatch(s: string): (r: Option<Match>)
    ensures r.Some? ==> r.value.start < r.value.digitsEnd <= |s|
  {
    match FirstSome(MatchTable(s), 0)
    case Some(i) => MatchIsPattern(s, i); MatchAt(s, i)
    case None => None
  }

  /** What `FindMatch` finds is the match at its start, and no position before it has one. */
  lemma FindMatchIsFirst(s: string)
    ensures var r := FindMatch(s);
      r.Some? ==> r.value.start <= |s| && MatchAt(s, r.value.start) == r
                  && forall i :: 0 <= i < r.value.start ==> MatchAt(s, i).None?
    ensures FindMatch(s).None? ==> forall i :: 0 <= i <= |s| ==> MatchAt(s, i).None?
  {
    var t := MatchTable(s);
    FirstSomeIsFirst(t, 0);
    match FirstSome(t, 0)
    case Some(i) =>
      MatchIsPattern(s, i);
      forall j | 0 <= j < i ensures MatchAt(s, j).None? {
        assert t[j].None?;
      }
    case None =>
      forall j | 0 <= j <= |s| ensures MatchAt(s, j).None? {
        assert t[j].None?;
      }
  }

  function DigitValue(c: char): nat {
    if IsDigit(c) then c as int - '0' as int else 0
  }

  /** `int(digits)` for a string of decimal digits. */
  function DecimalValue(digits: string): nat {
    if digits == [] then 0
    else 10 * DecimalValue(digits[..|digits| - 1]) + DigitValue(digits[|digits| - 1])
  }

  /** The multiplier for group 2: 7 if it contains "week", else 30 if it contains "month", else 1. */
  function UnitFactor(unit: string): nat {
    if Contains(unit, "week") then 7 else if Contains(unit, "month") then 30 else 1
  }

  /** The number of days the lower-cased text `s` asks for. */
  function DurationDays(s: string): nat {
    match FindMatch(s)
    case Some(m) => DecimalValue(s[m.start..m.digitsEnd]) * UnitFactor(m.unit)
    case None =>
      if Contains(s, "launch") || Contains(s, "ship") || Contains(s, "release") then 14 else 30
  }

  /** The number of days `parse_goal_duration` infers from a goal. */
  function GoalDays(goal: string): nat {
    DurationDays(Lower(goal))
  }

  /**
   * `parse_goal_duration(goal)` with `utcnow()` falling on `today`. Computing the deadline
   * raises `OverflowError` when it would pass the last representable day.
   */
  function ParseGoalDuration(goal: string, today: Date): (r: Result<Duration, Error>)
    requires IsDate(today)
    ensures r.Ok? <==> today + GoalDays(goal) <= MAX_ORDINAL
    ensures r.Ok? ==> r.value.days == GoalDays(goal) && r.value.deadline - today == r.value.days
    ensures r.Err? ==> r.error == DateOverflow
  {
    var days := GoalDays(goal);
    match AddDays(today, days)
    case Ok(deadline) => Ok(Duration(days, deadline))
    case Err(e) => Err(e)
  }

  /** Every spelling of a unit gets its own multiplier: days 1, weeks 7, months 30. */
  lemma UnitFactors()
    ensures UnitFactor("day") == 1 && UnitFactor("days") == 1
    ensures UnitFactor("week") == 7 && UnitFactor("weeks") == 7
    ensures UnitFactor("month") == 30 && UnitFactor("months") == 30
  {
    assert "days"[1..] == "ays" && "days"[0] != "week"[0];
    ShortNotContained("ays", "week");
    ShortNotContained("days", "month");
    ShortNotContained("ays", "month");
    ShortNotContained("eeks", "month");
    ShortNotContained("eek", "month");
    ShortNotContained("ths", "week");
  }

  /** A unit word begins with "d", "w" or "m", and that letter alone fixes its multiplier. */
  lemma UnitInitial(w: string)
    requires w in UNIT_WORDS
    ensures |w| >= 3 && (w[0] == 'd' || w[0] == 'w' || w[0] == 'm')
    ensures UnitFactor(w) == (if w[0] == 'w' then 7 else if w[0] == 'm' then 30 else 1)
  {
    UnitFactors();
  }

  /** A run of `inClass` characters from `i` to a non-member (or the end) is the longest one there. */
  lemma {:induction false} RunEndIs(s: string, i: nat, j: nat, inClass: char -> bool)
    requires i <= j <= |s|
    requires forall m :: i <= m < j ==> inClass(s[m])
    requires j == |s| || !inClass(s[j])
    ensures RunEnd(s, i, inClass) == j
    decreases j - i
  {
    if i < j {
      RunEndIs(s, i + 1, j, inClass);
    }
  }

  /**
   * Backtracking never helps: whenever the pattern matches at `i` at all, the greedy match
   * from `i` succeeds, with the same digit run, the same whitespace and a unit word of the
   * same multiplier.
   */
  lemma PatternImpliesMatch(s: string, i: nat, j: nat, k: nat, w: string)
    requires PatternAt(s, i, j, k, w)
    ensures MatchAt(s, i).Some?
    ensures MatchAt(s, i).value.digitsEnd == j && MatchAt(s, i).value.unitStart == k
    ensures UnitFactor(MatchAt(s, i).value.unit) == UnitFactor(w)
  {
    UnitInitial(w);
    assert s[k] == w[0];
    RunEndIs(s, i, j, IsDigit);
    RunEndIs(s, j, k, IsSpace);
    var u := FirstAlternative(UNIT_WORDS, s[k..]);
    assert u.Some?;
    UnitInitial(u.value);
    assert u.value[0] == s[k];
  }

  /**
   * `FindMatch` is `re.search`: its match starts at the least position at which the
   * pattern matches at all.
   */
  lemma FirstMatchIsLeftmost(s: string)
    requires FindMatch(s).Some?
    ensures var m := FindMatch(s).value;
      PatternAt(s, m.start, m.digitsEnd, m.unitStart, m.unit)
      && forall i: nat, j: nat, k: nat, w :: PatternAt(s, i, j, k, w) ==> m.start <= i
  {
    var m := FindMatch(s).value;
    FindMatchIsFirst(s);
    MatchIsPattern(s, m.start);
    forall i: nat, j: nat, k: nat, w | PatternAt(s, i, j, k, w)
      ensures m.start <= i
    {
      PatternImpliesMatch(s, i, j, k, w);
    }
  }

  /** The first match never begins inside a run of digits: its number is a whole digit run. */
  lemma FirstMatchStartsDigitRun(s: string)
    requires FindMatch(s).Some?
    ensures var m := FindMatch(s).value; m.start == 0 || !IsDigit(s[m.start - 1])
  {
    var m := FindMatch(s).value;
    FirstMatchIsLeftmost(s);
    if m.start > 0 && IsDigit(s[m.start - 1]) {
      assert PatternAt(s, m.start - 1, m.digitsEnd, m.unitStart, m.unit);
      assert false;
    }
  }

  /**
   * First match wins: when the pattern occurs at `i` and at no earlier position, that
   * occurrence decides the duration, its number times the multiplier of its unit word
   * (see `UnitFactors`). Digits before it that form no phrase do not matter.
   */
  lemma FirstPhraseDecides(s: string, i: nat, j: nat, k: nat, w: string)
    requires PatternAt(s, i, j, k, w)
    requires forall i': nat, j': nat, k': nat, w' :: i' < i ==> !PatternAt(s, i', j', k', w')
    ensures DurationDays(s) == DecimalValue(s[i..j]) * UnitFactor(w)
  {
    PatternImpliesMatch(s, i, j, k, w);
    FindMatchIsFirst(s);
    FirstMatchIsLeftmost(s);
    assert FindMatch(s).value.start == i;
  }

  /**
   * A text in which the pattern occurs nowhere gets the keyword fallback: 14 days to launch,
   * ship or release, else 30, whatever digits it holds.
   */
  lemma NoPatternFallback(s: string)
    requires forall i: nat, j: nat, k: nat, w :: !PatternAt(s, i, j, k, w)
    ensures DurationDays(s) == if Contains(s, "launch") || Contains(s, "ship") || Contains(s, "release") then 14 else 30
  {
    if FindMatch(s).Some? {
      FirstMatchIsLeftmost(s);
    }
  }

  /** A goal without any digit gets the keyword fallback, since the pattern needs a digit. */
  lemma NoDigitFallback(goal: string)
    requires forall i :: 0 <= i < |goal| ==> !IsDigit(goal[i])
    ensures var s := Lower(goal);
      GoalDays(goal) == if Contains(s, "launch") || Contains(s, "ship") || Contains(s, "release") then 14 else 30
  {
    var s := Lower(goal);
    forall i: nat, j: nat, k: nat, w
      ensures !PatternAt(s, i, j, k, w)
    {
      if i < |s| {
        assert !IsDigit(s[i]);
      }
    }
    NoPatternFallback(s);
  }
}
