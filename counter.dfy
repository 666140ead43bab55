/** The pure rules of the counter widget: the record it keeps, its defaults,
    clamping, the percentage on screen, the button labels and disabled states,
    the goal-reached test and the settings-form rules. */
module Counter {
  import Decimal
  import Wrappers

  /** The counter's record: the running count, the goal, four presets for
      the plus buttons and two for the minus buttons. */
  datatype Snapshot = Snapshot(count: int, goal: int, plus: seq<int>, minus: seq<int>)
  {
    /** The shape every loaded or edited record has. */
    predicate WellFormed() {
      goal > 0 && |plus| == 4 && |minus| == 2
    }

    /** The range that rendering puts the count into. */
    predicate InRange() {
      0 <= count <= goal
    }
  }

  const DefaultGoal: int := 1000
  const DefaultPlus: seq<int> := [5, 10, 15, 20]
  const DefaultMinus: seq<int> := [-10, -100]
  const Default: Snapshot := Snapshot(0, DefaultGoal, DefaultPlus, DefaultMinus)

  /** Math.max(lo, Math.min(hi, n)): a value in [lo, hi] when that range is
      not empty, n itself when n already lies in it, and lo when it is empty. */
  function Clamp(n: int, lo: int, hi: int): (r: int)
    ensures lo <= r
    ensures lo <= hi ==> r <= hi
    ensures lo <= n <= hi ==> r == n
    ensures n < lo ==> r == lo
    ensures lo <= hi < n ==> r == hi
    ensures hi < lo ==> r == lo
  {
    var m := if hi <= n then hi else n;
    if lo >= m then lo else m
  }

  /** The same clamp over exact reals, for the percentage. */
  function ClampReal(x: real, lo: real, hi: real): (r: real)
    requires lo <= hi
    ensures lo <= r <= hi
    ensures lo <= x <= hi ==> r == x
    ensures x < lo ==> r == lo
    ensures hi < x ==> r == hi
  {
    var m := if hi <= x then hi else x;
    if lo >= m then lo else m
  }

  /** percent(): count / goal * 100 clamped into [0, 100], and 0 for a goal
      that is not positive. Exact reals stand for the doubles of the page. */
  function RawPercent(count: int, goal: int): (p: real)
    ensures 0.0 <= p <= 100.0
    ensures goal <= 0 ==> p == 0.0
    ensures goal > 0 && count >= goal ==> p == 100.0
    ensures goal > 0 && count <= 0 ==> p == 0.0
  {
    if goal <= 0 then 0.0 else ClampReal(count as real / goal as real * 100.0, 0.0, 100.0)
  }

  /** Math.floor(percent()): the whole percentage shown on screen. */
  function ShownPercent(count: int, goal: int): (p: int)
    ensures 0 <= p <= 100
    ensures p as real <= RawPercent(count, goal) < p as real + 1.0
  {
    RawPercent(count, goal).Floor
  }

  /** The goal-reached test that starts the celebration: count >= goal.
      For a positive goal it fires exactly when the progress bar is full. */
  predicate GoalReached(count: int, goal: int): (reached: bool)
    ensures goal > 0 ==> (reached <==> RawPercent(count, goal) == 100.0)
  {
    count >= goal
  }

  /** A plus button is disabled when its preset would add to a count that
      has already reached the goal; on a count no greater than the goal, the
      bump it would make changes nothing. */
  predicate PlusDisabled(preset: int, count: int, goal: int): (disabled: bool)
    ensures disabled ==> preset > 0
    ensures disabled && 0 <= count <= goal ==> Clamp(count + preset, 0, goal) == count
  {
    preset > 0 && count >= goal
  }

  /** A minus button is disabled when its preset would subtract from a count
      that is already at zero or below; on a count that is not negative, the
      count is 0 and the bump it would make falls below 0, so the clamp keeps
      it at 0. */
  predicate MinusDisabled(preset: int, count: int): (disabled: bool)
    ensures disabled ==> preset < 0
    ensures disabled && count >= 0 ==> count == 0 && count + preset < 0
  {
    preset < 0 && count <= 0
  }

  /** The disabled flags of the plus row, one per preset. */
  function PlusFlags(presets: seq<int>, count: int, goal: int): (flags: seq<bool>)
    ensures |flags| == |presets|
    ensures forall i :: 0 <= i < |presets| ==> flags[i] == PlusDisabled(presets[i], count, goal)
  {
    seq(|presets|, i requires 0 <= i < |presets| => PlusDisabled(presets[i], count, goal))
  }

  /** The disabled flags of the minus row, one per preset. */
  function MinusFlags(presets: seq<int>, count: int): (flags: seq<bool>)
    ensures |flags| == |presets|
    ensures forall i :: 0 <= i < |presets| ==> flags[i] == MinusDisabled(presets[i], count)
  {
    seq(|presets|, i requires 0 <= i < |presets| => MinusDisabled(presets[i], count))
  }

  /** The text on a preset button: '+' and the digits for a preset that is
      zero or more, the plain decimal form (which starts with '-') otherwise. */
  function Label(v: int): (s: string)
    ensures |s| >= 2
    ensures s[0] == (if v >= 0 then '+' else '-')
    ensures Decimal.AllDigits(s[1..])
  {
    (if v >= 0 then "+" else "") + Decimal.IntToString(v)
  }

  /** The labels of a row of buttons, one per preset. */
  function Labels(presets: seq<int>): (labels: seq<string>)
    ensures |labels| == |presets|
    ensures forall i :: 0 <= i < |presets| ==> labels[i] == Label(presets[i])
  {
    seq(|presets|, i requires 0 <= i < |presets| => Label(presets[i]))
  }

  /** What Number(field.value) gives for a settings-form field: a finite
      number, or NaN or an infinity. */
  datatype NumberInput = Finite(value: real) | NotFinite

  /** A preset field of the settings form: Math.floor of a finite number,
      and 0 for anything else. */
  function PresetFromInput(v: NumberInput): (r: int)
    ensures v.Finite? ==> r as real <= v.value < r as real + 1.0
    ensures v.NotFinite? ==> r == 0
  {
    if v.Finite? then v.value.Floor else 0
  }

  /** The presets of a settings-form row, field by field. */
  function PresetsFromInputs(vs: seq<NumberInput>): (r: seq<int>)
    ensures |r| == |vs|
    ensures forall i :: 0 <= i < |vs| ==> r[i] == PresetFromInput(vs[i])
  {
    seq(|vs|, i requires 0 <= i < |vs| => PresetFromInput(vs[i]))
  }

  /** The goal field of the settings form as the page applies it: a finite,
      positive number replaces the goal by its floor; anything else leaves
      the goal as it was. A number strictly between 0 and 1 passes the test
      and is floored to 0. */
  function SettingsGoalAsWritten(current: int, g: NumberInput): (r: int)
    ensures g.Finite? && g.value > 0.0 ==> r as real <= g.value < r as real + 1.0
    ensures !(g.Finite? && g.value > 0.0) ==> r == current
  {
    if g.Finite? && g.value > 0.0 then g.value.Floor else current
  }

  /** The goal field with the evident intent kept: only a value whose floor
      is a positive whole number replaces the goal, so a positive goal stays
      positive. */
  function SettingsGoal(current: int, g: NumberInput): (r: int)
    ensures current > 0 ==> r > 0
    ensures g.Finite? && g.value >= 1.0 ==> r as real <= g.value < r as real + 1.0
    ensures !(g.Finite? && g.value >= 1.0) ==> r == current
  {
    if g.Finite? && g.value.Floor > 0 then g.value.Floor else current
  }

  // ---------------------------------------------------------------------
  // Lemmas

  /** The default record is well formed, starts in range, its plus presets
      are positive and its minus presets negative, so a plus button of the
      defaults is disabled only at the goal and a minus button only at 0. */
  lemma DefaultsValid()
    ensures Default.WellFormed() && Default.InRange()
    ensures forall i :: 0 <= i < |DefaultPlus| ==> DefaultPlus[i] > 0
    ensures forall i :: 0 <= i < |DefaultMinus| ==> DefaultMinus[i] < 0
    ensures Default.count == 0 && Default.goal == 1000
  {
  }

  /** Bumping by any delta and clamping into [0, goal] lands in range, and a
      second clamp changes nothing. */
  lemma BumpInRange(count: int, delta: int, goal: int)
    requires goal > 0
    ensures 0 <= Clamp(count + delta, 0, goal) <= goal
    ensures Clamp(Clamp(count + delta, 0, goal), 0, goal) == Clamp(count + delta, 0, goal)
  {
  }

  lemma {:induction false} FloorOfQuotient(n: int, d: int)
    requires d > 0
    ensures (n as real / d as real).Floor == n / d
  {
    var q, r := n / d, n % d;
    assert n == q * d + r && 0 <= r < d;
    var x := n as real / d as real;
    assert x * d as real == n as real;
    assert q as real * d as real <= x * d as real;
    assert x * d as real < (q + 1) as real * d as real;
    assert q as real <= x < (q + 1) as real;
  }

  /** The percentage on screen equals the whole-number quotient of
      count * 100 by the goal, clamped into [0, 100]: the floor is taken,
      never a rounding. */
  lemma {:induction false} ShownPercentIsQuotient(count: int, goal: int)
    requires goal > 0
    ensures ShownPercent(count, goal) == Clamp(count * 100 / goal, 0, 100)
  {
    var x := count as real / goal as real * 100.0;
    assert x == (count * 100) as real / goal as real;
    FloorOfQuotient(count * 100, goal);
    FloorOfClamp(x);
  }

  /** Taking the floor after clamping into [0, 100] is clamping the floor. */
  lemma FloorOfClamp(x: real)
    ensures ClampReal(x, 0.0, 100.0).Floor == Clamp(x.Floor, 0, 100)
  {
  }

  /** A count of 333 against a goal of 1000 shows 33 percent: the floor of
      33.3, and a count past the goal shows 100. */
  lemma ShownPercentExamples()
    ensures ShownPercent(333, 1000) == 33
    ensures ShownPercent(2000, 1000) == 100
    ensures ShownPercent(999, 1000) == 99
  {
  }

  /** The percentage on screen grows with the count. */
  lemma ShownPercentMonotone(c1: int, c2: int, goal: int)
    requires goal > 0 && c1 <= c2
    ensures ShownPercent(c1, goal) <= ShownPercent(c2, goal)
  {
    ShownPercentIsQuotient(c1, goal);
    ShownPercentIsQuotient(c2, goal);
    assert c1 * 100 <= c2 * 100;
    DivMonotone(c1 * 100, c2 * 100, goal);
  }

  lemma DivMonotone(a: int, b: int, d: int)
    requires d > 0 && a <= b
    ensures a / d <= b / d
  {
    var qa, qb := a / d, b / d;
    assert qa * d <= a;
    assert b < (qb + 1) * d;
    CancelFactor(qa, qb + 1, d);
  }

  lemma CancelFactor(x: int, y: int, d: int)
    requires d > 0 && x * d < y * d
    ensures x < y
  {
  }

  /** The percentage reads 100 exactly when the goal is reached. */
  lemma ShownPercentFull(count: int, goal: int)
    requires goal > 0
    ensures ShownPercent(count, goal) == 100 <==> GoalReached(count, goal)
  {
  }

  /** A disabled button is one whose bump would leave an in-range count as
      it is; for a positive plus preset or a negative minus preset the
      converse holds too. */
  lemma DisabledMeansNoOp(preset: int, count: int, goal: int)
    requires 0 <= count <= goal
    ensures PlusDisabled(preset, count, goal) ==> Clamp(count + preset, 0, goal) == count
    ensures preset > 0 ==> (PlusDisabled(preset, count, goal) <==> Clamp(count + preset, 0, goal) == count)
    ensures MinusDisabled(preset, count) ==> Clamp(count + preset, 0, goal) == count
    ensures preset < 0 ==> (MinusDisabled(preset, count) <==> Clamp(count + preset, 0, goal) == count)
  {
  }

  /** After rendering, a positive plus preset is disabled exactly when the
      count equals the goal, and any decrement from there enables it again. */
  lemma PlusDisabledAtGoal(preset: int, count: int, delta: int, goal: int)
    requires 0 <= count <= goal && goal > 0 && preset > 0 && delta < 0
    ensures PlusDisabled(preset, count, goal) <==> count == goal
    ensures !PlusDisabled(preset, Clamp(count + delta, 0, goal), goal)
  {
  }

  /** The goal test gives the same answer before and after the count is
      clamped into [0, goal]; this is why the two checks at start-up fire
      together or not at all. */
  lemma GoalReachedStable(count: int, goal: int)
    requires goal > 0
    ensures GoalReached(count, goal) <==> GoalReached(Clamp(count, 0, goal), goal)
  {
  }

  /** A label reads back as the preset it shows. */
  lemma LabelRoundTrip(v: int)
    ensures Decimal.ParseInt(Label(v)) == Wrappers.Some(v)
  {
    if v >= 0 {
      var s := Label(v);
      assert s[1..] == Decimal.NatToString(v);
      Decimal.NatToStringValue(v);
    } else {
      assert Label(v) == Decimal.IntToString(v);
      Decimal.IntToStringRoundTrip(v);
    }
  }

  /** The settings goal as written can store a goal of 0. */
  lemma SettingsGoalAsWrittenReachesZero()
    ensures SettingsGoalAsWritten(DefaultGoal, Finite(0.5)) == 0
  {
  }

  /** The corrected goal rule differs from the written one only on inputs
      strictly between 0 and 1. */
  lemma SettingsGoalAgrees(current: int, g: NumberInput)
    requires !(g.Finite? && 0.0 < g.value < 1.0)
    ensures SettingsGoal(current, g) == SettingsGoalAsWritten(current, g)
  {
  }
}
