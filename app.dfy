/** The page's running state: the global counter record that the button,
    settings and reset handlers change in place, the screen values that
    render() writes, and the start-up sequence. */
module App {
  import opened Counter
  import opened Storage

  /** The values render() puts on the page: the count and goal texts, the
      percentage (shown as text, as the bar's width and as aria-valuenow),
      and the label and disabled flag of each preset button. The button
      rows are fixed, as the page's button lists are. */
  class Screen {
    var countText: int
    var goalText: int
    var percent: int
    const plusLabels: array<string>
    const minusLabels: array<string>
    const plusDisabled: array<bool>
    const minusDisabled: array<bool>

    ghost predicate Valid()
      reads this
    {
      plusLabels.Length == 4 && minusLabels.Length == 2 &&
      plusDisabled.Length == 4 && minusDisabled.Length == 2
    }

    constructor ()
      ensures Valid()
      ensures fresh(plusLabels) && fresh(minusLabels) && fresh(plusDisabled) && fresh(minusDisabled)
    {
      countText, goalText, percent := 0, 0, 0;
      plusLabels := new string[4](_ => "");
      minusLabels := new string[2](_ => "");
      plusDisabled := new bool[4](_ => false);
      minusDisabled := new bool[2](_ => false);
    }
  }

  /** The forEach over a row of buttons: button i gets values[i]. */
  method WriteRow<T>(row: array<T>, values: seq<T>)
    requires row.Length == |values|
    modifies row
    ensures row[..] == values
  {
    var i := 0;
    while i < row.Length
      invariant 0 <= i <= row.Length
      invariant row[..i] == values[..i]
    {
      row[i] := values[i];
      i := i + 1;
    }
  }

  /** The counter record the page keeps in memory, and what storage holds. */
  class CounterState {
    var count: int
    var goal: int
    var plus: seq<int>
    var minus: seq<int>
    /** The contents of storage under the 'counterState' key. */
    var saved: Stored

    /** Every handler keeps a positive goal and four and two presets. The
        count may lie outside [0, goal] until the next render. */
    ghost predicate Valid()
      reads this
    {
      Current().WellFormed()
    }

    function Current(): Snapshot
      reads this
    {
      Snapshot(count, goal, plus, minus)
    }

    /** let state = loadState(): the record is read from what storage holds. */
    constructor (stored: Stored)
      ensures Valid()
      ensures Current() == Load(stored) && saved == stored
    {
      var s := Load(stored);
      count, goal, plus, minus := s.count, s.goal, s.plus, s.minus;
      saved := stored;
    }

    /** updateButtonLabels(): each button shows the label of its preset. */
    method UpdateButtonLabels(screen: Screen)
      requires Valid() && screen.Valid()
      modifies screen.plusLabels, screen.minusLabels
      ensures screen.plusLabels[..] == Labels(plus)
      ensures screen.minusLabels[..] == Labels(minus)
    {
      WriteRow(screen.plusLabels, Labels(plus));
      WriteRow(screen.minusLabels, Labels(minus));
    }

    /** setButtonDisabledStates(): each button is disabled by its rule. */
    method SetButtonDisabledStates(screen: Screen)
      requires Valid() && screen.Valid()
      modifies screen.plusDisabled, screen.minusDisabled
      ensures screen.plusDisabled[..] == PlusFlags(plus, count, goal)
      ensures screen.minusDisabled[..] == MinusFlags(minus, count)
      ensures forall i :: 0 <= i < 4 ==> screen.plusDisabled[i] == PlusDisabled(plus[i], count, goal)
      ensures forall i :: 0 <= i < 2 ==> screen.minusDisabled[i] == MinusDisabled(minus[i], count)
    {
      WriteRow(screen.plusDisabled, PlusFlags(plus, count, goal));
      WriteRow(screen.minusDisabled, MinusFlags(minus, count));
    }

    /** The screen shows this record as render() leaves it: the count and
        goal texts, the whole percentage, every button's label and every
        button's disabled flag. */
    ghost predicate Shows(screen: Screen)
      reads this, screen, screen.plusLabels, screen.minusLabels, screen.plusDisabled, screen.minusDisabled
    {
      screen.countText == count && screen.goalText == goal &&
      screen.percent == ShownPercent(count, goal) &&
      screen.plusLabels[..] == Labels(plus) && screen.minusLabels[..] == Labels(minus) &&
      screen.plusDisabled[..] == PlusFlags(plus, count, goal) &&
      screen.minusDisabled[..] == MinusFlags(minus, count)
    }

    /** render(): clamps the count into [0, goal], puts the count, goal,
        percentage, labels and disabled flags on screen, and saves the
        record, so that loading storage now gives back the same record. */
    method Render(screen: Screen)
      requires Valid() && screen.Valid()
      modifies this, screen, screen.plusLabels, screen.minusLabels, screen.plusDisabled, screen.minusDisabled
      ensures Valid() && Current().InRange()
      ensures count == Clamp(old(count), 0, goal)
      ensures 0 <= old(count) <= goal ==> count == old(count)
      ensures goal == old(goal) && plus == old(plus) && minus == old(minus)
      ensures Shows(screen)
      ensures forall i :: 0 <= i < 4 ==> screen.plusDisabled[i] == PlusDisabled(plus[i], count, goal)
      ensures forall i :: 0 <= i < 2 ==> screen.minusDisabled[i] == MinusDisabled(minus[i], count)
      ensures saved == Encode(Current()) && Load(saved) == Current()
    {
      count := Clamp(count, 0, goal);
      screen.countText := count;
      screen.goalText := goal;
      screen.percent := ShownPercent(count, goal);
      UpdateButtonLabels(screen);
      SetButtonDisabledStates(screen);
      saved := Encode(Current());
      LoadEncode(Current());
    }

    /** bump(delta): adds the delta, clamps into [0, goal] and renders. The
        goal test does not run here. */
    method Bump(delta: int, screen: Screen)
      requires Valid() && screen.Valid()
      modifies this, screen, screen.plusLabels, screen.minusLabels, screen.plusDisabled, screen.minusDisabled
      ensures Valid() && Current().InRange()
      ensures count == Clamp(old(count) + delta, 0, goal)
      ensures goal == old(goal) && plus == old(plus) && minus == old(minus)
      ensures Shows(screen)
      ensures saved == Encode(Current())
    {
      count := Clamp(count + delta, 0, goal);
      Render(screen);
    }

    /** A click on plus button i. A button the screen shows disabled takes
        no click, so nothing changes; any other click bumps by the preset.
        When the screen is up to date, a click has the effect of a bump
        either way, since a disabled button's bump would change nothing. */
    method PressPlus(i: int, screen: Screen)
      requires Valid() && screen.Valid() && 0 <= i < 4
      modifies this, screen, screen.plusLabels, screen.minusLabels, screen.plusDisabled, screen.minusDisabled
      ensures Valid() && goal == old(goal) && plus == old(plus) && minus == old(minus)
      ensures old(screen.plusDisabled[i]) ==>
        unchanged(this, screen, screen.plusLabels, screen.minusLabels, screen.plusDisabled, screen.minusDisabled)
      ensures !old(screen.plusDisabled[i]) ==>
        count == Clamp(old(count) + plus[i], 0, goal) && Current().InRange() &&
        Shows(screen) && saved == Encode(Current())
      ensures old(Shows(screen) && Current().InRange()) ==> count == Clamp(old(count) + plus[i], 0, goal)
    {
      if screen.plusDisabled[i] {
        assert Shows(screen) && Current().InRange() ==> PlusDisabled(plus[i], count, goal);
        if 0 <= count <= goal {
          DisabledMeansNoOp(plus[i], count, goal);
        }
        return;
      }
      Bump(plus[i], screen);
    }

    /** A click on minus button i. A button the screen shows disabled takes
        no click, so nothing changes; any other click bumps by the preset.
        When the screen is up to date, a click has the effect of a bump
        either way, since a disabled button's bump would change nothing. */
    method PressMinus(i: int, screen: Screen)
      requires Valid() && screen.Valid() && 0 <= i < 2
      modifies this, screen, screen.plusLabels, screen.minusLabels, screen.plusDisabled, screen.minusDisabled
      ensures Valid() && goal == old(goal) && plus == old(plus) && minus == old(minus)
      ensures old(screen.minusDisabled[i]) ==>
        unchanged(this, screen, screen.plusLabels, screen.minusLabels, screen.plusDisabled, screen.minusDisabled)
      ensures !old(screen.minusDisabled[i]) ==>
        count == Clamp(old(count) + minus[i], 0, goal) && Current().InRange() &&
        Shows(screen) && saved == Encode(Current())
      ensures old(Shows(screen) && Current().InRange()) ==> count == Clamp(old(count) + minus[i], 0, goal)
    {
      if screen.minusDisabled[i] {
        assert Shows(screen) && Current().InRange() ==> MinusDisabled(minus[i], count);
        if 0 <= count <= goal {
          DisabledMeansNoOp(minus[i], count, goal);
        }
        return;
      }
      Bump(minus[i], screen);
    }

    /** The settings form's submit: the goal field replaces the goal only
        when it holds a positive whole part, each preset field becomes its
        floor or 0, and then the record is rendered (and so saved). */
    method ApplySettings(g: NumberInput, p1: NumberInput, p2: NumberInput, p3: NumberInput,
                         p4: NumberInput, m1: NumberInput, m2: NumberInput, screen: Screen)
      requires Valid() && screen.Valid()
      modifies this, screen, screen.plusLabels, screen.minusLabels, screen.plusDisabled, screen.minusDisabled
      ensures Valid() && Current().InRange()
      ensures goal == SettingsGoal(old(goal), g)
      ensures plus == PresetsFromInputs([p1, p2, p3, p4])
      ensures minus == PresetsFromInputs([m1, m2])
      ensures count == Clamp(old(count), 0, goal)
      ensures Shows(screen)
      ensures saved == Encode(Current())
    {
      goal := SettingsGoal(goal, g);
      plus := PresetsFromInputs([p1, p2, p3, p4]);
      minus := PresetsFromInputs([m1, m2]);
      Render(screen);
    }

    /** Reset to defaults: goal and presets take their default values, the
        count stays, and nothing is rendered or saved. */
    method ResetDefaults()
      requires Valid()
      modifies this
      ensures Valid()
      ensures goal == DefaultGoal && plus == DefaultPlus && minus == DefaultMinus
      ensures count == old(count) && saved == old(saved)
    {
      goal := DefaultGoal;
      plus := DefaultPlus;
      minus := DefaultMinus;
    }

    /** Reset counter (and the timer's callback after a celebration): the
        count becomes 0 and the record is rendered and saved. */
    method ResetCounter(screen: Screen)
      requires Valid() && screen.Valid()
      modifies this, screen, screen.plusLabels, screen.minusLabels, screen.plusDisabled, screen.minusDisabled
      ensures Valid() && Current().InRange()
      ensures count == 0
      ensures goal == old(goal) && plus == old(plus) && minus == old(minus)
      ensures Shows(screen) && screen.percent == 0
      ensures saved == Encode(Current())
    {
      count := 0;
      Render(screen);
    }

    /** The page's start-up after the record is loaded: a goal test on the
        loaded record, the first render, and a second goal test. Each test
        that finds the goal reached starts a celebration and schedules one
        reset of the count; the result is how many were scheduled. Both
        tests agree, so a loaded record at or above its goal schedules two
        and any other schedules none. */
    method Start(screen: Screen) returns (resets: nat)
      requires Valid() && screen.Valid()
      modifies this, screen, screen.plusLabels, screen.minusLabels, screen.plusDisabled, screen.minusDisabled
      ensures Valid() && Current().InRange()
      ensures count == Clamp(old(count), 0, goal)
      ensures goal == old(goal) && plus == old(plus) && minus == old(minus)
      ensures resets == if GoalReached(old(count), goal) then 2 else 0
      ensures Shows(screen)
      ensures saved == Encode(Current())
    {
      resets := 0;
      if GoalReached(count, goal) {
        resets := resets + 1;
      }
      GoalReachedStable(count, goal);
      Render(screen);
      if GoalReached(count, goal) {
        resets := resets + 1;
      }
    }
  }
}
