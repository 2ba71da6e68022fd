/**
 * The `useTypewriter` hook (src/hooks/useTypewriter.ts): reveals a text one
 * character per interval tick after a start delay.
 *
 * Timers are steps: `Start` is the start timeout firing, `Tick` one firing
 * of the interval. `running` says whether the interval is set.
 */
module Typewriter {

  /** The hook's state for one value of `text`. */
  datatype TypewriterState = TypewriterState(
    text: string,
    displayText: string,
    currentIndex: nat,
    isDone: bool,
    running: bool)

  /** What every reachable state satisfies: the shown text is the first
      `currentIndex` characters, and the interval runs only on a non-empty
      text that is not finished. */
  predicate Valid(s: TypewriterState) {
    s.currentIndex <= |s.text| && s.displayText == s.text[..s.currentIndex]
    && (s.running ==> s.text != "" && !s.isDone)
  }

  /** The effect's reset when `text` changes. */
  function Reset(text: string): (s: TypewriterState)
    ensures Valid(s) && s.text == text
    ensures s.displayText == "" && s.currentIndex == 0 && !s.isDone && !s.running
  {
    TypewriterState(text, "", 0, false, false)
  }

  /** The start timeout: an empty text is done at once, any other starts
      the interval. */
  function Start(s: TypewriterState): (r: TypewriterState)
    requires Valid(s) && !s.isDone
    ensures Valid(r)
    ensures s.text == "" ==> r.isDone && !r.running
    ensures s.text != "" ==> r.running
    ensures r.text == s.text && r.displayText == s.displayText && r.currentIndex == s.currentIndex
  {
    if s.text == "" then s.(isDone := true, running := false) else s.(running := true)
  }

  /** One interval tick: show one more character, or, once the whole text is
      shown, stop the interval and report done. Without an interval nothing
      happens. */
  function Tick(s: TypewriterState): (r: TypewriterState)
    requires Valid(s)
    ensures Valid(r) && r.text == s.text
    ensures s.running && s.currentIndex < |s.text| ==>
      r.currentIndex == s.currentIndex + 1 && r.running && !r.isDone
    ensures s.running && s.currentIndex == |s.text| ==>
      r.currentIndex == s.currentIndex && r.isDone && !r.running && r.displayText == s.text
    ensures !s.running ==> r == s
  {
    if !s.running then s
    else
      var nextIndex := s.currentIndex + 1;
      if nextIndex > |s.text| then s.(isDone := true, running := false)
      else s.(displayText := s.text[..nextIndex], currentIndex := nextIndex)
  }

  /** `n` ticks in a row. */
  function Ticks(s: TypewriterState, n: nat): (r: TypewriterState)
    requires Valid(s)
    ensures Valid(r) && r.text == s.text
    decreases n
  {
    if n == 0 then s else Ticks(Tick(s), n - 1)
  }

  /** From a running state, as many ticks as characters remain plus one show
      the whole text and finish; any later tick changes nothing. */
  lemma {:induction false} TicksFinish(s: TypewriterState, n: nat)
    requires Valid(s) && s.running
    requires n >= |s.text| - s.currentIndex + 1
    ensures Ticks(s, n).isDone && Ticks(s, n).displayText == s.text && !Ticks(s, n).running
    ensures Tick(Ticks(s, n)) == Ticks(s, n)
    decreases n
  {
    if s.currentIndex < |s.text| {
      TicksFinish(Tick(s), n - 1);
    } else {
      assert Tick(s).isDone && !Tick(s).running;
      StoppedStaysPut(Tick(s), n - 1);
    }
  }

  /** Without an interval, ticks change nothing. */
  lemma {:induction false} StoppedStaysPut(s: TypewriterState, n: nat)
    requires Valid(s) && !s.running
    ensures Ticks(s, n) == s
    decreases n
  {
    if n > 0 {
      StoppedStaysPut(Tick(s), n - 1);
    }
  }

  /** A freshly started non-empty text is fully typed after |text| + 1 ticks. */
  lemma TypesWholeText(text: string)
    requires text != ""
    ensures var s := Ticks(Start(Reset(text)), |text| + 1); s.isDone && s.displayText == text
  {
    TicksFinish(Start(Reset(text)), |text| + 1);
  }

  /** `progress`: 1 for the empty text, otherwise the share of the text
      shown. */
  function Progress(text: string, currentIndex: nat): (p: real)
    ensures text == "" ==> p == 1.0
    ensures currentIndex <= |text| ==> 0.0 <= p <= 1.0
    ensures text != "" && currentIndex == |text| ==> p == 1.0
    ensures text != "" && currentIndex == 0 ==> p == 0.0
  {
    if text == "" then 1.0 else currentIndex as real / |text| as real
  }

  // ---------------------------------------------------------------------
  // The effect as written: a text change leaves the interval running
  // ---------------------------------------------------------------------

  /** The hook's state as the code keeps it: `intervals` holds, for every
      interval still set, the text its callback closed over. */
  datatype WrittenState = WrittenState(
    text: string,
    displayText: string,
    currentIndex: nat,
    isDone: bool,
    intervals: seq<string>)

  /** A text change as written: the state is reset, but the cleanup only
      cancels the start timeout, so every interval already set keeps
      running. */
  function ResetAsWritten(s: WrittenState, text: string): (r: WrittenState)
    ensures r.text == text && r.displayText == "" && r.currentIndex == 0 && !r.isDone
    ensures r.intervals == s.intervals
  {
    WrittenState(text, "", 0, false, s.intervals)
  }

  /** The start timeout as written: an empty text is done; any other sets
      one more interval, bound to the current text. */
  function StartAsWritten(s: WrittenState): (r: WrittenState)
    ensures s.text == "" ==> r.isDone && r.intervals == s.intervals
    ensures s.text != "" ==> r.intervals == s.intervals + [s.text] && r.isDone == s.isDone
    ensures r.text == s.text && r.displayText == s.displayText && r.currentIndex == s.currentIndex
  {
    if s.text == "" then s.(isDone := true) else s.(intervals := s.intervals + [s.text])
  }

  /** Interval `k` fires: it advances the shared index and shows a prefix of
      the text it closed over, which need not be the current text; at the
      end of its own text it clears itself and reports done. */
  function TickAsWritten(s: WrittenState, k: nat): (r: WrittenState)
    requires k < |s.intervals|
    ensures r.text == s.text
    ensures s.currentIndex < |s.intervals[k]| ==>
      r.currentIndex == s.currentIndex + 1 && r.displayText == s.intervals[k][..r.currentIndex]
      && r.intervals == s.intervals && r.isDone == s.isDone
    ensures s.currentIndex >= |s.intervals[k]| ==>
      r.isDone && r.currentIndex == s.currentIndex && r.displayText == s.displayText
      && r.intervals == s.intervals[..k] + s.intervals[k + 1..]
  {
    var own := s.intervals[k];
    if s.currentIndex + 1 > |own| then
      s.(isDone := true, intervals := s.intervals[..k] + s.intervals[k + 1..])
    else
      s.(displayText := own[..s.currentIndex + 1], currentIndex := s.currentIndex + 1)
  }

  /** The displayed text is not a prefix of the text: `"abc"` starts typing
      and shows `"a"`, the text changes to `"xy"`, and the next tick of the
      interval left running shows `"a"` again, at index 1 of `"xy"`. */
  lemma LeakedIntervalShowsOldText(first: string, second: string)
    requires first == "abc" && second == "xy"
    ensures var s := TickAsWritten(ResetAsWritten(TickAsWritten(StartAsWritten(
                       WrittenState(first, "", 0, false, [])), 0), second), 0);
            s.text == "xy" && s.currentIndex == 1 && s.displayText == "a"
            && s.currentIndex <= |s.text| && s.displayText != s.text[..s.currentIndex]
  {
    var s0 := StartAsWritten(WrittenState(first, "", 0, false, []));
    assert s0.intervals == ["abc"];
    var s1 := TickAsWritten(s0, 0);
    assert s1.currentIndex == 1 && s1.intervals == ["abc"];
    var s2 := ResetAsWritten(s1, second);
    var s3 := TickAsWritten(s2, 0);
    assert s3.displayText == "abc"[..1] == "a";
    assert s3.text[..1] == "x";
  }

  /** With the interval cleared on a text change, as `Reset` does, whatever
      runs after the change shows a prefix of the new text. */
  lemma {:induction false} ResetShowsOnlyNewText(text: string, n: nat)
    ensures var s := Ticks(Start(Reset(text)), n);
            s.text == text && s.currentIndex <= |text| && s.displayText == text[..s.currentIndex]
  {
  }

  /** The hook's state, updated in place by its timers. */
  class TypewriterHook {
    var text: string
    var displayText: string
    var currentIndex: nat
    var isDone: bool
    var running: bool

    function State(): TypewriterState
      reads this
    {
      TypewriterState(text, displayText, currentIndex, isDone, running)
    }

    /** First render, and every change of `text`. */
    constructor (text: string)
      ensures State() == Reset(text)
    {
      this.text := text;
      displayText := "";
      currentIndex := 0;
      isDone := false;
      running := false;
    }

    /** The effect's reset when `text` changes. */
    method SetText(newText: string)
      modifies this
      ensures State() == Reset(newText)
    {
      text := newText;
      displayText := "";
      currentIndex := 0;
      isDone := false;
      running := false;
    }

    /** The start timeout fires. */
    method StartTyping()
      requires Valid(State()) && !isDone
      modifies this
      ensures State() == Start(old(State()))
    {
      if text == "" {
        isDone := true;
        running := false;
        return;
      }
      running := true;
    }

    /** The interval fires. */
    method OnTick()
      requires Valid(State())
      modifies this
      ensures State() == Tick(old(State()))
    {
      if !running {
        return;
      }
      var nextIndex := currentIndex + 1;
      if nextIndex > |text| {
        running := false;
        isDone := true;
        return;
      }
      displayText := text[..nextIndex];
      currentIndex := nextIndex;
    }
  }
}
