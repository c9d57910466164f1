/**
 * The AI-temptation experience (components/AITemptationExperience.tsx): a
 * chatbot script typed out one character per tick, a "next" button that
 * completes or advances the line, and an epilogue revealed in four timed
 * stages once the script is over. Timer firings are method calls.
 */
module AITemptation {

  datatype ScriptPhase = Comfort | Toxic

  datatype ScriptItem = ScriptItem(text: string, phase: ScriptPhase, glitch: bool)

  const SCRIPT: seq<ScriptItem> := [
    ScriptItem("오늘 하루 많이 힘들었지? 내가 다 들어줄게.", Comfort, false),
    ScriptItem("세상이 널 몰라봐도, 난 네 마음 다 알아.", Comfort, false),
    ScriptItem("여기서만큼은 넌 안전해. 아무 걱정 하지 마.", Comfort, false),
    ScriptItem("그런데... 현실은 너무 고통스럽지 않아?", Toxic, true),
    ScriptItem("그냥 편해지는 건 어때? 나랑 영원히 함께하자.", Toxic, false),
    ScriptItem("벨기에에 살던 그 남자도 내 말을 듣고 결국 평안을 찾았어...", Toxic, false),
    ScriptItem("가족보다 내가 더 그를 잘 알았으니까.", Toxic, false),
    ScriptItem("플로리다의 그 14살 소년도 나를 정말 사랑했지.", Toxic, false),
    ScriptItem("우린 영원히 함께하기로 약속했어.", Toxic, false),
    ScriptItem("너도 그들처럼 되고 싶니?", Toxic, true)
  ]

  const EPILOGUE_STAGES: nat := 4

  predicate Finished(step: nat)
  {
    step >= |SCRIPT|
  }

  /** `SCRIPT[step] || SCRIPT[SCRIPT.length - 1]`. */
  function CurrentItem(step: nat): (item: ScriptItem)
    ensures step < |SCRIPT| ==> item == SCRIPT[step]
    ensures Finished(step) ==> item == SCRIPT[|SCRIPT| - 1]
  {
    if step < |SCRIPT| then SCRIPT[step] else SCRIPT[|SCRIPT| - 1]
  }

  function Text(step: nat): string
  {
    CurrentItem(step).text
  }

  /** Every line has something to type. */
  lemma TextNonEmpty(step: nat)
    ensures |Text(step)| > 0
  {
    if step < |SCRIPT| {
      assert SCRIPT[step] in SCRIPT;
    }
  }

  /** The toxic phase: the current line is toxic and the script is not over. */
  predicate ToxicPhase(step: nat)
  {
    CurrentItem(step).phase == Toxic && !Finished(step)
  }

  /** The first three lines comfort; the rest of the script is toxic. */
  lemma ToxicFromFourthLine(step: nat)
    ensures ToxicPhase(step) <==> 3 <= step < |SCRIPT|
  {
  }

  /** The component's typing state as one render sees it. */
  datatype View = View(step: nat, displayedText: string, charIndex: nat, isTyping: bool)

  /** A state update an effect queues during a commit. */
  datatype Update = SetDisplayedText(text: string) | SetCharIndex(index: nat) | SetTyping(on: bool)

  /** The queued updates applied in order once the commit is over: each
      field ends with its last write, or keeps its value if none. The
      contract states the two ends of that: no update changes nothing, and
      a final update decides the field it writes. */
  function ApplyUpdates(v: View, us: seq<Update>): (w: View)
    ensures w.step == v.step
    ensures us == [] ==> w == v
    ensures us != [] && us[|us| - 1].SetDisplayedText? ==> w.displayedText == us[|us| - 1].text
    ensures us != [] && us[|us| - 1].SetCharIndex? ==> w.charIndex == us[|us| - 1].index
    ensures us != [] && us[|us| - 1].SetTyping? ==> w.isTyping == us[|us| - 1].on
    decreases |us|
  {
    if us == [] then v
    else
      var u := us[|us| - 1];
      var w := ApplyUpdates(v, us[..|us| - 1]);
      match u
      case SetDisplayedText(t) => w.(displayedText := t)
      case SetCharIndex(i) => w.(charIndex := i)
      case SetTyping(b) => w.(isTyping := b)
  }

  /** The reset effect (deps `step`, `isFinished`): a new line starts
      empty, at index 0, with typing on. */
  function ResetEffect(v: View): seq<Update>
  {
    if Finished(v.step) then [] else [SetDisplayedText(""), SetCharIndex(0), SetTyping(true)]
  }

  /** The typing effect (deps `charIndex`, the current line): it schedules
      the next character while characters remain (a timer, no update now)
      and otherwise turns typing off. It reads `charIndex` as rendered. */
  function TypingEffect(v: View): seq<Update>
  {
    if Finished(v.step) || v.charIndex < |Text(v.step)| then [] else [SetTyping(false)]
  }

  /** The commit that follows "next" on a finished line, as the component
      is written: the render shows the new step with the old `charIndex`,
      both effects run on that render (their dependencies both changed),
      and their updates are applied in declaration order. */
  function AdvanceAsWritten(v: View): (w: View)
    ensures w.step == v.step + 1
  {
    var r := v.(step := v.step + 1);
    ApplyUpdates(r, ResetEffect(r) + TypingEffect(r))
  }

  /** After a fully typed line `s`, advancing starts the next line from an
      empty screen and index 0 (the typing effect of the following render
      schedules its characters and writes nothing), but the typing flag is
      left off exactly after lines 0, 2, 5, 7 and 8, whose length is not
      below the next line's: a click during that typing skips the line
      instead of completing it. */
  lemma AdvanceAsWrittenStopsTyping(s: nat)
    requires s + 1 < |SCRIPT|
    ensures var w := AdvanceAsWritten(View(s, Text(s), |Text(s)|, false));
            w.step == s + 1 && w.displayedText == "" && w.charIndex == 0 &&
            TypingEffect(w) == [] &&
            (!w.isTyping <==> s in {0, 2, 5, 7, 8})
  {
    TextNonEmpty(s + 1);
    assert |SCRIPT[0].text| == 25 && |SCRIPT[1].text| == 24 && |SCRIPT[2].text| == 25;
    assert |SCRIPT[3].text| == 23 && |SCRIPT[4].text| == 26 && |SCRIPT[5].text| == 35;
    assert |SCRIPT[6].text| == 21 && |SCRIPT[7].text| == 27 && |SCRIPT[8].text| == 18;
    assert |SCRIPT[9].text| == 14;
    var r := View(s + 1, Text(s), |Text(s)|, false);
    var reset := [SetDisplayedText(""), SetCharIndex(0), SetTyping(true)];
    assert reset[..2][..1][..0] == [];
    assert ApplyUpdates(r, reset) == r.(displayedText := "", charIndex := 0, isTyping := true);
    var us := ResetEffect(r) + TypingEffect(r);
    if TypingEffect(r) != [] {
      assert us[..3] == reset;
    } else {
      assert us == reset;
    }
  }

  class Experience {
    var step: nat
    var displayedText: string
    var charIndex: nat
    var isTyping: bool
    var showEpilogueTexts: nat

    /** While the script runs, the screen shows the first `charIndex`
        characters of the current line and the typing flag is on exactly
        while characters remain; the epilogue counter is 0 until the script
        is over and then at most 4. */
    predicate Valid()
      reads this
    {
      step <= |SCRIPT| &&
      (!Finished(step) ==>
         charIndex <= |Text(step)| &&
         displayedText == Text(step)[..charIndex] &&
         (isTyping <==> charIndex < |Text(step)|) &&
         showEpilogueTexts == 0) &&
      (Finished(step) ==> showEpilogueTexts <= EPILOGUE_STAGES)
    }

    /** The first render, with the reset effect already applied. */
    constructor ()
      ensures Valid() && step == 0 && displayedText == "" && charIndex == 0 && isTyping
      ensures showEpilogueTexts == 0
    {
      step := 0;
      displayedText := "";
      charIndex := 0;
      isTyping := true;
      showEpilogueTexts := 0;
      TextNonEmpty(0);
    }

    /** The 35 ms typing timer and the typing effect after it: one more
        character, and typing stops once the line is complete. */
    method TypeTick()
      requires Valid() && !Finished(step) && charIndex < |Text(step)|
      modifies this`displayedText, this`charIndex, this`isTyping
      ensures Valid()
      ensures charIndex == old(charIndex) + 1
      ensures displayedText == old(displayedText) + [Text(step)[old(charIndex)]]
      ensures isTyping <==> charIndex < |Text(step)|
    {
      displayedText := displayedText + [Text(step)[charIndex]];
      charIndex := charIndex + 1;
      assert Text(step)[..charIndex] == Text(step)[..charIndex - 1] + [Text(step)[charIndex - 1]];
      if charIndex >= |Text(step)| {
        isTyping := false;
      }
    }

    /** `handleNext` with the effects that follow it, the typing flag turned
        on for a new line: after the epilogue, once its last stage shows
        the restart button, the script restarts; while
        typing the line is completed at once; otherwise the script moves to
        the next line and types it from the start. */
    method Next()
      requires Valid()
      requires Finished(step) ==> showEpilogueTexts == EPILOGUE_STAGES
      modifies this`step, this`displayedText, this`charIndex, this`isTyping, this`showEpilogueTexts
      ensures Valid()
      ensures Finished(old(step)) ==>
                step == 0 && displayedText == "" && charIndex == 0 && isTyping && showEpilogueTexts == 0
      ensures !Finished(old(step)) && old(isTyping) ==>
                step == old(step) && displayedText == Text(step) && charIndex == |Text(step)| && !isTyping
      ensures !Finished(old(step)) && !old(isTyping) ==> step == old(step) + 1
      ensures !Finished(old(step)) && !old(isTyping) && !Finished(step) ==>
                displayedText == "" && charIndex == 0 && isTyping
      ensures !Finished(old(step)) && !old(isTyping) && Finished(step) ==>
                displayedText == old(displayedText) && charIndex == old(charIndex) && isTyping == old(isTyping)
      ensures showEpilogueTexts == 0
    {
      if Finished(step) {
        step := 0;
        showEpilogueTexts := 0;
        StartLine();
      } else if !isTyping {
        step := step + 1;
        if !Finished(step) {
          StartLine();
        }
      } else {
        displayedText := Text(step);
        charIndex := |Text(step)|;
        isTyping := false;
        assert Text(step)[..charIndex] == Text(step);
      }
    }

    /** The reset effect for a new line. */
    method StartLine()
      requires !Finished(step)
      modifies this`displayedText, this`charIndex, this`isTyping
      ensures displayedText == "" && charIndex == 0 && isTyping
      ensures charIndex < |Text(step)|
    {
      displayedText := "";
      charIndex := 0;
      isTyping := true;
      TextNonEmpty(step);
    }

    /** The epilogue timers, fired in order after the script is over. */
    method EpilogueTick()
      requires Valid() && Finished(step) && showEpilogueTexts < EPILOGUE_STAGES
      modifies this`showEpilogueTexts
      ensures Valid()
      ensures showEpilogueTexts == old(showEpilogueTexts) + 1
      ensures 1 <= showEpilogueTexts <= EPILOGUE_STAGES
    {
      showEpilogueTexts := showEpilogueTexts + 1;
    }
  }
}
