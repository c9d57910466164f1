/**
 * The real-estate fraud experience (components/RealEstateFraudExperience.tsx):
 * a three-step signature, high-pressure sales messages that pile up (at most
 * five on screen) while the signature is in progress, and the reveal once
 * it is complete. Timer firings are method calls; the random choice of
 * message is a parameter.
 */
module RealEstateFraud {

  const FOMO_MESSAGES: seq<string> := [
    "“지금 바로 옆 팀에서 3채 가계약 들어갔어요!”",
    "“이 위치는 프리미엄 무조건 2억 붙습니다.”",
    "“수익률 연 15% 보장, 이건 기회예요.”",
    "“오늘 안 하시면 내일은 이 가격에 못 드려요.”",
    "“벌써 완판 임박입니다. 마지막 한 채예요!”",
    "“사모님들 사이에서 난리 난 바로 그 매물입니다.”",
    "“대출 규제 피해서 나온 특수 물량이에요.”"
  ]

  const FINAL_STEP: nat := 3
  const MAX_ON_SCREEN: nat := 5

  /** `[...prev.slice(-4), msg]`: keep the newest four, then add the new one
      last. */
  function Push(list: seq<string>, msg: string): (r: seq<string>)
    ensures |r| == (if |list| < MAX_ON_SCREEN - 1 then |list| else MAX_ON_SCREEN - 1) + 1
    ensures r[|r| - 1] == msg
    ensures r[..|r| - 1] == list[|list| - (|r| - 1)..]
  {
    var kept := if |list| <= 4 then list else list[|list| - 4..];
    kept + [msg]
  }

  /** Pushing a message never breaks "at most five, all from the script". */
  lemma PushKeepsBounds(list: seq<string>, msg: string)
    requires |list| <= MAX_ON_SCREEN && forall i :: 0 <= i < |list| ==> list[i] in FOMO_MESSAGES
    requires msg in FOMO_MESSAGES
    ensures var r := Push(list, msg);
            |r| <= MAX_ON_SCREEN && forall i :: 0 <= i < |r| ==> r[i] in FOMO_MESSAGES
  {
    var r := Push(list, msg);
    forall i | 0 <= i < |r|
      ensures r[i] in FOMO_MESSAGES
    {
      if i < |r| - 1 {
        assert r[i] == r[..|r| - 1][i] == list[|list| - (|r| - 1) + i];
      }
    }
  }

  class FraudExperience {
    var step: nat
    var activeFomo: seq<string>
    var isRevealed: bool
    /** Delayed second messages scheduled by clicks and not yet shown. */
    var pendingDelayed: nat

    /** Step within 0..3; at most five messages, all from the script;
        nothing before the first click and nothing left once revealed,
        which only happens at the final step. */
    predicate Valid()
      reads this
    {
      step <= FINAL_STEP &&
      |activeFomo| <= MAX_ON_SCREEN &&
      (forall i :: 0 <= i < |activeFomo| ==> activeFomo[i] in FOMO_MESSAGES) &&
      (step == 0 ==> activeFomo == [] && pendingDelayed == 0 && !isRevealed) &&
      (isRevealed ==> step == FINAL_STEP && activeFomo == [] && pendingDelayed == 0)
    }

    /** The background interval runs exactly in steps 1 and 2 before the
        reveal. */
    predicate Whispering()
      reads this
    {
      0 < step < FINAL_STEP && !isRevealed
    }

    constructor ()
      ensures Valid() && step == 0 && activeFomo == [] && !isRevealed && pendingDelayed == 0
    {
      step := 0;
      activeFomo := [];
      isRevealed := false;
      pendingDelayed := 0;
    }

    /** `handleNextStep` and the effect that follows it: below the final
        step, advance, show a message at once and schedule a second one;
        reaching the final step clears the screen. */
    method NextStep(pick: nat)
      requires Valid() && pick < |FOMO_MESSAGES|
      modifies this`step, this`activeFomo, this`pendingDelayed
      ensures Valid()
      ensures old(step) < FINAL_STEP ==>
                step == old(step) + 1 && pendingDelayed == old(pendingDelayed) + 1 &&
                activeFomo == (if step < FINAL_STEP then Push(old(activeFomo), FOMO_MESSAGES[pick]) else [])
      ensures old(step) >= FINAL_STEP ==>
                step == old(step) && activeFomo == old(activeFomo) && pendingDelayed == old(pendingDelayed)
    {
      if step < FINAL_STEP {
        var pushed := Push(activeFomo, FOMO_MESSAGES[pick]);
        PushKeepsBounds(activeFomo, FOMO_MESSAGES[pick]);
        step, activeFomo, pendingDelayed := step + 1, pushed, pendingDelayed + 1;
        if !Whispering() {
          activeFomo := [];
        }
      }
    }

    /** A click's delayed second message. It is not cancelled, so after the
        final click it lands on the screen the step-3 effect just cleared. */
    method DelayedMessage(pick: nat)
      requires Valid() && pendingDelayed > 0 && pick < |FOMO_MESSAGES|
      modifies this`activeFomo, this`pendingDelayed
      ensures Valid()
      ensures activeFomo == Push(old(activeFomo), FOMO_MESSAGES[pick])
      ensures pendingDelayed == old(pendingDelayed) - 1
      ensures step == FINAL_STEP ==> activeFomo != []
    {
      PushKeepsBounds(activeFomo, FOMO_MESSAGES[pick]);
      activeFomo := Push(activeFomo, FOMO_MESSAGES[pick]);
      pendingDelayed := pendingDelayed - 1;
    }

    /** The three-second background interval. */
    method Whisper(pick: nat)
      requires Valid() && Whispering() && pick < |FOMO_MESSAGES|
      modifies this`activeFomo
      ensures Valid()
      ensures activeFomo == Push(old(activeFomo), FOMO_MESSAGES[pick])
    {
      PushKeepsBounds(activeFomo, FOMO_MESSAGES[pick]);
      activeFomo := Push(activeFomo, FOMO_MESSAGES[pick]);
    }

    /** The reveal timer, 1.2 s after the final step (later than any delayed
        message), and the effect that clears the screen. */
    method Reveal()
      requires Valid() && step == FINAL_STEP && !isRevealed && pendingDelayed == 0
      modifies this`isRevealed, this`activeFomo
      ensures Valid() && isRevealed && activeFomo == []
    {
      isRevealed := true;
      activeFomo := [];
    }
  }
}
