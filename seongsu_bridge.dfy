/**
 * The Seongsu bridge experience (components/SeongsuBridgeExperience.tsx): a
 * ten-second countdown, the bridge collapse that fades to black once, and
 * the article whose sentence at the centre of the screen is highlighted.
 * Timer firings and scroll events are the methods' calls.
 */
module SeongsuBridge {

  datatype Phase = Countdown | Bridge | Article

  function PhaseRank(p: Phase): nat
  {
    match p
    case Countdown => 0
    case Bridge => 1
    case Article => 2
  }

  const COUNTDOWN_START: nat := 10

  /** A sentence element's vertical extent on screen. */
  datatype Rect = Rect(top: int, bottom: int)

  predicate Spans(r: Rect, center: int)
  {
    r.top <= center && r.bottom >= center
  }

  /** The highlighted sentence: the last one whose extent contains the
      centre line, or -1 when none does. */
  function ActiveIndex(rects: seq<Rect>, center: int): (idx: int)
    ensures -1 <= idx < |rects|
    ensures idx == -1 <==> forall j :: 0 <= j < |rects| ==> !Spans(rects[j], center)
    ensures idx >= 0 ==> Spans(rects[idx], center) &&
                         forall j :: idx < j < |rects| ==> !Spans(rects[j], center)
  {
    if rects == [] then -1
    else if Spans(rects[|rects| - 1], center) then |rects| - 1
    else ActiveIndex(rects[..|rects| - 1], center)
  }

  /** `handleScroll`'s loop over the sentence elements. */
  method ActiveSentenceIndex(rects: seq<Rect>, center: int) returns (currentIdx: int)
    ensures currentIdx == ActiveIndex(rects, center)
  {
    currentIdx := -1;
    var idx := 0;
    while idx < |rects|
      invariant 0 <= idx <= |rects|
      invariant currentIdx == ActiveIndex(rects[..idx], center)
    {
      assert rects[..idx + 1][..idx] == rects[..idx];
      if Spans(rects[idx], center) {
        currentIdx := idx;
      }
      idx := idx + 1;
    }
    assert rects[..idx] == rects;
  }

  class BridgeExperience {
    var countdown: nat
    var phase: Phase
    var activeSentence: int
    var isBlackout: bool
    /** The `animationGuard` ref: set by the first collapse end. */
    var animationGuard: bool
    /** The blackout timer is scheduled and has not fired yet. */
    var blackoutPending: bool

    /** The countdown stays within 0..10 and is over once the countdown phase
        is left; the blackout is on exactly while its timer is pending, which
        only the guarded collapse end can start. */
    predicate Valid()
      reads this
    {
      countdown <= COUNTDOWN_START &&
      (phase != Countdown ==> countdown == 0) &&
      (isBlackout <==> blackoutPending) &&
      (blackoutPending ==> animationGuard && phase == Bridge) &&
      (animationGuard ==> phase != Countdown) &&
      (phase == Article ==> animationGuard)
    }

    constructor ()
      ensures Valid()
      ensures countdown == COUNTDOWN_START && phase == Countdown && activeSentence == -1
      ensures !isBlackout && !animationGuard && !blackoutPending
    {
      countdown := COUNTDOWN_START;
      phase := Countdown;
      activeSentence := -1;
      isBlackout := false;
      animationGuard := false;
      blackoutPending := false;
    }

    /** The one-second countdown timer, with the effect that follows it: the
        count drops by one while positive, and at zero the countdown phase
        gives way to the bridge. */
    method CountdownTick()
      requires Valid()
      modifies this`countdown, this`phase
      ensures Valid()
      ensures countdown == if old(countdown) > 0 then old(countdown) - 1 else 0
      ensures phase == if countdown == 0 && old(phase) == Countdown then Bridge else old(phase)
      ensures PhaseRank(phase) >= PhaseRank(old(phase))
    {
      if countdown > 0 {
        countdown := countdown - 1;
      }
      if countdown == 0 && phase == Countdown {
        phase := Bridge;
      }
    }

    /** `handleCollapseEnd` (only wired to the bridge scene): the first call
        starts the blackout and its timer; later calls change nothing. */
    method CollapseEnd()
      requires Valid() && phase == Bridge
      modifies this`animationGuard, this`isBlackout, this`blackoutPending
      ensures Valid() && animationGuard
      ensures old(animationGuard) ==>
                isBlackout == old(isBlackout) && blackoutPending == old(blackoutPending)
      ensures !old(animationGuard) ==> isBlackout && blackoutPending
    {
      if !animationGuard {
        animationGuard := true;
        isBlackout := true;
        blackoutPending := true;
      }
    }

    /** The blackout timer: the article phase begins with the blackout
        lifted, and the scroll tracking installed for it runs once. */
    method BlackoutEnd(rects: seq<Rect>, center: int)
      requires Valid() && blackoutPending
      modifies this`phase, this`isBlackout, this`blackoutPending, this`activeSentence
      ensures Valid()
      ensures phase == Article && !isBlackout && !blackoutPending
      ensures activeSentence == ActiveIndex(rects, center)
      ensures PhaseRank(phase) > PhaseRank(old(phase))
    {
      phase := Article;
      isBlackout := false;
      blackoutPending := false;
      activeSentence := ActiveSentenceIndex(rects, center);
    }

    /** A scroll event: tracked only in the article phase. */
    method Scroll(rects: seq<Rect>, center: int)
      modifies this`activeSentence
      ensures phase == Article ==> activeSentence == ActiveIndex(rects, center)
      ensures phase != Article ==> activeSentence == old(activeSentence)
    {
      if phase != Article {
        return;
      }
      activeSentence := ActiveSentenceIndex(rects, center);
    }
  }
}
