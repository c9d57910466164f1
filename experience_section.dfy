/**
 * The climate experience (components/ExperienceSection.tsx): four everyday
 * actions, each counted once, heating the screen through four colours
 * until a warning overlay leads to the summary.
 */
module ExperienceSection {

  const ACTION_COUNT: nat := 4
  const ACTION_IDS: set<nat> := {0, 1, 2, 3}

  /** The screen colour, overlay opacity and critical flag. */
  datatype Status = Status(bg: string, overlay: string, critical: bool)

  /** `status`: one colour per count, red and critical from four on. */
  function StatusOf(actionCount: nat): (s: Status)
    ensures s.critical <==> actionCount >= ACTION_COUNT
    ensures actionCount == 0 ==> s == Status("bg-white", "opacity-0", false)
    ensures actionCount == 1 ==> s == Status("bg-yellow-200", "opacity-20", false)
    ensures actionCount == 2 ==> s == Status("bg-orange-400", "opacity-40", false)
    ensures actionCount == 3 ==> s == Status("bg-orange-600", "opacity-60", false)
    ensures actionCount >= 4 ==> s == Status("bg-red-950", "opacity-100", true)
  {
    if actionCount == 0 then Status("bg-white", "opacity-0", false)
    else if actionCount == 1 then Status("bg-yellow-200", "opacity-20", false)
    else if actionCount == 2 then Status("bg-orange-400", "opacity-40", false)
    else if actionCount == 3 then Status("bg-orange-600", "opacity-60", false)
    else Status("bg-red-950", "opacity-100", true)
  }

  /** Clicked ids are among the four actions, so at most four are clicked,
      and four are clicked exactly when all of them are. */
  lemma ClickedBound(clicked: set<nat>)
    requires clicked <= ACTION_IDS
    ensures |clicked| <= ACTION_COUNT
    ensures |clicked| == ACTION_COUNT <==> clicked == ACTION_IDS
  {
    var rest := ACTION_IDS - clicked;
    assert ACTION_IDS == clicked + rest;
    assert |ACTION_IDS| == |clicked| + |rest|;
    if |clicked| == ACTION_COUNT {
      assert rest == {};
    }
  }

  class Section {
    var actionCount: nat
    var clickedButtons: set<nat>
    var showSummary: bool

    /** The counter counts the clicked actions; the summary comes only after
        all four. */
    predicate Valid()
      reads this
    {
      clickedButtons <= ACTION_IDS &&
      actionCount == |clickedButtons| &&
      (showSummary ==> actionCount == ACTION_COUNT)
    }

    constructor ()
      ensures Valid() && actionCount == 0 && clickedButtons == {} && !showSummary
    {
      actionCount := 0;
      clickedButtons := {};
      showSummary := false;
    }

    /** The warning overlay is up exactly at four actions. */
    predicate OverlayShown()
      reads this
    {
      actionCount == ACTION_COUNT
    }

    /** The action buttons are shown while fewer than four were taken. */
    predicate ActionsShown()
      reads this
    {
      actionCount < ACTION_COUNT
    }

    /** `handleAction`, from one of the action buttons: an action already
        taken changes nothing; a new one is recorded and counted once. */
    method HandleAction(id: nat)
      requires Valid() && ActionsShown() && id in ACTION_IDS
      modifies this`clickedButtons, this`actionCount
      ensures Valid()
      ensures id in old(clickedButtons) ==>
                clickedButtons == old(clickedButtons) && actionCount == old(actionCount)
      ensures id !in old(clickedButtons) ==>
                clickedButtons == old(clickedButtons) + {id} && actionCount == old(actionCount) + 1
      ensures actionCount <= ACTION_COUNT
      ensures OverlayShown() <==> clickedButtons == ACTION_IDS
    {
      if id in clickedButtons {
        ClickedBound(clickedButtons);
        return;
      }
      clickedButtons := clickedButtons + {id};
      actionCount := actionCount + 1;
      ClickedBound(clickedButtons);
    }

    /** The overlay's confirm button. */
    method ConfirmOverlay()
      requires Valid() && OverlayShown()
      modifies this`showSummary
      ensures Valid() && showSummary
    {
      showSummary := true;
    }
  }
}
