/**
 * The Jeon Tae-il investigation (components/JeonTaeilExperience.tsx): a chat
 * with an archive whose replies, together with the question, unlock pieces
 * of evidence by keyword, moving an investigation stage forward until every
 * piece is found. The archive's reply is an outcome given to the model.
 */
module JeonTaeil {
  import opened Wrappers
  import opened Strings

  datatype Evidence = Evidence(id: string, title: string, unlocked: bool, stage: nat)

  const INITIAL_EVIDENCES: seq<Evidence> := [
    Evidence("env-1", "평화시장 노동 실태", false, 1),
    Evidence("law-1", "근로기준법 제49조", false, 2),
    Evidence("law-2", "근로기준법 제45조", false, 2),
    Evidence("neglect-1", "업주의 법 무시", false, 3),
    Evidence("state-1", "보건사회부의 인지", false, 4)
  ]

  const NO_RECORD: string := "기록을 조회할 수 없습니다."
  const SYSTEM_ERROR: string := "조사 시스템 오류가 발생했습니다. 다시 시도하십시오."
  const LAST_STAGE: nat := 4

  /** The keywords that unlock each piece of evidence. */
  function Keywords(id: string): seq<string>
  {
    if id == "env-1" then ["노동 시간", "15시간", "다락방", "평화시장"]
    else if id == "law-1" then ["근로기준법", "48시간", "49조"]
    else if id == "law-2" then ["안전", "유해", "45조"]
    else if id == "neglect-1" then ["업주", "방치", "무시", "시정"]
    else if id == "state-1" then ["진정서", "보건사회부", "정부", "인지"]
    else []
  }

  /** `keywords.some(kw => text.includes(kw))`. */
  predicate MatchesAny(keywords: seq<string>, text: string)
  {
    if keywords == [] then false
    else Contains(text, keywords[0]) || MatchesAny(keywords[1..], text)
  }

  /** `some` holds exactly when one of the keywords occurs in the text. */
  lemma {:induction false} MatchesAnyIff(keywords: seq<string>, text: string)
    ensures MatchesAny(keywords, text) <==> exists k :: 0 <= k < |keywords| && Contains(text, keywords[k])
  {
    if keywords != [] {
      MatchesAnyIff(keywords[1..], text);
      if exists k :: 0 <= k < |keywords| && Contains(text, keywords[k]) {
        var k :| 0 <= k < |keywords| && Contains(text, keywords[k]);
        if k > 0 {
          assert keywords[1..][k - 1] == keywords[k];
        }
      }
    }
  }

  /** A keyword typed in the question unlocks its evidence whatever the
      archive replies, since the question is appended to the reply. */
  lemma QuestionKeywordSuffices(aiText: string, input: string, keywords: seq<string>, k: nat)
    requires k < |keywords| && Contains(input, keywords[k])
    ensures MatchesAny(keywords, aiText + " " + input)
  {
    ContainsAppend(aiText + " ", input, keywords[k]);
    MatchesAnyIff(keywords, aiText + " " + input);
  }

  /** The `evidences.map` in `checkEvidenceUnlocks`: a locked piece unlocks
      when one of its keywords occurs in the text; nothing else changes. */
  function Unlock(evs: seq<Evidence>, text: string): (r: seq<Evidence>)
    ensures |r| == |evs|
  {
    if evs == [] then []
    else
      var ev := evs[0];
      [if !ev.unlocked && MatchesAny(Keywords(ev.id), text) then ev.(unlocked := true) else ev] +
      Unlock(evs[1..], text)
  }

  /** Each piece keeps everything but its flag, which is set exactly when it
      was set already or one of its keywords occurs in the text. */
  lemma {:induction false} UnlockEntries(evs: seq<Evidence>, text: string)
    ensures var r := Unlock(evs, text);
            forall i :: 0 <= i < |r| ==>
              r[i] == evs[i].(unlocked := r[i].unlocked) &&
              (r[i].unlocked <==> evs[i].unlocked || MatchesAny(Keywords(evs[i].id), text))
  {
    if evs != [] {
      UnlockEntries(evs[1..], text);
      var r, rest := Unlock(evs, text), Unlock(evs[1..], text);
      forall i | 0 < i < |r|
        ensures r[i] == rest[i - 1] && evs[i] == evs[1..][i - 1]
      {
      }
    }
  }

  /** `unlockedAny`: some locked piece matches. */
  predicate NewlyUnlocked(evs: seq<Evidence>, text: string)
  {
    exists i :: 0 <= i < |evs| && !evs[i].unlocked && MatchesAny(Keywords(evs[i].id), text)
  }

  /** Unlocking changes the list exactly when something new unlocks, and
      never relocks or alters an unlocked piece. */
  lemma UnlockChangesIffNew(evs: seq<Evidence>, text: string)
    ensures Unlock(evs, text) != evs <==> NewlyUnlocked(evs, text)
    ensures forall i :: 0 <= i < |evs| && evs[i].unlocked ==> Unlock(evs, text)[i] == evs[i]
  {
    UnlockEntries(evs, text);
    var r := Unlock(evs, text);
    if NewlyUnlocked(evs, text) {
      var i :| 0 <= i < |evs| && !evs[i].unlocked && MatchesAny(Keywords(evs[i].id), text);
      assert r[i].unlocked != evs[i].unlocked;
    } else {
      forall i | 0 <= i < |evs|
        ensures r[i] == evs[i]
      {
        assert r[i] == evs[i].(unlocked := r[i].unlocked);
      }
    }
    forall i | 0 <= i < |evs| && evs[i].unlocked
      ensures r[i] == evs[i]
    {
      assert r[i] == evs[i].(unlocked := r[i].unlocked);
    }
  }

  /** `Math.max(...unlocked stages)`, 0 when nothing is unlocked. */
  function MaxUnlockedStage(evs: seq<Evidence>): nat
  {
    if evs == [] then 0
    else
      var rest := MaxUnlockedStage(evs[1..]);
      if evs[0].unlocked && evs[0].stage > rest then evs[0].stage else rest
  }

  /** The maximum bounds every unlocked stage and, when positive, is one. */
  lemma {:induction false} MaxUnlockedStageIsMax(evs: seq<Evidence>)
    ensures var m := MaxUnlockedStage(evs);
            (forall i :: 0 <= i < |evs| && evs[i].unlocked ==> evs[i].stage <= m) &&
            (m > 0 ==> exists i :: 0 <= i < |evs| && evs[i].unlocked && evs[i].stage == m)
  {
    if evs != [] {
      MaxUnlockedStageIsMax(evs[1..]);
      var rest := MaxUnlockedStage(evs[1..]);
      forall i | 0 < i < |evs|
        ensures evs[i] == evs[1..][i - 1]
      {
      }
      if !(evs[0].unlocked && evs[0].stage > rest) && rest > 0 {
        var j :| 0 <= j < |evs[1..]| && evs[1..][j].unlocked && evs[1..][j].stage == rest;
        assert evs[j + 1] == evs[1..][j];
      }
    }
  }

  predicate AllUnlocked(evs: seq<Evidence>)
  {
    forall i :: 0 <= i < |evs| ==> evs[i].unlocked
  }

  /** The evidence is the initial list with only the unlocked flags moved. */
  predicate SameLocker(evs: seq<Evidence>)
  {
    |evs| == |INITIAL_EVIDENCES| &&
    forall i :: 0 <= i < |evs| ==> evs[i] == INITIAL_EVIDENCES[i].(unlocked := evs[i].unlocked)
  }

  lemma LockerStagesAtMostFour(evs: seq<Evidence>)
    requires SameLocker(evs)
    ensures MaxUnlockedStage(evs) <= LAST_STAGE
  {
    MaxUnlockedStageIsMax(evs);
    var m := MaxUnlockedStage(evs);
    if m > 0 {
      var i :| 0 <= i < |evs| && evs[i].unlocked && evs[i].stage == m;
      assert evs[i].stage == INITIAL_EVIDENCES[i].stage;
    }
  }

  /** Once every piece is unlocked, no text unlocks anything new. */
  lemma NothingNewOnceAllUnlocked(evs: seq<Evidence>, text: string)
    requires NewlyUnlocked(evs, text)
    ensures !AllUnlocked(evs)
  {
  }

  /** Unlocking keeps the locker's pieces and stages, so the highest
      unlocked stage stays at most 4. */
  lemma UnlockKeepsLocker(evs: seq<Evidence>, text: string)
    requires SameLocker(evs)
    ensures SameLocker(Unlock(evs, text))
    ensures MaxUnlockedStage(Unlock(evs, text)) <= LAST_STAGE
  {
    UnlockEntries(evs, text);
    var r := Unlock(evs, text);
    forall i | 0 <= i < |r|
      ensures r[i] == INITIAL_EVIDENCES[i].(unlocked := r[i].unlocked)
    {
      assert r[i] == evs[i].(unlocked := r[i].unlocked);
    }
    LockerStagesAtMostFour(r);
  }

  /** The investigation's state: the locker keeps its pieces and stages;
      the stage lies in 1..5 and is never behind the highest unlocked stage;
      the investigation is over exactly when every piece is unlocked. */
  predicate ValidState(evs: seq<Evidence>, stage: nat, finished: bool)
  {
    SameLocker(evs) &&
    1 <= stage <= LAST_STAGE + 1 &&
    MaxUnlockedStage(evs) <= stage &&
    (finished <==> AllUnlocked(evs))
  }

  /** An unlock that finds something new keeps the state valid, with the
      stage moved past the highest unlocked stage when it has caught up and
      is below the last one. */
  lemma UnlockStepKeepsState(evs: seq<Evidence>, text: string, stage: nat, finished: bool)
    requires ValidState(evs, stage, finished) && NewlyUnlocked(evs, text)
    ensures !finished
    ensures var r := Unlock(evs, text);
            var m := MaxUnlockedStage(r);
            ValidState(r, if m >= stage && stage < LAST_STAGE then m + 1 else stage, AllUnlocked(r))
  {
    NothingNewOnceAllUnlocked(evs, text);
    UnlockKeepsLocker(evs, text);
  }

  /** The stage can overshoot the last one: a first question mentioning the
      government unlocks the stage-4 piece whatever else it unlocks, so the
      highest unlocked stage is 4 and the stage jumps from 1 straight to 5. */
  lemma StageCanReachFive(text: string)
    requires Contains(text, "정부")
    ensures NewlyUnlocked(INITIAL_EVIDENCES, text)
    ensures MaxUnlockedStage(Unlock(INITIAL_EVIDENCES, text)) == LAST_STAGE
  {
    var keywords := Keywords("state-1");
    assert keywords[2] == "정부";
    MatchesAnyIff(keywords, text);
    var evs := INITIAL_EVIDENCES;
    assert evs[4].id == "state-1" && !evs[4].unlocked;
    assert SameLocker(evs);
    UnlockEntries(evs, text);
    UnlockKeepsLocker(evs, text);
    var r := Unlock(evs, text);
    assert r[4].unlocked && r[4].stage == 4;
    MaxUnlockedStageIsMax(r);
  }

  /** A chat line. */
  datatype Message = User(content: string) | Assistant(content: string)

  /** The archive's answer to a question: a reply text (possibly empty) or
      a failed call. */
  datatype Reply = Answered(text: string) | CallFailed

  class Investigation {
    var messages: seq<Message>
    var input: string
    var evidences: seq<Evidence>
    var currentStage: nat
    var isLoading: bool
    var isFinished: bool
    /** The question the pending reply answers. */
    var pendingInput: string

    /** The state of the investigation is valid. */
    predicate Valid()
      reads this
    {
      ValidState(evidences, currentStage, isFinished)
    }

    constructor ()
      ensures Valid() && messages == [] && input == "" && evidences == INITIAL_EVIDENCES
      ensures currentStage == 1 && !isLoading && !isFinished
    {
      messages := [];
      input := "";
      evidences := INITIAL_EVIDENCES;
      currentStage := 1;
      isLoading := false;
      isFinished := false;
      pendingInput := "";
      assert !INITIAL_EVIDENCES[0].unlocked;
    }

    /** Typing in the question box. */
    method Type(text: string)
      modifies this`input
      ensures input == text
    {
      input := text;
    }

    /** `checkEvidenceUnlocks`: when something new unlocks, store the new
        locker, move the stage past the highest unlocked stage if it has
        caught up (and is below 4), and finish once everything is unlocked.
        Otherwise nothing changes. */
    method CheckUnlocks(text: string)
      requires Valid()
      modifies this`evidences, this`currentStage, this`isFinished
      ensures Valid()
      ensures !NewlyUnlocked(old(evidences), text) ==>
                evidences == old(evidences) && currentStage == old(currentStage) &&
                isFinished == old(isFinished)
      ensures NewlyUnlocked(old(evidences), text) ==>
                evidences == Unlock(old(evidences), text) &&
                currentStage == (var m := MaxUnlockedStage(evidences);
                                 if m >= old(currentStage) && old(currentStage) < LAST_STAGE
                                 then m + 1 else old(currentStage)) &&
                (isFinished <==> old(isFinished) || AllUnlocked(evidences))
      ensures currentStage >= old(currentStage)
    {
      if !NewlyUnlocked(evidences, text) {
        return;
      }
      UnlockStepKeepsState(evidences, text, currentStage, isFinished);
      evidences := Unlock(evidences, text);
      var maxUnlockedStage := MaxUnlockedStage(evidences);
      if maxUnlockedStage >= currentStage && currentStage < LAST_STAGE {
        currentStage := maxUnlockedStage + 1;
      }
      if AllUnlocked(evidences) {
        isFinished := true;
      }
    }

    /** `handleSend` up to the call: ignored for a blank question, while a
        reply is pending or once finished; otherwise the question joins the
        chat, the box is cleared and the reply is awaited. */
    method Send()
      requires Valid()
      modifies this`messages, this`input, this`isLoading, this`pendingInput
      ensures Valid()
      ensures IsBlank(old(input)) || old(isLoading) || isFinished ==>
                messages == old(messages) && input == old(input) && isLoading == old(isLoading) &&
                pendingInput == old(pendingInput)
      ensures !(IsBlank(old(input)) || old(isLoading) || isFinished) ==>
                messages == old(messages) + [User(old(input))] && input == "" && isLoading &&
                pendingInput == old(input)
    {
      TrimEmptyIff(input);
      if Trim(input) == "" || isLoading || isFinished {
        return;
      }
      messages := messages + [User(input)];
      pendingInput := input;
      input := "";
      isLoading := true;
    }

    /** The rest of `handleSend`: the reply (or "no record" for an empty
        one) joins the chat and is checked, with the question, for
        keywords; a failed call adds the error line instead. */
    method Receive(reply: Reply)
      requires Valid() && isLoading
      modifies this`messages, this`evidences, this`currentStage, this`isFinished, this`isLoading
      ensures Valid() && !isLoading
      ensures reply.CallFailed? ==>
                messages == old(messages) + [Assistant(SYSTEM_ERROR)] &&
                evidences == old(evidences) && currentStage == old(currentStage) &&
                isFinished == old(isFinished)
      ensures reply.Answered? ==>
                var text := Or(reply.text, NO_RECORD) + " " + pendingInput;
                messages == old(messages) + [Assistant(Or(reply.text, NO_RECORD))] &&
                (!NewlyUnlocked(old(evidences), text) ==>
                   evidences == old(evidences) && currentStage == old(currentStage) &&
                   isFinished == old(isFinished)) &&
                (NewlyUnlocked(old(evidences), text) ==>
                   evidences == Unlock(old(evidences), text) &&
                   currentStage == (var m := MaxUnlockedStage(evidences);
                                    if m >= old(currentStage) && old(currentStage) < LAST_STAGE
                                    then m + 1 else old(currentStage)) &&
                   (isFinished <==> old(isFinished) || AllUnlocked(evidences)))
      ensures currentStage >= old(currentStage)
    {
      match reply {
        case CallFailed =>
          messages := messages + [Assistant(SYSTEM_ERROR)];
        case Answered(text) =>
          var aiText := Or(text, NO_RECORD);
          messages := messages + [Assistant(aiText)];
          CheckUnlocks(aiText + " " + pendingInput);
      }
      isLoading := false;
    }
  }
}
