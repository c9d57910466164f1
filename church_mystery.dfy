/**
 * The church mystery (components/ChurchMysteryExperience.tsx): three
 * sentences typed one character at a time in light mode, then, at the
 * reader's request, three darker ones; once those are typed the detailed
 * report can be opened. Timer firings are method calls.
 */
module ChurchMystery {

  const LIGHT_SENTENCES: seq<string> := [
    "어느 마을에 누구보다 자애로운 한 목사가 있었습니다.",
    "그는 가난한 이들을 위해 헌신하며, 항상 인자한 미소로 이웃을 맞이했습니다.",
    "사람들은 그를 어둠 속의 길을 비추는 '살아있는 성자'라 칭송했습니다."
  ]

  const DARK_SENTENCES: seq<string> := [
    "하지만 밤마다 그의 예배당에서는 끊이지 않는 기도 소리가 들려왔습니다.",
    "사실 그 소리는 기도가 아니라, 지하실에서 터져 나오는 비명 소리를 감추기 위한 소음이었습니다.",
    "성경책 뒤에 숨겨진 것은 구원이 아니라, 차마 기록할 수 없는 잔혹한 살인의 일기장이었습니다."
  ]

  function Sentences(dark: bool): (s: seq<string>)
    ensures |s| == 3
  {
    if dark then DARK_SENTENCES else LIGHT_SENTENCES
  }

  /** Typing the next character of a sentence extends the typed prefix by
      one. */
  lemma TypeOne(sentence: string, i: nat, typed: string)
    requires i < |sentence| && typed == sentence[..i]
    ensures typed + [sentence[i]] == sentence[..i + 1]
  {
    assert sentence[..i + 1] == sentence[..i] + [sentence[i]];
  }

  class Story {
    var isDarkMode: bool
    var displayedSentences: seq<string>
    var currentText: string
    var sentenceIndex: nat
    var charIndex: nat
    var isTypingFinished: bool
    var showDetailedReport: bool
    /** Which script the sentences on screen were typed from; it differs
        from the mode only after "back to start". */
    ghost var typedDark: bool

    /** The finished sentences are the first `sentenceIndex` of the script
        they were typed from, the line being typed is a prefix of the next
        one, and typing counts as finished exactly when the script is used
        up. Only a finished dark script can open the report. */
    ghost predicate Valid()
      reads this
    {
      var script := Sentences(typedDark);
      sentenceIndex <= |script| &&
      displayedSentences == script[..sentenceIndex] &&
      (sentenceIndex < |script| ==>
         typedDark == isDarkMode &&
         charIndex <= |script[sentenceIndex]| &&
         currentText == script[sentenceIndex][..charIndex]) &&
      (sentenceIndex == |script| ==> charIndex == 0 && currentText == "") &&
      (isTypingFinished <==> sentenceIndex >= |script|) &&
      (isDarkMode ==> typedDark) &&
      (showDetailedReport ==> isTypingFinished && typedDark)
    }

    /** The first render, with the typing effect already run. */
    constructor ()
      ensures Valid() && !isDarkMode && displayedSentences == [] && sentenceIndex == 0
      ensures !isTypingFinished && !showDetailedReport
    {
      isDarkMode := false;
      displayedSentences := [];
      currentText := "";
      sentenceIndex := 0;
      charIndex := 0;
      isTypingFinished := false;
      showDetailedReport := false;
      typedDark := false;
    }

    /** The 50 ms character timer, scheduled while the current sentence has
        characters left. */
    method CharTick()
      requires Valid() && sentenceIndex < 3 && charIndex < |Sentences(isDarkMode)[sentenceIndex]|
      modifies this`currentText, this`charIndex
      ensures Valid()
      ensures charIndex == old(charIndex) + 1
      ensures currentText == Sentences(isDarkMode)[sentenceIndex][..charIndex]
    {
      var sentence := Sentences(isDarkMode)[sentenceIndex];
      TypeOne(sentence, charIndex, currentText);
      currentText, charIndex := currentText + [sentence[charIndex]], charIndex + 1;
    }

    /** The one-second timer after a sentence is complete, and the typing
        effect after it: the sentence moves to the finished list and the
        next one starts; after the last one typing is finished. */
    method SentenceDone()
      requires Valid() && sentenceIndex < 3 && charIndex == |Sentences(isDarkMode)[sentenceIndex]|
      modifies this`displayedSentences, this`currentText, this`sentenceIndex, this`charIndex,
               this`isTypingFinished
      ensures Valid()
      ensures displayedSentences == old(displayedSentences) + [Sentences(isDarkMode)[old(sentenceIndex)]]
      ensures currentText == "" && sentenceIndex == old(sentenceIndex) + 1 && charIndex == 0
      ensures isTypingFinished <==> sentenceIndex == 3
    {
      var script := Sentences(isDarkMode);
      displayedSentences := displayedSentences + [script[sentenceIndex]];
      currentText := "";
      sentenceIndex := sentenceIndex + 1;
      charIndex := 0;
      assert script[..sentenceIndex] == script[..sentenceIndex - 1] + [script[sentenceIndex - 1]];
      if sentenceIndex >= |script| {
        isTypingFinished := true;
      }
    }

    /** `handleMainAction`: from light mode, switch to the dark script and
        start typing it afresh; in dark mode with typing finished, open the
        report; otherwise nothing. */
    method MainAction()
      requires Valid()
      modifies this
      ensures Valid()
      ensures !old(isDarkMode) ==>
                isDarkMode && displayedSentences == [] && currentText == "" &&
                sentenceIndex == 0 && charIndex == 0 && !isTypingFinished && !showDetailedReport
      ensures old(isDarkMode) && old(isTypingFinished) ==>
                showDetailedReport && isDarkMode == old(isDarkMode) &&
                displayedSentences == old(displayedSentences) && sentenceIndex == old(sentenceIndex)
      ensures old(isDarkMode) && !old(isTypingFinished) ==>
                showDetailedReport == old(showDetailedReport) && isDarkMode == old(isDarkMode) &&
                displayedSentences == old(displayedSentences) && sentenceIndex == old(sentenceIndex) &&
                charIndex == old(charIndex) && currentText == old(currentText)
    {
      if !isDarkMode {
        isDarkMode := true;
        typedDark := true;
        displayedSentences := [];
        currentText := "";
        sentenceIndex := 0;
        charIndex := 0;
        isTypingFinished := false;
        showDetailedReport := false;
      } else if isTypingFinished {
        showDetailedReport := true;
      }
    }

    /** The "back to start" button on the report: it only switches back to
        light mode, so the counters stay at the end of the script and the
        dark sentences stay on the light screen, with typing finished. */
    method BackToStart()
      requires Valid() && showDetailedReport
      modifies this`isDarkMode
      ensures Valid()
      ensures !isDarkMode && displayedSentences == DARK_SENTENCES && sentenceIndex == 3
      ensures isTypingFinished && showDetailedReport
    {
      isDarkMode := false;
    }
  }
}
