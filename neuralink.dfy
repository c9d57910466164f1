/**
 * The Neuralink experience (components/NeuralinkExperience.tsx): three
 * languages decoded one at a time, a report that appears once all three
 * are decoded, and a reset from the report. Timer firings are method calls.
 */
module Neuralink {
  import opened Wrappers

  datatype Lang = Spanish | Chinese | French

  const LANGUAGES: seq<Lang> := [Spanish, Chinese, French]

  /** The decoded flags, one per language. */
  predicate Complete(decoded: map<Lang, bool>)
  {
    forall l: Lang :: l in decoded
  }

  function Flag(decoded: map<Lang, bool>, l: Lang): nat
    requires Complete(decoded)
  {
    if decoded[l] then 1 else 0
  }

  /** `Object.values(decoded).every(val => val)`. */
  predicate AllDecoded(decoded: map<Lang, bool>)
    requires Complete(decoded)
  {
    decoded[Spanish] && decoded[Chinese] && decoded[French]
  }

  /** The sync count: how many languages are decoded; the status shows
      complete exactly at 3. */
  function SyncCount(decoded: map<Lang, bool>): (n: nat)
    requires Complete(decoded)
    ensures n <= 3
    ensures n == 3 <==> AllDecoded(decoded)
    ensures n == 0 <==> !decoded[Spanish] && !decoded[Chinese] && !decoded[French]
  {
    Flag(decoded, Spanish) + Flag(decoded, Chinese) + Flag(decoded, French)
  }

  /** Completing the decode of a language not yet decoded raises the sync
      count by exactly one. */
  lemma DecodeRaisesSync(decoded: map<Lang, bool>, l: Lang)
    requires Complete(decoded) && !decoded[l]
    ensures Complete(decoded[l := true])
    ensures SyncCount(decoded[l := true]) == SyncCount(decoded) + 1
  {
    var d' := decoded[l := true];
    assert forall m :: m != l ==> d'[m] == decoded[m];
  }

  const NONE_DECODED: map<Lang, bool> := map[Spanish := false, Chinese := false, French := false]

  lemma NoneDecodedComplete()
    ensures Complete(NONE_DECODED) && SyncCount(NONE_DECODED) == 0
  {
    forall l: Lang
      ensures l in NONE_DECODED
    {
      match l
      case Spanish =>
      case Chinese =>
      case French =>
    }
  }

  class NeuralinkExperience {
    var decoded: map<Lang, bool>
    /** The language being decoded, whose completion timer is pending. */
    var decodingId: Option<Lang>
    var showReport: bool

    /** Every language has a flag; a language being decoded is not decoded
        yet; the report is only up once everything is decoded. */
    predicate Valid()
      reads this
    {
      Complete(decoded) &&
      (decodingId.Some? ==> !decoded[decodingId.value]) &&
      (showReport ==> AllDecoded(decoded))
    }

    constructor ()
      ensures Valid() && decoded == NONE_DECODED && decodingId == None && !showReport
    {
      NoneDecodedComplete();
      decoded := NONE_DECODED;
      decodingId := None;
      showReport := false;
    }

    /** `handleDecode`: ignored for a decoded language or while any decode is
        in progress; otherwise that language starts decoding. */
    method Decode(id: Lang)
      requires Valid()
      modifies this`decodingId
      ensures Valid()
      ensures old(decoded[id]) || old(decodingId).Some? ==> decodingId == old(decodingId)
      ensures !old(decoded[id]) && old(decodingId).None? ==> decodingId == Some(id)
    {
      if decoded[id] || decodingId.Some? {
        return;
      }
      decodingId := Some(id);
    }

    /** The decode timer: the language becomes decoded, the others keep
        their flags, and the lock is released. */
    method DecodeDone()
      requires Valid() && decodingId.Some?
      modifies this`decoded, this`decodingId
      ensures Valid()
      ensures decoded == old(decoded)[old(decodingId).value := true]
      ensures decodingId == None
      ensures SyncCount(decoded) == SyncCount(old(decoded)) + 1
    {
      DecodeRaisesSync(decoded, decodingId.value);
      decoded := decoded[decodingId.value := true];
      decodingId := None;
    }

    /** The report timer, scheduled while everything is decoded and the
        report is not up. */
    method ReportDue()
      requires Valid() && AllDecoded(decoded) && !showReport
      modifies this`showReport
      ensures Valid() && showReport
    {
      showReport := true;
    }

    /** `resetExperience`, offered on the report: all flags cleared, report
        hidden, no decode in progress. */
    method Reset()
      requires Valid() && showReport
      modifies this
      ensures Valid()
      ensures decoded == NONE_DECODED && !showReport && decodingId == None
      ensures SyncCount(decoded) == 0
    {
      NoneDecodedComplete();
      decoded := NONE_DECODED;
      showReport := false;
      decodingId := None;
    }
  }

}
