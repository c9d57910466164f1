/**
 * The climate-analysis client (services/geminiService.ts): a cache in the
 * browser's local storage keyed by step, a retry loop with growing delays,
 * and a one-minute lockout once the service reports its quota exhausted.
 * The module-level lockout time and the local storage are the fields of a
 * `Client`; each call to the text model is an outcome chosen by the
 * environment, indexed by attempt number.
 */
module GeminiService {
  import opened Wrappers
  import opened Strings

  const CACHE_PREFIX: string := "climate_cache_"
  const ANALYSIS: string := "analysis"
  const LOCKOUT_MS: nat := 60000
  const DEFAULT_RETRIES: nat := 2
  const DEFAULT_DELAY: real := 3000.0
  const QUOTA_STATUS: int := 429
  const EMPTY_RESPONSE: string := "Empty response"
  const DEFAULT_ANALYSIS: string := "지속 가능한 미래를 위한 데이터 분석이 진행 중입니다."

  /** `getCacheKey`. */
  function CacheKey(kind: string, identifier: string): (key: string)
    ensures StartsWith(key, CACHE_PREFIX)
    ensures key[|CACHE_PREFIX|..] == kind + "_" + identifier
  {
    CACHE_PREFIX + kind + "_" + identifier
  }

  /** Distinct steps are cached under distinct keys. */
  lemma AnalysisKeysDistinct(a: nat, b: nat)
    requires CacheKey(ANALYSIS, NatToString(a)) == CacheKey(ANALYSIS, NatToString(b))
    ensures a == b
  {
    var ka := CacheKey(ANALYSIS, NatToString(a));
    var kb := CacheKey(ANALYSIS, NatToString(b));
    var n := |CACHE_PREFIX + ANALYSIS + "_"|;
    assert ka[n..] == NatToString(a);
    assert kb[n..] == NatToString(b);
    NatToStringInjective(a, b);
  }

  /** What a failed call threw: an optional HTTP status, an optional code
      and an optional message. */
  datatype CallError = CallError(status: Option<int>, code: Option<int>, message: Option<string>)

  /** One call to the text model: its text, or the error it threw and the
      clock reading when the error was caught. */
  datatype Call = Returned(text: string) | Threw(error: CallError, at: nat)

  datatype Failure = Lockout | QuotaExhausted | Failed(error: CallError)

  /** The quota classification: status or code 429, or a message mentioning
      `quota`, `429` or `RESOURCE_EXHAUSTED`. */
  predicate IsQuotaError(e: CallError)
  {
    var msg := OptOr(e.message, "");
    e.status == Some(QUOTA_STATUS) || e.code == Some(QUOTA_STATUS)
    || Contains(msg, "quota") || Contains(msg, "429") || Contains(msg, "RESOURCE_EXHAUSTED")
  }

  /** A message that mentions `429` anywhere marks a quota error, whatever
      its status and code say. */
  lemma QuotaMentionAnywhere(status: Option<int>, code: Option<int>, before: string, after: string)
    ensures IsQuotaError(CallError(status, code, Some(before + "429" + after)))
  {
    assert StartsWith("429" + after, "429");
    ContainsAppend("429", after, "429");
    ContainsAppend(before, "429" + after, "429");
    assert before + "429" + after == before + ("429" + after);
  }

  /** An empty answer is turned into an `Empty response` error. */
  function NonEmpty(c: Call): (r: Call)
    ensures r.Returned? ==> r.text != ""
    ensures c.Threw? || c.text != "" ==> r == c
    ensures c.Returned? && c.text == "" ==> r.Threw? && r.error.message == Some(EMPTY_RESPONSE)
  {
    // the clock reading 0 is never read: this error is not a quota error
    // (EmptyResponseRetried), and only a quota error's time sets the lockout
    if c.Returned? && c.text == "" then Threw(CallError(None, None, Some(EMPTY_RESPONSE)), 0)
    else c
  }

  /** The text model as the client calls it: empty answers become errors. */
  function Checked(fn: nat -> Call): nat -> Call
  {
    (x: nat) => NonEmpty(fn(x))
  }

  /** A block whose first character never occurs in a string is not
      contained in it. */
  lemma NoOccurrence(s: string, sub: string)
    requires |sub| > 0 && sub[0] !in s
    ensures !Contains(s, sub)
  {
    ContainsIff(s, sub);
    forall i | 0 <= i <= |s| - |sub|
      ensures !OccursAt(s, sub, i)
    {
      assert s[i] in s;
      assert s[i..i + |sub|][0] == s[i];
    }
  }

  /** A message without `q`, `4` or `R`, and no 429 status or code, is not
      a quota error. */
  lemma NotQuotaMessage(m: string)
    requires 'q' !in m && '4' !in m && 'R' !in m
    ensures !IsQuotaError(CallError(None, None, Some(m)))
  {
    NoOccurrence(m, "quota");
    NoOccurrence(m, "429");
    NoOccurrence(m, "RESOURCE_EXHAUSTED");
  }

  /** An empty answer is not a quota error, so it is retried. */
  lemma EmptyResponseRetried()
    ensures !IsQuotaError(CallError(None, None, Some(EMPTY_RESPONSE)))
  {
    NotQuotaMessage(EMPTY_RESPONSE);
  }

  /** The attempt at which a run that starts at attempt `k` with `retries`
      retries left stops: the first success or quota error, else the last
      allowed attempt. */
  function StopAt(fn: nat -> Call, k: nat, retries: nat): (j: nat)
    ensures k <= j <= k + retries
    ensures forall i :: k <= i < j ==> fn(i).Threw? && !IsQuotaError(fn(i).error)
    ensures j < k + retries ==> fn(j).Returned? || IsQuotaError(fn(j).error)
    decreases retries
  {
    if retries == 0 || fn(k).Returned? || IsQuotaError(fn(k).error) then k
    else StopAt(fn, k + 1, retries - 1)
  }

  /** The wait before retry `i`: the initial delay, then half as long again
      each time. */
  function Backoff(delay: real, i: nat): real
  {
    if i == 0 then delay else Backoff(delay, i - 1) * 1.5
  }

  /** With the defaults a run makes at most three calls and waits at most
      twice, 3000 ms and then 4500 ms: the third attempt's failure ends the
      run without a wait. */
  lemma DefaultBackoff(fn: nat -> Call)
    ensures StopAt(fn, 0, DEFAULT_RETRIES) <= 2
    ensures forall i :: 0 <= i < StopAt(fn, 0, DEFAULT_RETRIES) ==> Backoff(DEFAULT_DELAY, i) == [3000.0, 4500.0][i]
  {
    assert Backoff(DEFAULT_DELAY, 1) == 4500.0;
  }

  class Client {
    /** The end of the current lockout (ms since the epoch). */
    var quotaExhaustedUntil: int
    /** The browser's local storage. */
    var storage: map<string, string>

    constructor(storage: map<string, string>)
      ensures quotaExhaustedUntil == 0 && this.storage == storage
    {
      quotaExhaustedUntil := 0;
      this.storage := storage;
    }

    /** `fetchWithRetry`, starting at attempt `k` at time `now`. `next` is
        the number of the first attempt not made; `waits` are the delays
        waited before each retry. A retry re-checks the lockout at a later
        time; since only a quota error moves the lockout and a quota error
        ends the run, that check passes again and is modelled at `now`. */
    method FetchWithRetry(fn: nat -> Call, k: nat, retries: nat, delay: real, now: nat)
      returns (r: Result<string, Failure>, next: nat, waits: seq<real>)
      modifies this`quotaExhaustedUntil
      decreases retries
      ensures now < old(quotaExhaustedUntil) ==>
                r == Err(Lockout) && next == k && waits == [] && quotaExhaustedUntil == old(quotaExhaustedUntil)
      ensures now >= old(quotaExhaustedUntil) ==>
                var j := StopAt(fn, k, retries);
                next == j + 1 &&
                |waits| == j - k && (forall i :: 0 <= i < |waits| ==> waits[i] == Backoff(delay, i)) &&
                (fn(j).Returned? ==> r == Ok(fn(j).text) && quotaExhaustedUntil == old(quotaExhaustedUntil)) &&
                (fn(j).Threw? && IsQuotaError(fn(j).error) ==>
                   r == Err(QuotaExhausted) && quotaExhaustedUntil == fn(j).at + LOCKOUT_MS) &&
                (fn(j).Threw? && !IsQuotaError(fn(j).error) ==>
                   r == Err(Failed(fn(j).error)) && quotaExhaustedUntil == old(quotaExhaustedUntil))
    {
      if now < quotaExhaustedUntil {
        return Err(Lockout), k, [];
      }
      match fn(k)
      case Returned(text) =>
        return Ok(text), k + 1, [];
      case Threw(error, at) =>
        if IsQuotaError(error) {
          quotaExhaustedUntil := at + LOCKOUT_MS;
          return Err(QuotaExhausted), k + 1, [];
        }
        if retries > 0 {
          var rest;
          r, next, rest := FetchWithRetry(fn, k + 1, retries - 1, delay * 1.5, now);
          waits := [delay] + rest;
          forall i | 0 <= i < |waits|
            ensures waits[i] == Backoff(delay, i)
          {
            if i > 0 { BackoffShift(delay, i - 1); }
          }
          return;
        }
        return Err(Failed(error)), k + 1, [];
    }

    /** `getClimateAnalysis` for step `stepId`; `fn(i)` is the text model's
        answer to attempt `i` and `calls` the number of attempts made.
        `readFails` and `writeFails` say whether local storage throws on the
        read or on the write. A failing read happens before the `try`, so
        the call rejects (`answer == None`); a failing write happens inside
        it, so the fresh text is dropped and the fallback returned. */
    method GetClimateAnalysis(stepId: nat, fallback: Option<string>, fn: nat -> Call, now: nat,
                              readFails: bool, writeFails: bool)
      returns (answer: Option<string>, calls: nat)
      modifies this
      ensures readFails ==>
                answer.None? && calls == 0 && storage == old(storage) &&
                quotaExhaustedUntil == old(quotaExhaustedUntil)
      ensures !readFails ==>
              var key := CacheKey(ANALYSIS, NatToString(stepId));
              var hit := key in old(storage) && old(storage)[key] != "";
              answer.Some? &&
              (hit ==> answer.value == old(storage)[key] && calls == 0 &&
                       storage == old(storage) && quotaExhaustedUntil == old(quotaExhaustedUntil)) &&
              (!hit && now < old(quotaExhaustedUntil) ==>
                       answer.value == OptOr(fallback, DEFAULT_ANALYSIS) && calls == 0 &&
                       storage == old(storage) && quotaExhaustedUntil == old(quotaExhaustedUntil)) &&
              (!hit && now >= old(quotaExhaustedUntil) ==>
                 var j := StopAt(Checked(fn), 0, DEFAULT_RETRIES);
                 var c := NonEmpty(fn(j));
                 calls == j + 1 &&
                 (c.Returned? && !writeFails ==>
                    answer.value == fn(j).text && answer.value != "" &&
                    storage == old(storage)[key := answer.value]) &&
                 (c.Returned? && writeFails ==>
                    answer.value == OptOr(fallback, DEFAULT_ANALYSIS) && storage == old(storage)) &&
                 (c.Returned? ==> quotaExhaustedUntil == old(quotaExhaustedUntil)) &&
                 (c.Threw? ==> answer.value == OptOr(fallback, DEFAULT_ANALYSIS) && storage == old(storage)) &&
                 (c.Threw? && IsQuotaError(c.error) ==> quotaExhaustedUntil == c.at + LOCKOUT_MS) &&
                 (c.Threw? && !IsQuotaError(c.error) ==> quotaExhaustedUntil == old(quotaExhaustedUntil)))
    {
      if readFails {
        return None, 0;
      }
      var key := CacheKey(ANALYSIS, NatToString(stepId));
      var cached: Option<string> := if key in storage then Some(storage[key]) else None;
      if Truthy(cached) {
        return cached, 0;
      }
      var result, next, waits := FetchWithRetry(Checked(fn), 0, DEFAULT_RETRIES, DEFAULT_DELAY, now);
      calls := next;
      if result.Ok? && !writeFails {
        storage := storage[key := result.value];
        return Some(result.value), calls;
      }
      // the cached value is falsy here, so `fallback || cached || default`
      // never yields it
      answer := Some(OptOr(fallback, OptOr(cached, DEFAULT_ANALYSIS)));
    }
  }

  /** Retrying with the grown delay continues the same sequence of waits. */
  lemma {:induction false} BackoffShift(delay: real, i: nat)
    ensures Backoff(delay * 1.5, i) == Backoff(delay, i + 1)
  {
    if i > 0 {
      BackoffShift(delay, i - 1);
    }
  }
}
