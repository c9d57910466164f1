/**
 * The article-creation endpoint (api/create-article/route.ts): validate the
 * request, ask the text model for body, summary and category (falling back
 * to the user's own memo on failure or after 15 s), store the article (5 s)
 * and, if storing fails, answer with a temporary article instead. Every
 * remote call is an outcome given to the model; the clock is a parameter.
 */
module CreateArticle {
  import opened Wrappers
  import opened Strings
  import opened Articles

  const MISSING_FIELDS: string := "필수 입력 항목이 누락되었습니다."
  const SERVER_ERROR: string := "서버 내부 오류가 발생했습니다."
  const DELAY_NOTICE: string := "\n\n(AI 분석 지연으로 인해 원문이 보존되었습니다. 잠시 후 다시 시도해 주세요.)"
  const TIMEOUT: string := "TIMEOUT"
  const AI_TIMEOUT_MS: nat := 15000
  const DB_TIMEOUT_MS: nat := 5000

  /** How a call raced against its timer: it settled first (fulfilled or
      rejected), or the timer fired first. */
  datatype Race<T> = Settled(outcome: Result<T, string>) | TimedOut

  /** `withTimeout`: the call's own outcome if it settled first, otherwise a
      TIMEOUT error. */
  function WithTimeout<T>(race: Race<T>): (r: Result<T, string>)
    ensures race.Settled? ==> r == race.outcome
    ensures race.TimedOut? ==> r == Err(TIMEOUT)
  {
    match race
    case Settled(outcome) => outcome
    case TimedOut => Err(TIMEOUT)
  }

  /** The request body after `req.json()`: unreadable, or the four fields
      (absent ones `None`). */
  datatype RequestBody =
    | Unreadable
    | Fields(title: Option<string>, body: Option<string>, source: Option<string>, imageStyle: Option<string>)

  /** The text model's JSON reply after `JSON.parse(text || '{}')`; an empty
      reply parses as `{}`, i.e. all three fields absent. `None` is a reply
      that is not JSON. */
  datatype Generated = Generated(body: Option<string>, summary: Option<string>, category: Option<string>)

  /** The row the article table receives. */
  datatype Payload = Payload(
    title: string, category: string, summary: string, body: seq<string>,
    source: string, imageStyle: string, thumbnail: string, createdAt: string)

  /** The temporary article returned when storing fails. */
  datatype MockArticle = MockArticle(
    id: string, title: string, category: string, summary: string, body: seq<string>,
    source: string, thumbnail: string, imageStyle: Option<string>, createdAt: string, isTemp: bool)

  datatype Response =
    | Stored(id: string, row: Payload)
    | Temporary(article: MockArticle)
    | Failure(status: nat, error: string)

  /** The HTTP status of a response. */
  function Status(r: Response): nat
  {
    if r.Failure? then r.status else 200
  }

  /** The stand-in for the model's reply when it fails, times out or does
      not parse: the memo with a notice, the title as summary, "국내". */
  function FallbackGenerated(title: string, userBody: string): (g: Generated)
    ensures g.body == Some(userBody + DELAY_NOTICE) && g.summary == Some(title)
    ensures g.category == Some(DOMESTIC)
  {
    Generated(Some(userBody + DELAY_NOTICE), Some(title), Some(DOMESTIC))
  }

  /** `aiResult`: the parsed reply, or the fallback. */
  function AiResult(ai: Race<Option<Generated>>, title: string, userBody: string): (g: Generated)
    ensures WithTimeout(ai).Ok? && WithTimeout(ai).value.Some? ==> g == WithTimeout(ai).value.value
    ensures !(WithTimeout(ai).Ok? && WithTimeout(ai).value.Some?) ==> g == FallbackGenerated(title, userBody)
  {
    var reply: Result<Option<Generated>, string> := WithTimeout(ai);
    if reply.Ok? && reply.value.Some? then reply.value.value else FallbackGenerated(title, userBody)
  }

  /** The insert payload, with its defaults: category "국내", the title as
      summary, the memo as body, "알 수 없음" as source, "실사 뉴스" as image
      style and the fallback thumbnail. */
  function InsertPayload(title: string, userBody: string, source: Option<string>, imageStyle: Option<string>,
                         g: Generated, nowIso: string): (p: Payload)
    ensures p.title == title && p.thumbnail == FALLBACK_IMG && p.createdAt == nowIso
    ensures p.category == (if Truthy(g.category) then g.category.value else DOMESTIC)
    ensures p.summary == (if Truthy(g.summary) then g.summary.value else title)
    ensures p.body == [if Truthy(g.body) then g.body.value else userBody]
    ensures p.source == (if Truthy(source) then source.value else UNKNOWN_SOURCE)
    ensures p.imageStyle == (if Truthy(imageStyle) then imageStyle.value else DEFAULT_IMAGE_STYLE)
  {
    Payload(title, OptOr(g.category, DOMESTIC), OptOr(g.summary, title), [OptOr(g.body, userBody)],
            OptOr(source, UNKNOWN_SOURCE), OptOr(imageStyle, DEFAULT_IMAGE_STYLE), FALLBACK_IMG, nowIso)
  }

  /** The temporary article: the payload's fields, except that the image
      style is passed on as given (not defaulted), under a `temp-` id and
      with the creation time read again when the insert has failed
      (`now`, `nowIso`). */
  function Mock(p: Payload, imageStyle: Option<string>, now: nat, nowIso: string): (m: MockArticle)
    ensures m.id == "temp-" + NatToString(now) && m.isTemp
    ensures m.title == p.title && m.category == p.category && m.summary == p.summary
    ensures m.body == p.body && m.source == p.source && m.thumbnail == p.thumbnail
    ensures m.imageStyle == imageStyle && m.createdAt == nowIso
  {
    MockArticle("temp-" + NatToString(now), p.title, p.category, p.summary, p.body, p.source,
                p.thumbnail, imageStyle, nowIso, true)
  }

  /** `POST`. `clientReady` is whether the text-model client could be
      created; `ai` and `db` are how the two calls went (the store answers
      with the new row's id). The clock is read twice: `insertIso` when the
      insert is built, `now`/`nowIso` in the handler of a failed insert. */
  function Post(req: RequestBody, clientReady: bool, ai: Race<Option<Generated>>, db: Race<string>,
                insertIso: string, now: nat, nowIso: string): (r: Response)
    ensures Status(r) == 400 <==>
              req.Fields? && !(Truthy(req.title) && Truthy(req.body))
    ensures Status(r) == 500 <==>
              req.Unreadable? || (Truthy(req.title) && Truthy(req.body) && !clientReady)
    ensures r.Failure? ==> r.status in {400, 500}
    ensures r.Stored? ==> db.Settled? && db.outcome == Ok(r.id)
    ensures r.Temporary? ==> WithTimeout(db).Err? && r.article.isTemp
    ensures !r.Failure? ==>
              req.Fields? && Truthy(req.title) && Truthy(req.body) && clientReady &&
              var p := InsertPayload(req.title.value, req.body.value, req.source, req.imageStyle,
                                     AiResult(ai, req.title.value, req.body.value), insertIso);
              (r.Stored? ==> r.row == p) &&
              (r.Temporary? ==> r.article == Mock(p, req.imageStyle, now, nowIso))
  {
    match req
    case Unreadable => Failure(500, SERVER_ERROR)
    case Fields(title, body, source, imageStyle) =>
      if !Truthy(title) || !Truthy(body) then Failure(400, MISSING_FIELDS)
      else if !clientReady then Failure(500, SERVER_ERROR)
      else
        var g := AiResult(ai, title.value, body.value);
        var payload := InsertPayload(title.value, body.value, source, imageStyle, g, insertIso);
        var stored: Result<string, string> := WithTimeout(db);
        if stored.Ok? then Stored(stored.value, payload) else Temporary(Mock(payload, imageStyle, now, nowIso))
  }

  /** When the text model fails or times out, the article keeps the memo
      (with the notice), uses the title as summary and is filed as "국내". */
  lemma AiFailureKeepsMemo(title: string, userBody: string, source: Option<string>,
                           imageStyle: Option<string>, ai: Race<Option<Generated>>,
                           db: Race<string>, insertIso: string, now: nat, nowIso: string)
    requires title != "" && userBody != ""
    requires ai.TimedOut? || (ai.Settled? && (ai.outcome.Err? || ai.outcome.value.None?))
    ensures var r := Post(Fields(Some(title), Some(userBody), source, imageStyle), true, ai, db, insertIso, now, nowIso);
            var p := if r.Stored? then r.row else InsertPayload(title, userBody, source, imageStyle, FallbackGenerated(title, userBody), insertIso);
            (r.Stored? || r.Temporary?) &&
            p.body == [userBody + DELAY_NOTICE] && p.summary == title && p.category == DOMESTIC &&
            (r.Temporary? ==> r.article.body == p.body && r.article.summary == title &&
                              r.article.category == DOMESTIC)
  {
    var g := FallbackGenerated(title, userBody);
    assert AiResult(ai, title, userBody) == g;
    assert Truthy(g.body) && Truthy(g.summary) && Truthy(g.category);
  }

  /** A storage failure or timeout still answers 200, with a temporary
      article that differs from what would have been stored only in its id,
      its undefaulted image style and its creation time, which is read
      after the failure. */
  lemma StorageFailureAnswersMock(req: RequestBody, ai: Race<Option<Generated>>, db: Race<string>,
                                  insertIso: string, now: nat, nowIso: string)
    requires req.Fields? && Truthy(req.title) && Truthy(req.body)
    requires WithTimeout(db).Err?
    ensures var r := Post(req, true, ai, db, insertIso, now, nowIso);
            var p := InsertPayload(req.title.value, req.body.value, req.source, req.imageStyle,
                                   AiResult(ai, req.title.value, req.body.value), insertIso);
            Status(r) == 200 && r == Temporary(Mock(p, req.imageStyle, now, nowIso)) &&
            r.article.createdAt == nowIso
  {
  }
}
