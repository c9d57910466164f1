/**
 * The article record shared by the pages (types.ts) and the category and
 * default-value constants the pages and the create-article route agree on.
 */
module Articles {
  import opened Wrappers

  /** An article. Optional fields of the record are `Option`s; the optional
      `isInteractive` flag is `false` when absent. `source`, `imageStyle` and
      `createdAt` are carried by articles written in the composer. */
  datatype Article = Article(
    id: string,
    title: string,
    thumbnail: string,
    summary: string,
    lead: string,
    body: seq<string>,
    category: string,
    caption: Option<string>,
    isInteractive: bool,
    source: Option<string>,
    imageStyle: Option<string>,
    createdAt: Option<string>)

  const HOME: string := "HOME"
  const INTERACTIVE: string := "인터랙티브"
  const POPULAR: string := "가장 인기 있는"
  const DOMESTIC: string := "국내"
  const UNKNOWN_SOURCE: string := "알 수 없음"
  const DEFAULT_IMAGE_STYLE: string := "실사 뉴스"
  const FALLBACK_IMG: string :=
    "https://images.unsplash.com/photo-1585829365234-781f8c4847c1?q=80&w=1200&auto=format&fit=crop"

  /** An article opens as an interactive experience when it is filed under the
      interactive category or carries the interactive flag. */
  predicate IsInteractive(a: Article)
  {
    a.category == INTERACTIVE || a.isInteractive
  }

  /** Filed under the interactive category (the flag is not consulted). */
  predicate InInteractiveCategory(a: Article)
  {
    a.category == INTERACTIVE
  }

  /** `articles.findIndex(a => a.id === id)`, with `None` for -1. */
  function IndexOfId(articles: seq<Article>, id: string): (r: Option<nat>)
    ensures r.Some? ==> r.value < |articles| && articles[r.value].id == id &&
                        forall j :: 0 <= j < r.value ==> articles[j].id != id
    ensures r.None? ==> forall j :: 0 <= j < |articles| ==> articles[j].id != id
  {
    if |articles| == 0 then None
    else if articles[0].id == id then Some(0)
    else
      var r := IndexOfId(articles[1..], id);
      if r.None? then None else Some(r.value + 1)
  }

  /** `articles.find(a => a.id === id)`: the first article with that id. */
  function FindById(articles: seq<Article>, id: string): (r: Option<Article>)
    ensures r.Some? <==> exists j :: 0 <= j < |articles| && articles[j].id == id
    ensures r.Some? ==> r.value.id == id && r.value == articles[IndexOfId(articles, id).value]
  {
    match IndexOfId(articles, id)
    case None => None
    case Some(i) => Some(articles[i])
  }
}
