/**
 * The article page (pages/ArticlePage.tsx): which experience an interactive
 * article opens, and the swipe gesture that moves a normal article page to
 * its neighbour in the static catalogue.
 */
module ArticlePage {
  import opened Wrappers
  import opened Strings
  import opened Articles

  const SEONGSU_ID: string := "seongsu-bridge-1994"
  const CLIMATE_ID: string := "energy-crisis-03"
  const CHURCH_ID: string := "church-mystery-001"
  const REAL_ESTATE_ID: string := "real-estate-fraud-01"
  const AI_JOBS_ID: string := "ai-jobs-impact"
  const PRICE_COLLUSION_ID: string := "price-collusion-2026"
  const NEURALINK_ID: string := "neuralink-001"
  const NEURALINK_TITLE: string := "뉴럴링크"

  /** What the page renders for an article. */
  datatype Experience =
    | SeongsuBridge | Climate | ChurchMystery | RealEstateFraud | AIJobs
    | PriceCollusion | Neuralink | Placeholder | NormalArticle

  /** Recognised as the Neuralink article by id or by title. */
  predicate IsNeuralinkArticle(a: Article)
  {
    a.id == NEURALINK_ID || Contains(a.title, NEURALINK_TITLE)
  }

  /** The rendering branch, tried in the page's order: bridge, climate,
      church, real estate, AI jobs, price collusion, Neuralink, placeholder;
      a non-interactive article gets the normal reading page. */
  function Dispatch(a: Article): (e: Experience)
    ensures e == NormalArticle <==> !IsInteractive(a)
    ensures e == SeongsuBridge <==> IsInteractive(a) && a.id == SEONGSU_ID
    ensures e == Climate <==> IsInteractive(a) && a.id == CLIMATE_ID
    ensures e == ChurchMystery <==> IsInteractive(a) && a.id == CHURCH_ID
    ensures e == RealEstateFraud <==> IsInteractive(a) && a.id == REAL_ESTATE_ID
    ensures e == AIJobs <==> IsInteractive(a) && a.id == AI_JOBS_ID
    ensures e == PriceCollusion <==> IsInteractive(a) && a.id == PRICE_COLLUSION_ID
    ensures e == Neuralink <==>
              IsInteractive(a) && IsNeuralinkArticle(a) &&
              a.id !in {SEONGSU_ID, CLIMATE_ID, CHURCH_ID, REAL_ESTATE_ID, AI_JOBS_ID, PRICE_COLLUSION_ID}
    ensures e == Placeholder <==>
              IsInteractive(a) && !IsNeuralinkArticle(a) &&
              a.id !in {SEONGSU_ID, CLIMATE_ID, CHURCH_ID, REAL_ESTATE_ID, AI_JOBS_ID, PRICE_COLLUSION_ID}
  {
    if !IsInteractive(a) then NormalArticle
    else if a.id == SEONGSU_ID then SeongsuBridge
    else if a.id == CLIMATE_ID then Climate
    else if a.id == CHURCH_ID then ChurchMystery
    else if a.id == REAL_ESTATE_ID then RealEstateFraud
    else if a.id == AI_JOBS_ID then AIJobs
    else if a.id == PRICE_COLLUSION_ID then PriceCollusion
    else if IsNeuralinkArticle(a) then Neuralink
    else Placeholder
  }

  /** An interactive article whose title names Neuralink opens the Neuralink
      experience whatever its id, unless its id claims an earlier branch. */
  lemma NeuralinkByTitle(a: Article)
    requires IsInteractive(a) && Contains(a.title, NEURALINK_TITLE)
    requires a.id !in {SEONGSU_ID, CLIMATE_ID, CHURCH_ID, REAL_ESTATE_ID, AI_JOBS_ID, PRICE_COLLUSION_ID}
    ensures Dispatch(a) == Neuralink
  {
  }

  function Abs(x: int): nat
  {
    if x < 0 then -x else x
  }

  /** `Math.abs(dragOffset) / width >= 0.22` on integers. A zero width gives
      an infinite ratio for a non-zero offset and NaN (never at least 0.22)
      for a zero one. */
  predicate SwipeFarEnough(offset: int, width: nat)
  {
    if width > 0 then 100 * Abs(offset) >= 22 * width else offset != 0
  }

  /** The integer test is the page's ratio test for every positive width. */
  lemma SwipeFarEnoughIsRatio(offset: int, width: nat)
    requires width > 0
    ensures SwipeFarEnough(offset, width) <==> (Abs(offset) as real) / (width as real) >= 0.22
  {
    var x, w := Abs(offset) as real, width as real;
    assert (100 * Abs(offset)) as real == 100.0 * x;
    assert (22 * width) as real == 22.0 * w;
    assert SwipeFarEnough(offset, width) <==> x >= 0.22 * w;
    RatioAtLeast(x, w, 0.22);
  }

  /** Dividing by a positive number and comparing is comparing against the
      scaled bound. */
  lemma RatioAtLeast(x: real, w: real, c: real)
    requires w > 0.0
    ensures x / w >= c <==> x >= c * w
  {
    var q := x / w;
    assert q * w == x;
    if q >= c {
      ScaleMonotone(c, q, w);
    } else {
      ScaleMonotone(q, c, w);
    }
  }

  lemma ScaleMonotone(a: real, b: real, w: real)
    requires a <= b && w > 0.0
    ensures a * w <= b * w && (a < b ==> a * w < b * w)
  {
    assert b * w - a * w == (b - a) * w;
  }

  /** The article a released swipe selects: the next catalogue article for a
      leftward swipe and the previous one for a rightward swipe, none past
      either end. An article missing from the catalogue counts as index -1,
      so a leftward swipe from it selects the first catalogue article. */
  function SwipeTarget(catalogue: seq<Article>, id: string, offset: int, width: nat): (r: Option<string>)
    ensures r.Some? ==> SwipeFarEnough(offset, width) &&
                        exists j :: 0 <= j < |catalogue| && catalogue[j].id == r.value
    ensures SwipeFarEnough(offset, width) ==>
              match IndexOfId(catalogue, id)
              case Some(i) =>
                r == (if offset < 0 then (if i + 1 < |catalogue| then Some(catalogue[i + 1].id) else None)
                      else (if i > 0 then Some(catalogue[i - 1].id) else None))
              case None =>
                r == (if offset < 0 && |catalogue| > 0 then Some(catalogue[0].id) else None)
  {
    if !SwipeFarEnough(offset, width) then None
    else
      var current: int := match IndexOfId(catalogue, id) case Some(i) => i case None => -1;
      if offset < 0 then
        if current < |catalogue| - 1 then Some(catalogue[current + 1].id) else None
      else
        if current > 0 then Some(catalogue[current - 1].id) else None
  }

  /** There is no wrap-around: a leftward swipe from the last article and a
      rightward swipe from the first select nothing. */
  lemma SwipeNoWrap(catalogue: seq<Article>, offset: int, width: nat)
    requires |catalogue| > 0
    requires forall i, j :: 0 <= i < j < |catalogue| ==> catalogue[i].id != catalogue[j].id
    ensures offset < 0 ==> SwipeTarget(catalogue, catalogue[|catalogue| - 1].id, offset, width) == None
    ensures offset >= 0 ==> SwipeTarget(catalogue, catalogue[0].id, offset, width) == None
  {
    var last := |catalogue| - 1;
    var r := IndexOfId(catalogue, catalogue[last].id);
    assert r.Some? && r.value == last;
    assert IndexOfId(catalogue, catalogue[0].id) == Some(0);
  }

  /** The gesture state of a normal article page. */
  class SwipeGesture {
    const catalogue: seq<Article>
    const article: Article
    /** Whether the page was given an article-selection callback. */
    const canSelect: bool
    var dragOffset: int
    var isDragging: bool
    /** The x coordinate where the drag began (the y coordinate is unused). */
    var dragStart: Option<int>

    constructor (catalogue: seq<Article>, article: Article, canSelect: bool)
      ensures this.catalogue == catalogue && this.article == article && this.canSelect == canSelect
      ensures dragOffset == 0 && !isDragging && dragStart == None
    {
      this.catalogue := catalogue;
      this.article := article;
      this.canSelect := canSelect;
      dragOffset := 0;
      isDragging := false;
      dragStart := None;
    }

    /** The swipe container exists only on the normal reading page. */
    predicate HasContainer()
    {
      !IsInteractive(article)
    }

    /** `onPointerDown`: ignored on an interactive article. */
    method PointerDown(x: int)
      modifies this`dragStart, this`isDragging
      ensures IsInteractive(article) ==> dragStart == old(dragStart) && isDragging == old(isDragging)
      ensures !IsInteractive(article) ==> dragStart == Some(x) && isDragging
    {
      if IsInteractive(article) {
        return;
      }
      dragStart := Some(x);
      isDragging := true;
    }

    /** `onPointerMove`: while dragging, the offset follows the pointer. */
    method PointerMove(x: int)
      modifies this`dragOffset
      ensures isDragging && dragStart.Some? ==> dragOffset == x - dragStart.value
      ensures !(isDragging && dragStart.Some?) ==> dragOffset == old(dragOffset)
    {
      if !isDragging || dragStart.None? {
        return;
      }
      dragOffset := x - dragStart.value;
    }

    /** `onPointerUp` (and pointer cancel): the selection it asks for, if any.
        Every release stops the drag and zeroes the offset; the early path
        (not dragging, no container or no callback) keeps the start point. */
    method PointerUp(width: nat) returns (selection: Option<string>)
      modifies this`dragOffset, this`isDragging, this`dragStart
      ensures !isDragging && dragOffset == 0
      ensures old(isDragging) && HasContainer() && canSelect ==>
                selection == SwipeTarget(catalogue, article.id, old(dragOffset), width) &&
                dragStart == None
      ensures !(old(isDragging) && HasContainer() && canSelect) ==>
                selection == None && dragStart == old(dragStart)
    {
      if !isDragging || !HasContainer() || !canSelect {
        isDragging := false;
        dragOffset := 0;
        return None;
      }
      selection := SwipeTarget(catalogue, article.id, dragOffset, width);
      isDragging := false;
      dragOffset := 0;
      dragStart := None;
    }
  }
}
