/**
 * The home page (pages/HomePage.tsx): the article feed per category, with the
 * HOME interleaving of interactive and general articles, the "read more"
 * display limit, the lookup of the article being read, and the local
 * creation of an article from the composer panel.
 */
module HomePage {
  import opened Wrappers
  import opened Strings
  import opened Seqs
  import opened Articles
  import AppShell

  const INITIAL_LIMIT: nat := 8
  const LIMIT_STEP: nat := 6

  // ---------------------------------------------------------------------------
  // The HOME interleaving

  /** The order the HOME feed puts its articles in: one interactive article,
      then up to two general ones, round after round; whatever is left of
      either list once the other runs out follows in order. */
  function Interleave<T>(interactive: seq<T>, general: seq<T>): seq<T>
    decreases |interactive| + |general|
  {
    if |interactive| == 0 then general
    else
      var k := if |general| < 2 then |general| else 2;
      [interactive[0]] + general[..k] + Interleave(interactive[1..], general[k..])
  }

  /** One round of the feed loop, whether or not an interactive article is
      left: its interactive article (if any), up to two general ones, then
      the rest. */
  lemma RoundAt<T>(interactive: seq<T>, general: seq<T>, i: nat, g: nat)
    requires i <= |interactive| && g <= |general|
    ensures var k := if |general| - g < 2 then |general| - g else 2;
            var i' := if i < |interactive| then i + 1 else i;
            Interleave(interactive[i..], general[g..]) ==
              interactive[i..i'] + general[g..g + k] + Interleave(interactive[i'..], general[g + k..])
  {
    var k := if |general| - g < 2 then |general| - g else 2;
    var I, G := interactive[i..], general[g..];
    assert G[..k] == general[g..g + k];
    assert G[k..] == general[g + k..];
    if i < |interactive| {
      assert I[1..] == interactive[i + 1..];
      assert I[..1] == interactive[i..i + 1];
    } else {
      assert G == G[..k] + G[k..];
      assert interactive[i..i] == [];
    }
  }

  lemma Regroup<T>(a: seq<T>, b: seq<T>, c: seq<T>, d: seq<T>)
    ensures a + b + c + d == a + (b + c + d)
  {
  }

  /** The first round of a non-empty feed, written out. */
  lemma FirstRound<T>(interactive: seq<T>, general: seq<T>)
    requires |interactive| > 0
    ensures var k := if |general| < 2 then |general| else 2;
            Interleave(interactive, general) ==
              ([interactive[0]] + general[..k]) + Interleave(interactive[1..], general[k..])
  {
  }

  /** A sequence is its prefix followed by its suffix. */
  lemma Split<T>(s: seq<T>, k: nat)
    requires k <= |s|
    ensures s == s[..k] + s[k..]
  {
  }

  /** Pushing the next element of `s` extends the pushed block by one. */
  lemma PushOne<T>(prefix: seq<T>, s: seq<T>, from: nat, to: nat)
    requires from <= to < |s|
    ensures prefix + s[from..to] + [s[to]] == prefix + s[from..to + 1]
  {
    assert s[from..to + 1] == s[from..to] + [s[to]];
  }

  /** The feed holds every article of both lists exactly as often as they do. */
  lemma {:induction false} InterleaveMultiset<T>(interactive: seq<T>, general: seq<T>)
    ensures multiset(Interleave(interactive, general)) == multiset(interactive) + multiset(general)
    ensures |Interleave(interactive, general)| == |interactive| + |general|
    decreases |interactive| + |general|
  {
    if |interactive| > 0 {
      var k := if |general| < 2 then |general| else 2;
      FirstRound(interactive, general);
      InterleaveMultiset(interactive[1..], general[k..]);
      Split(interactive, 1);
      Split(general, k);
      assert interactive[..1] == [interactive[0]];
    }
  }

  /** Filtering one round: the interactive article is picked, the general
      ones are passed over. */
  lemma FilterRound<T>(x: T, gk: seq<T>, rest: seq<T>, p: T -> bool)
    requires p(x) && forall i :: 0 <= i < |gk| ==> !p(gk[i])
    ensures Filter([x] + gk + rest, p) == [x] + Filter(rest, p)
    ensures Reject([x] + gk + rest, p) == gk + Reject(rest, p)
  {
    FilterNone(gk, p);
    FilterAll([x], p);
    FilterAppend([x] + gk, rest, p);
    FilterAppend([x], gk, p);
  }

  /** Each list keeps its own order inside the feed: picking the interactive
      articles out of the feed gives back the interactive list ... */
  lemma {:induction false} InterleaveFilter<T>(interactive: seq<T>, general: seq<T>, p: T -> bool)
    requires forall i :: 0 <= i < |interactive| ==> p(interactive[i])
    requires forall i :: 0 <= i < |general| ==> !p(general[i])
    ensures Filter(Interleave(interactive, general), p) == interactive
    decreases |interactive| + |general|
  {
    if |interactive| == 0 {
      FilterNone(general, p);
    } else {
      var k := if |general| < 2 then |general| else 2;
      FirstRound(interactive, general);
      InterleaveFilter(interactive[1..], general[k..], p);
      FilterRound(interactive[0], general[..k], Interleave(interactive[1..], general[k..]), p);
      Split(interactive, 1);
    }
  }

  /** ... and the rest is the general list. */
  lemma {:induction false} InterleaveReject<T>(interactive: seq<T>, general: seq<T>, p: T -> bool)
    requires forall i :: 0 <= i < |interactive| ==> p(interactive[i])
    requires forall i :: 0 <= i < |general| ==> !p(general[i])
    ensures Reject(Interleave(interactive, general), p) == general
    decreases |interactive| + |general|
  {
    if |interactive| == 0 {
      FilterNone(general, p);
    } else {
      var k := if |general| < 2 then |general| else 2;
      FirstRound(interactive, general);
      InterleaveReject(interactive[1..], general[k..], p);
      FilterRound(interactive[0], general[..k], Interleave(interactive[1..], general[k..]), p);
      Split(general, k);
    }
  }

  /** With general articles to spare, the first `k` rounds take `k`
      interactive and `2k` general articles, and the feed goes on with the
      interleaving of what is left. */
  lemma {:induction false} InterleaveSkipRounds<T>(interactive: seq<T>, general: seq<T>, k: nat)
    requires k <= |interactive| && 2 * k <= |general|
    ensures 3 * k <= |Interleave(interactive, general)|
    ensures Interleave(interactive, general)[3 * k..] == Interleave(interactive[k..], general[2 * k..])
  {
    if k > 0 {
      var rest := Interleave(interactive[1..], general[2..]);
      assert Interleave(interactive, general) == [interactive[0], general[0], general[1]] + rest;
      InterleaveSkipRounds(interactive[1..], general[2..], k - 1);
      assert interactive[1..][k - 1..] == interactive[k..];
      assert general[2..][2 * (k - 1)..] == general[2 * k..];
    }
  }

  /** Round `j` of a feed with general articles to spare is "interactive j,
      general 2j, general 2j+1". */
  lemma InterleaveRound<T>(interactive: seq<T>, general: seq<T>, j: nat)
    requires j < |interactive| && 2 * j + 2 <= |general|
    ensures var mixed := Interleave(interactive, general);
            3 * j + 2 < |mixed| &&
            mixed[3 * j] == interactive[j] &&
            mixed[3 * j + 1] == general[2 * j] &&
            mixed[3 * j + 2] == general[2 * j + 1]
  {
    InterleaveSkipRounds(interactive, general, j);
    var I, G := interactive[j..], general[2 * j..];
    assert Interleave(I, G) == [I[0], G[0], G[1]] + Interleave(I[1..], G[2..]);
  }

  /** Once the general articles run out, the remaining interactive articles
      follow one per round, in order. */
  lemma {:induction false} InterleaveNoGeneral<T>(interactive: seq<T>)
    ensures Interleave(interactive, []) == interactive
  {
    if |interactive| > 0 {
      InterleaveNoGeneral(interactive[1..]);
      assert [interactive[0]] + interactive[1..] == interactive;
    }
  }

  /** When the interactive articles run out first, the general articles
      still unused follow them in order. */
  lemma InterleaveGeneralTail<T>(interactive: seq<T>, general: seq<T>)
    requires 2 * |interactive| <= |general|
    ensures var n := |interactive|;
            3 * n <= |Interleave(interactive, general)| &&
            Interleave(interactive, general)[3 * n..] == general[2 * n..]
  {
    var n := |interactive|;
    InterleaveSkipRounds(interactive, general, n);
    assert interactive[n..] == [];
  }

  /** When the general articles run out first (after `k` full rounds), the
      interactive articles still unused follow one per round, in order; an
      odd last general article closes the round after the next interactive
      one. */
  lemma InterleaveInteractiveTail<T>(interactive: seq<T>, general: seq<T>)
    requires |general| < 2 * |interactive|
    ensures var k := |general| / 2;
            var mixed := Interleave(interactive, general);
            3 * k <= |mixed| &&
            (|general| % 2 == 0 ==> mixed[3 * k..] == interactive[k..]) &&
            (|general| % 2 == 1 ==>
               mixed[3 * k..] == [interactive[k], general[|general| - 1]] + interactive[k + 1..])
  {
    var k := |general| / 2;
    InterleaveSkipRounds(interactive, general, k);
    var I, G := interactive[k..], general[2 * k..];
    if |general| % 2 == 0 {
      assert G == [];
      InterleaveNoGeneral(I);
    } else {
      assert G == [general[|general| - 1]];
      InterleaveLastGeneral(I, G);
      assert I[1..] == interactive[k + 1..];
    }
  }

  /** A single general article left goes right after the next interactive
      one. */
  lemma InterleaveLastGeneral<T>(interactive: seq<T>, general: seq<T>)
    requires |interactive| > 0 && |general| == 1
    ensures Interleave(interactive, general) == [interactive[0]] + general + interactive[1..]
  {
    FirstRound(interactive, general);
    assert general[..1] == general;
    assert general[1..] == [];
    InterleaveNoGeneral(interactive[1..]);
  }

  /** The HOME feed loop (HomePage.tsx, `filteredArticles`): push one
      interactive and up to two general articles per round until both lists
      are used up. */
  method Mix<T>(interactive: seq<T>, general: seq<T>) returns (mixed: seq<T>)
    ensures mixed == Interleave(interactive, general)
  {
    mixed := [];
    var iIdx, gIdx := 0, 0;
    while iIdx < |interactive| || gIdx < |general|
      invariant 0 <= iIdx <= |interactive| && 0 <= gIdx <= |general|
      invariant mixed + Interleave(interactive[iIdx..], general[gIdx..]) == Interleave(interactive, general)
      decreases |interactive| - iIdx + |general| - gIdx
    {
      ghost var m0, i0, g0 := mixed, iIdx, gIdx;
      if iIdx < |interactive| {
        PushOne(m0, interactive, i0, i0);
        mixed := mixed + [interactive[iIdx]];
        iIdx := iIdx + 1;
      }
      assert mixed == m0 + interactive[i0..iIdx] + general[g0..gIdx];
      if gIdx < |general| {
        PushOne(m0 + interactive[i0..iIdx], general, g0, gIdx);
        mixed := mixed + [general[gIdx]];
        gIdx := gIdx + 1;
      }
      assert mixed == m0 + interactive[i0..iIdx] + general[g0..gIdx];
      if gIdx < |general| {
        PushOne(m0 + interactive[i0..iIdx], general, g0, gIdx);
        mixed := mixed + [general[gIdx]];
        gIdx := gIdx + 1;
      }
      RoundClose(interactive, general, m0, i0, g0, mixed, iIdx, gIdx);
    }
  }

  /** A finished round of the loop keeps "what is pushed, followed by the
      interleaving of what is left, is the whole feed". */
  lemma RoundClose<T>(interactive: seq<T>, general: seq<T>, pushed: seq<T>, i0: nat, g0: nat,
                      mixed: seq<T>, i1: nat, g1: nat)
    requires i0 <= |interactive| && g0 <= |general|
    requires pushed + Interleave(interactive[i0..], general[g0..]) == Interleave(interactive, general)
    requires i1 == if i0 < |interactive| then i0 + 1 else i0
    requires g1 == g0 + if |general| - g0 < 2 then |general| - g0 else 2
    requires mixed == pushed + interactive[i0..i1] + general[g0..g1]
    ensures mixed + Interleave(interactive[i1..], general[g1..]) == Interleave(interactive, general)
  {
    RoundAt(interactive, general, i0, g0);
    Regroup(pushed, interactive[i0..i1], general[g0..g1], Interleave(interactive[i1..], general[g1..]));
  }

  // ---------------------------------------------------------------------------
  // Category feeds

  /** The feed of a category: HOME interleaves, the "most popular" category
      lists every non-interactive article, any other category lists the
      articles filed under it. */
  function Filtered(cat: string, all: seq<Article>): (r: seq<Article>)
    ensures cat != HOME && cat != POPULAR ==>
              (forall i :: 0 <= i < |r| ==> r[i] in all && r[i].category == cat) &&
              (forall i :: 0 <= i < |all| && all[i].category == cat ==> all[i] in r)
    ensures cat == POPULAR ==>
              (forall i :: 0 <= i < |r| ==> r[i] in all && r[i].category != INTERACTIVE) &&
              (forall i :: 0 <= i < |all| && all[i].category != INTERACTIVE ==> all[i] in r)
    ensures cat == POPULAR ==> r == Reject(all, InInteractiveCategory)
    ensures cat != HOME && cat != POPULAR ==> r == Filter(all, (a: Article) => a.category == cat)
  {
    if cat == HOME then
      Interleave(Filter(all, InInteractiveCategory), Reject(all, InInteractiveCategory))
    else if cat == POPULAR then
      RejectMembers(all, InInteractiveCategory);
      Reject(all, InInteractiveCategory)
    else
      FilterMembers(all, (a: Article) => a.category == cat);
      Filter(all, (a: Article) => a.category == cat)
  }

  /** `filteredArticles`. */
  method FilteredArticles(cat: string, all: seq<Article>) returns (r: seq<Article>)
    ensures r == Filtered(cat, all)
  {
    if cat == HOME {
      r := Mix(Filter(all, InInteractiveCategory), Reject(all, InInteractiveCategory));
    } else {
      r := Filtered(cat, all);
    }
  }

  /** The HOME feed is a permutation of all articles: same length, every
      article exactly as often as in the list. */
  lemma HomeIsPermutation(all: seq<Article>)
    ensures multiset(Filtered(HOME, all)) == multiset(all)
    ensures |Filtered(HOME, all)| == |all|
  {
    var interactive := Filter(all, InInteractiveCategory);
    var general := Reject(all, InInteractiveCategory);
    InterleaveMultiset(interactive, general);
    FilterRejectSplit(all, InInteractiveCategory);
  }

  /** In the HOME feed the interactive articles keep their relative order,
      and so do the general ones. */
  lemma HomeKeepsOrder(all: seq<Article>)
    ensures Filter(Filtered(HOME, all), InInteractiveCategory) == Filter(all, InInteractiveCategory)
    ensures Reject(Filtered(HOME, all), InInteractiveCategory) == Reject(all, InInteractiveCategory)
  {
    var interactive := Filter(all, InInteractiveCategory);
    var general := Reject(all, InInteractiveCategory);
    FilterMembers(all, InInteractiveCategory);
    RejectMembers(all, InInteractiveCategory);
    InterleaveFilter(interactive, general, InInteractiveCategory);
    InterleaveReject(interactive, general, InInteractiveCategory);
  }

  // ---------------------------------------------------------------------------
  // Display limit

  /** `filteredArticles.slice(0, displayLimit)`. */
  function Displayed(filtered: seq<Article>, limit: nat): (r: seq<Article>)
    ensures |r| == if limit < |filtered| then limit else |filtered|
    ensures r <= filtered
  {
    if limit < |filtered| then filtered[..limit] else filtered
  }

  /** The "read more" button is offered when the feed is longer than the limit. */
  predicate ReadMoreOffered(filtered: seq<Article>, limit: nat)
  {
    |filtered| > limit
  }

  /** "Read more" is offered exactly when some article of the feed is not
      displayed, and pressing it only extends what is displayed. */
  lemma ReadMoreShowsHidden(filtered: seq<Article>, limit: nat)
    ensures ReadMoreOffered(filtered, limit) <==> |Displayed(filtered, limit)| < |filtered|
    ensures Displayed(filtered, limit) <= Displayed(filtered, limit + LIMIT_STEP)
  {
  }

  // ---------------------------------------------------------------------------
  // Article creation

  /** The composer panel's fields. */
  datatype WriteForm = WriteForm(title: string, source: string, imageStyle: string, body: string)

  const EMPTY_FORM: WriteForm := WriteForm("", "", DEFAULT_IMAGE_STYLE, "")

  /** The fields of the generated article; an empty string stands for a field
      the reply left out. */
  datatype Generated = Generated(body: string, summary: string, category: string)

  /** The text-generation call: a reply that parsed as JSON, or a failure
      (the call threw or the reply was not JSON). */
  datatype Generation = Replied(fields: Generated) | GenerationFailed

  /** The article the composer prepends, with the page's defaults:
      category "국내", the title as summary, the user's memo as body and
      "알 수 없음" as source. */
  function NewArticle(form: WriteForm, g: Generated, now: nat, nowIso: string): (a: Article)
    ensures a.id == "local-" + NatToString(now) && a.title == form.title
    ensures a.category == (if g.category != "" then g.category else DOMESTIC)
    ensures a.summary == (if g.summary != "" then g.summary else form.title)
    ensures a.body == [if g.body != "" then g.body else form.body]
    ensures a.source == Some(if form.source != "" then form.source else UNKNOWN_SOURCE)
    ensures a.thumbnail == FALLBACK_IMG && a.lead == "" && !a.isInteractive && a.caption.None?
    ensures a.imageStyle == Some(form.imageStyle) && a.createdAt == Some(nowIso)
  {
    Article(
      id := "local-" + NatToString(now),
      title := form.title,
      thumbnail := FALLBACK_IMG,
      summary := Or(g.summary, form.title),
      lead := "",
      body := [Or(g.body, form.body)],
      category := Or(g.category, DOMESTIC),
      caption := None,
      isInteractive := false,
      source := Some(Or(form.source, UNKNOWN_SOURCE)),
      imageStyle := Some(form.imageStyle),
      createdAt := Some(nowIso))
  }

  /** The background thumbnail update: the article with the given id gets the
      new thumbnail. */
  function PatchThumbnail(articles: seq<Article>, id: string, url: string): (r: seq<Article>)
    ensures |r| == |articles|
    ensures forall i :: 0 <= i < |r| ==> r[i] == articles[i].(thumbnail := r[i].thumbnail)
    ensures forall i :: 0 <= i < |r| ==>
              r[i].thumbnail == if articles[i].id == id then url else articles[i].thumbnail
  {
    if articles == [] then []
    else
      var a := articles[0];
      [if a.id == id then a.(thumbnail := url) else a] + PatchThumbnail(articles[1..], id, url)
  }

  /** Articles other than the patched one are left exactly as they were. */
  lemma PatchTouchesOnlyTarget(articles: seq<Article>, id: string, url: string, i: nat)
    requires i < |articles| && articles[i].id != id
    ensures PatchThumbnail(articles, id, url)[i] == articles[i]
  {
    var r := PatchThumbnail(articles, id, url);
    assert r[i] == articles[i].(thumbnail := r[i].thumbnail);
  }

  // ---------------------------------------------------------------------------
  // The page state

  class Feed {
    var allArticles: seq<Article>
    var displayLimit: nat
    var form: WriteForm
    var panelOpen: bool

    constructor (catalogue: seq<Article>)
      ensures allArticles == catalogue && displayLimit == INITIAL_LIMIT
      ensures form == EMPTY_FORM && !panelOpen
    {
      allArticles := catalogue;
      displayLimit := INITIAL_LIMIT;
      form := EMPTY_FORM;
      panelOpen := false;
    }

    /** The article shown in the reading overlay: the first article with the
        requested id, none when no id (or the empty id) is requested. */
    function ViewingArticle(viewingId: Option<string>): (r: Option<Article>)
      reads this
      ensures r.Some? <==> Truthy(viewingId) &&
                           exists j :: 0 <= j < |allArticles| && allArticles[j].id == viewingId.value
      ensures r.Some? ==> exists j :: 0 <= j < |allArticles| && allArticles[j] == r.value &&
                           r.value.id == viewingId.value &&
                           forall k :: 0 <= k < j ==> allArticles[k].id != viewingId.value
    {
      if Truthy(viewingId) then FindById(allArticles, viewingId.value) else None
    }

    /** The "read more" button. */
    method ReadMore()
      modifies this`displayLimit
      ensures displayLimit == old(displayLimit) + LIMIT_STEP
    {
      displayLimit := displayLimit + LIMIT_STEP;
    }

    /** Typing into the composer panel. */
    method EditForm(f: WriteForm)
      modifies this`form
      ensures form == f
    {
      form := f;
    }

    method OpenPanel()
      modifies this`panelOpen
      ensures panelOpen
    {
      panelOpen := true;
    }

    /** `handleCreateArticle`: a blank title or memo does nothing; otherwise a
        successful generation prepends the new article with its defaults,
        clears the form and closes the panel, and a failed one changes
        nothing. */
    method CreateArticle(outcome: Generation, now: nat, nowIso: string)
      modifies this`allArticles, this`form, this`panelOpen
      ensures IsBlank(old(form).title) || IsBlank(old(form).body) || outcome.GenerationFailed? ==>
                allArticles == old(allArticles) && form == old(form) && panelOpen == old(panelOpen)
      ensures !IsBlank(old(form).title) && !IsBlank(old(form).body) && outcome.Replied? ==>
                allArticles == [NewArticle(old(form), outcome.fields, now, nowIso)] + old(allArticles) &&
                form == EMPTY_FORM && !panelOpen
    {
      TrimEmptyIff(form.title);
      TrimEmptyIff(form.body);
      if Trim(form.title) == "" || Trim(form.body) == "" {
        return;
      }
      match outcome
      case GenerationFailed =>
      case Replied(g) =>
        var article := NewArticle(form, g, now, nowIso);
        allArticles := [article] + allArticles;
        form := EMPTY_FORM;
        panelOpen := false;
    }

    /** The background image task finishing for the article `id`: a non-empty
        image replaces that article's thumbnail and nothing else. */
    method ApplyThumbnail(id: string, imageUrl: string)
      modifies this`allArticles
      ensures allArticles == if imageUrl != "" then PatchThumbnail(old(allArticles), id, imageUrl)
                             else old(allArticles)
    {
      if imageUrl != "" {
        allArticles := PatchThumbnail(allArticles, id, imageUrl);
      }
    }

    /** A category button (and the masthead, with HOME): the shell's category
        setter, then its "back" callback as seen from this render, then the
        limit reset. With no article open the shell lands on `cat`. */
    method ClickCategory(app: AppShell.App, cat: string)
      modifies this`displayLimit, app
      ensures displayLimit == INITIAL_LIMIT
      ensures app.selectedArticleId == None
      ensures app.selectedCategory ==
                if app.BackGoesToInteractive(old(app.selectedArticleId)) then INTERACTIVE else cat
      ensures old(app.selectedArticleId) == None ==> app.selectedCategory == cat
    {
      var viewed := app.selectedArticleId;
      app.SetCategory(cat);
      app.BackFrom(viewed);
      displayLimit := INITIAL_LIMIT;
    }
  }
}
