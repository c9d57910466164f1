/**
 * The application shell (App.tsx): two pieces of state, the id of the article
 * open in the reading overlay and the selected category, moved by the
 * callbacks it hands to the home page.
 */
module AppShell {
  import opened Wrappers
  import opened Articles

  class App {
    /** The static article catalogue the shell consults on "back"
        (constants.ts is not part of this model: it is a parameter). */
    const catalogue: seq<Article>
    var selectedArticleId: Option<string>
    var selectedCategory: string

    constructor (catalogue: seq<Article>)
      ensures this.catalogue == catalogue
      ensures selectedArticleId == None && selectedCategory == HOME
    {
      this.catalogue := catalogue;
      selectedArticleId := None;
      selectedCategory := HOME;
    }

    /** `handleArticleSelect`: open an article; the category stays. */
    method ArticleSelect(id: string)
      modifies this
      ensures selectedArticleId == Some(id)
      ensures selectedCategory == old(selectedCategory)
    {
      selectedArticleId := Some(id);
    }

    /** Whether closing the article `viewed` moves the shell to the
        interactive category: it must be a catalogue article that is
        interactive. */
    predicate BackGoesToInteractive(viewed: Option<string>)
    {
      viewed.Some? &&
      match FindById(catalogue, viewed.value)
      case Some(a) => IsInteractive(a)
      case None => false
    }

    /** `handleBack` as run from a handler whose render saw `viewed` as the
        open article. */
    method BackFrom(viewed: Option<string>)
      modifies this
      ensures selectedArticleId == None
      ensures selectedCategory ==
              if BackGoesToInteractive(viewed) then INTERACTIVE else old(selectedCategory)
    {
      if viewed.Some? {
        var current := FindById(catalogue, viewed.value);
        if current.Some? && IsInteractive(current.value) {
          selectedCategory := INTERACTIVE;
        }
      }
      selectedArticleId := None;
    }

    /** `handleBack`: close the open article, switching to the interactive
        category when that article is an interactive catalogue article. */
    method Back()
      modifies this
      ensures selectedArticleId == None
      ensures selectedCategory ==
              if BackGoesToInteractive(old(selectedArticleId)) then INTERACTIVE
              else old(selectedCategory)
    {
      BackFrom(selectedArticleId);
    }

    /** The category setter handed to the home page: select the category and
        close any open article. */
    method SetCategory(cat: string)
      modifies this
      ensures selectedCategory == cat && selectedArticleId == None
    {
      selectedCategory := cat;
      selectedArticleId := None;
    }
  }
}
