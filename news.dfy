/** The news page: a fixed list of articles, dated relative to the moment
    the page's module was loaded, narrowed by a search box and a category
    tab. */
module News {
  import opened Types
  import opened Text
  import opened Seqs

  /** The category tab that does not narrow the list. */
  const AllCategories := "All"

  /** `24 * 60 * 60 * 1000` */
  const DayMillis := 86400000

  // ---------------------------------------------------------------------
  // The articles the page loads
  //
  // Each article is its wording (headline, summary, source, link), its
  // age in days and its category. `publishedAt` is `loadedAt`, the clock
  // reading when the list was built, minus the age. The list is built
  // from any table of wordings, so that what is proved about dates and
  // categories does not depend on the wording; the page uses
  // `ArticleCopy`.
  // ---------------------------------------------------------------------

  /** The wording of one article. */
  datatype Copy = Copy(title: string, summary: string, source: string, url: string)

  /** The wording of the articles, by number. Long texts are written as
      concatenations of short pieces; each is the same string as the
      one-piece literal. */
  function ArticleCopy(n: nat): Copy {
    match n
    case 1 => Copy(
      ("AI System " + "Achieves 95% " + "Accuracy in " + "Tuberculosis " + "Detection from " +
       "Chest X-rays"),
      ("A new deep " + "learning model " + "developed by " + "researchers " +
       "demonstrates " + "remarkable " + "accuracy in " + "detecting " +
       "tuberculosis " + "from chest " + "radiographs, " + "potentially " +
       "revolutionizing " + "TB screening in " + "resource-limited " + "settings."),
      "Nature Medicine", "https://www.nature.com/nm")
    case 2 => Copy(
      ("WHO Recommends " + "AI-Powered CAD " + "Tools for TB " + "Screening " + "Programs"),
      ("The World " + "Health " + "Organization " + "has issued new " + "guidelines " +
       "recommending " + "computer-aided " + "detection " + "software as an " +
       "alternative to " + "human readers " + "in tuberculosis " + "screening " +
       "programs."),
      "WHO News", "https://www.who.int")
    case 3 => Copy(
      ("Explainable AI " + "in Medical " + "Imaging: " + "Building Trust " + "Through " +
       "Transparency"),
      ("New research " + "highlights the " + "importance of " + "interpretable " +
       "AI models in " + "clinical " + "settings, " + "showing that " + "explainable " +
       "systems improve " + "physician " + "adoption and " + "patient " + "outcomes."),
      "JAMA Network", "https://jamanetwork.com")
    case 4 => Copy(
      ("Breakthrough in " + "Pneumonia " + "Detection Using " + "Multi-Modal AI " +
       "Analysis"),
      ("Scientists " + "combine chest " + "X-ray analysis " + "with clinical " +
       "data to create " + "a comprehensive " + "AI system that " + "can " +
       "differentiate " + "between " + "bacterial and " + "viral pneumonia " +
       "with high " + "precision."),
      ("The Lancet " + "Digital Health"), "https://www.thelancet.com")
    case 5 => Copy(
      ("Mobile AI App " + "Enables TB " + "Screening in " + "Remote Villages"),
      ("A " + "smartphone-based " + "AI application " + "is helping " + "community " +
       "health workers " + "screen for " + "tuberculosis in " + "rural areas " +
       "without access " + "to " + "radiologists, " + "processing " +
       "images in under " + "30 seconds."),
      ("MIT Technology " + "Review"), "https://www.technologyreview.com")
    case 6 => Copy(
      ("FDA Approves " + "First AI System " + "for Autonomous " + "Bone Fracture " +
       "Detection"),
      ("The U.S. Food " + "and Drug " + "Administration " + "has cleared an " +
       "AI system that " + "can " + "independently " + "identify bone " +
       "fractures in " + "X-rays, marking " + "a significant " + "milestone for " +
       "autonomous " + "medical AI."),
      "FDA News", "https://www.fda.gov")
    case 7 => Copy(
      ("Deep Learning " + "Outperforms " + "Radiologists in " + "Lung Cancer " +
       "Screening Study"),
      ("A large-scale " + "clinical trial " + "shows that AI " + "systems can " + "detect " +
       "early-stage " + "lung cancer " + "with greater " + "accuracy than " + "human " +
       "radiologists, " + "potentially " + "saving " + "thousands of " +
       "lives through " + "earlier " + "intervention."),
      ("New England " + "Journal of " + "Medicine"), "https://www.nejm.org")
    case 8 => Copy(
      ("India Launches " + "National AI " + "Health " + "Initiative for " +
       "Rural Healthcare"),
      ("The Indian " + "government " + "announces a " + "nationwide " + "program to " +
       "deploy " + "AI-powered " + "diagnostic " + "tools in " + "primary health " +
       "centers across " + "rural areas, " + "aiming to " + "improve access " + "to " +
       "specialist-level " + "diagnosis."),
      ("Healthcare " + "Global"), "https://www.healthcareglobal.com")
    case _ => Copy("", "", "", "")
  }

  /** An article of the fixed list, `ageDays` days old at `loadedAt`. */
  function Article(id: string, c: Copy, ageDays: nat, category: string, loadedAt: int): NewsArticle {
    NewsArticle(id, c.title, c.summary, c.source, c.url, loadedAt - ageDays * DayMillis, category, None)
  }

  /** The category tabs above the list. */
  const Categories := ["All", "AI Research", "Clinical Research", "Healthcare Policy", "Healthcare Innovation", "Regulatory"]

  /** The fixed list: eight articles with distinct ids, each worded by its
      entry of `copy`. */
  function MockNews(copy: nat -> Copy, loadedAt: int): (r: seq<NewsArticle>)
    ensures |r| == 8
    ensures forall i, j :: 0 <= i < j < |r| ==> r[i].id != r[j].id
    ensures forall i :: 0 <= i < |r| ==> r[i].title == copy(i + 1).title && r[i].summary == copy(i + 1).summary
  {
    [Article("1", copy(1), 2, "AI Research", loadedAt),
     Article("2", copy(2), 3, "Healthcare Policy", loadedAt),
     Article("3", copy(3), 5, "AI Research", loadedAt),
     Article("4", copy(4), 7, "Clinical Research", loadedAt),
     Article("5", copy(5), 10, "Healthcare Innovation", loadedAt),
     Article("6", copy(6), 12, "Regulatory", loadedAt),
     Article("7", copy(7), 14, "Clinical Research", loadedAt),
     Article("8", copy(8), 18, "Healthcare Policy", loadedAt)]
  }

  /** The list is ordered newest first, and every article predates the
      moment it was built. */
  lemma MockNewsNewestFirst(copy: nat -> Copy, loadedAt: int)
    ensures forall i, j :: 0 <= i < j < |MockNews(copy, loadedAt)| ==>
      MockNews(copy, loadedAt)[i].publishedAt > MockNews(copy, loadedAt)[j].publishedAt
    ensures forall i :: 0 <= i < |MockNews(copy, loadedAt)| ==> MockNews(copy, loadedAt)[i].publishedAt < loadedAt
  {
    var ns := MockNews(copy, loadedAt);
    var ages := [2, 3, 5, 7, 10, 12, 14, 18];
    assert forall i :: 0 <= i < 8 ==> ns[i].publishedAt == loadedAt - ages[i] * DayMillis;
  }

  /** Every article is filed under one of the tabs other than All, so each
      can be reached by a tab. */
  lemma MockNewsCategoriesAreTabs(copy: nat -> Copy, loadedAt: int)
    ensures forall i :: 0 <= i < |MockNews(copy, loadedAt)| ==> MockNews(copy, loadedAt)[i].category in Categories[1..]
  {
    var tabs := Categories[1..];
    assert tabs == ["AI Research", "Clinical Research", "Healthcare Policy", "Healthcare Innovation", "Regulatory"];
  }

  // ---------------------------------------------------------------------
  // The filter
  // ---------------------------------------------------------------------

  /** The search box: the query, ignoring case, occurs in the title or in
      the summary. */
  predicate MatchesSearch(a: NewsArticle, query: string) {
    Matches(a.title, query) || Matches(a.summary, query)
  }

  /** The category tab: "All", or exactly the article's category (case
      matters). */
  predicate MatchesCategory(a: NewsArticle, category: string) {
    category == AllCategories || a.category == category
  }

  /** An article is listed when it passes both the search and the tab. */
  predicate Listed(a: NewsArticle, query: string, category: string) {
    MatchesSearch(a, query) && MatchesCategory(a, category)
  }

  /** `filteredNews`: the listed articles, in the page's order. */
  function FilteredNews(news: seq<NewsArticle>, query: string, category: string): (r: seq<NewsArticle>)
    ensures IsSubsequence(r, news)
    ensures forall a :: a in r <==> a in news && Listed(a, query, category)
  {
    var listed := (a: NewsArticle) => Listed(a, query, category);
    FilterIsSubsequence(news, listed);
    Filter(news, listed)
  }

  /** With an empty search and the "All" tab every article is listed, in
      order. */
  lemma EmptySearchListsAll(news: seq<NewsArticle>)
    ensures FilteredNews(news, "", AllCategories) == news
  {
    forall i | 0 <= i < |news| ensures Listed(news[i], "", AllCategories) {
      MatchesEmpty(news[i].title);
    }
    FilterAll(news, (a: NewsArticle) => Listed(a, "", AllCategories));
  }

  /** Under any tab but "All", everything listed has exactly that
      category, so a tab spelled in another case lists nothing. */
  lemma CategoryIsExact(news: seq<NewsArticle>, query: string, category: string)
    requires category != AllCategories
    ensures forall a :: a in FilteredNews(news, query, category) ==> a.category == category
  {
  }

  /** With an empty search, the "Regulatory" tab lists the sixth article
      and nothing else. */
  lemma RegulatoryListsOnlyArticle6(copy: nat -> Copy, loadedAt: int)
    ensures FilteredNews(MockNews(copy, loadedAt), "", "Regulatory") == [MockNews(copy, loadedAt)[5]]
    ensures MockNews(copy, loadedAt)[5].id == "6"
  {
    var ns := MockNews(copy, loadedAt);
    var listed := (a: NewsArticle) => Listed(a, "", "Regulatory");
    forall i | 0 <= i < |ns| ensures listed(ns[i]) <==> i == 5 {
      MatchesEmpty(ns[i].title);
    }
    FilterOnly(ns, listed, 5);
  }

  class NewsPage {
    var news: seq<NewsArticle>
    var isLoading: bool
    /** The clock reading when the fixed list was built. */
    const loadedAt: int
    /** The wording of the fixed list. */
    const copy: nat -> Copy

    /** Before the first load: no articles, loading. */
    constructor (loadedAt: int)
      ensures this.loadedAt == loadedAt && copy == ArticleCopy
      ensures news == [] && isLoading
    {
      this.loadedAt := loadedAt;
      copy := ArticleCopy;
      news := [];
      isLoading := true;
    }

    /** `refreshNews`, and the load on mount, which does the same: the
        list becomes the fixed list whatever it held, so refreshing again
        changes nothing. */
    method RefreshNews()
      modifies this`news, this`isLoading
      ensures news == MockNews(copy, loadedAt) && !isLoading
    {
      isLoading := true;
      news := MockNews(copy, loadedAt);
      isLoading := false;
    }
  }
}
