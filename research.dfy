/** The research page: a fixed list of papers narrowed by a search box
    and a focus area. */
module Research {
  import opened Types
  import opened Text
  import opened Seqs

  /** The focus area that does not narrow the list. */
  const AllAreas := "All"

  // ---------------------------------------------------------------------
  // The papers the page loads
  //
  // Each paper is its wording (title, authors, abstract, journal, link),
  // its date, its citation count and its keywords. The list is built
  // from any table of wordings, so that what is proved about keywords
  // does not depend on the wording; the page uses `PaperCopy`.
  // ---------------------------------------------------------------------

  /** The wording of one paper. */
  datatype Copy = Copy(title: string, authors: seq<string>, abstractText: string, journal: string, url: string)

  /** The wording of the papers, by number. Long texts are written as
      concatenations of short pieces; each is the same string as the
      one-piece literal. */
  function PaperCopy(n: nat): Copy {
    match n
    case 1 => Copy(
      ("Deep Learning " + "for Automated " + "Detection of " + "Tuberculosis in " + "Chest " +
       "Radiographs: A " + "Systematic " + "Review"),
      ["Rajpurkar, P.", "Irvin, J.", "Zhu, K.", "Yang, B."],
      ("This systematic " + "review " + "evaluates the " + "performance of " +
       "deep learning " + "algorithms for " + "tuberculosis " + "detection in " +
       "chest X-rays. " + "We analyzed 45 " + "studies " + "involving over " +
       "100,000 chest " + "radiographs and " + "found that " + "modern CNN " +
       "architectures " + "achieve " + "sensitivity " + "above 90% and " +
       "specificity " + "above 85%, " + "comparable to " + "expert " + "radiologists."),
      "Nature Medicine", "https://pubmed.ncbi.nlm.nih.gov")
    case 2 => Copy(
      ("Explainable AI " + "for Medical " + "Image Analysis: " + "A Survey of " +
       "Current Methods " + "and Clinical " + "Applications"),
      ["Singh, A.", "Sengupta, S.", ("Lakshminarayanan, " + "V.")],
      ("We present a " + "comprehensive " + "survey of " + "explainable AI " + "techniques " +
       "applied to " + "medical " + "imaging. The " + "review covers " +
       "gradient-based " + "methods, " + "attention " + "mechanisms, and " +
       "concept-based " + "explanations, " + "analyzing their " + "effectiveness " +
       "in providing " + "clinically " + "meaningful " + "interpretations."),
      ("Medical Image " + "Analysis"), "https://pubmed.ncbi.nlm.nih.gov")
    case 3 => Copy(
      ("CheXNet: " + "Radiologist-Level " + "Pneumonia " + "Detection on " + "Chest X-Rays " +
       "with Deep " + "Learning"),
      ["Rajpurkar, P.", "Irvin, J.", "Zhu, K."],
      ("We develop " + "CheXNet, a " + "121-layer " + "convolutional " + "neural network " +
       "that detects " + "pneumonia from " + "chest X-rays at " + "a level " +
       "exceeding " + "practicing " + "radiologists. " + "The model was " +
       "trained on " + "ChestX-ray14, " + "the largest " + "publicly " +
       "available chest " + "X-ray dataset."),
      ("arXiv (Stanford " + "ML Group)"), "https://arxiv.org")
    case 4 => Copy(
      ("Automated Bone " + "Fracture " + "Detection Using " + "Convolutional " + "Neural " +
       "Networks: A " + "Multi-Center " + "Validation Study"),
      ["Lindsey, R.", "Daluiski, A.", "Chopra, S.", "Lachapelle, A."],
      ("We present a " + "deep learning " + "system for " + "detecting bone " +
       "fractures in " + "radiographs. In " + "a multi-center " + "study involving " +
       "10 hospitals " + "and 31,000 " + "X-rays, the AI " + "system achieved " +
       "94% sensitivity " + "and 92% " + "specificity, " + "reducing missed " +
       "fractures by " + "35%."),
      "Radiology", "https://pubmed.ncbi.nlm.nih.gov")
    case 5 => Copy(
      ("Contour " + "Detection and " + "Segmentation in " + "Medical Images " +
       "Using U-Net " + "Architectures"),
      ["Ronneberger, O.", "Fischer, P.", "Brox, T."],
      ("We introduce " + "variations of " + "the U-Net " + "architecture " + "specifically " +
       "designed for " + "contour " + "detection and " + "anatomical " +
       "segmentation in " + "medical images. " + "Our models " + "achieve " +
       "state-of-the-art " + "performance on " + "lung " + "segmentation " +
       "and lesion " + "boundary " + "detection tasks."),
      ("IEEE " + "Transactions on " + "Medical Imaging"), "https://ieeexplore.ieee.org")
    case 6 => Copy(
      ("Transfer " + "Learning in " + "Medical " + "Imaging: From " + "ImageNet to " +
       "Pathology"),
      ["Mormont, R.", "Geurts, P.", "Mar\U{221A}\U{00A9}e, R."],
      ("This study " + "investigates " + "the " + "effectiveness " + "of transfer " +
       "learning from " + "natural images " + "to medical " + "imaging tasks. " +
       "We demonstrate " + "that " + "pre-trained " + "models " + "significantly " +
       "improve " + "performance on " + "small medical " + "datasets and " +
       "reduce training " + "time."),
      ("Journal of " + "Machine " + "Learning " + "Research"), "https://jmlr.org")
    case 7 => Copy(
      ("Federated " + "Learning for " + "Privacy-Preserving " + "Medical AI: A " +
       "Framework for " + "Multi-Institutional " + "Collaboration"),
      ["Sheller, M. J.", "Edwards, B.", "Reina, G. A."],
      ("We propose a " + "federated " + "learning " + "framework that " + "enables " +
       "multiple " + "healthcare " + "institutions to " + "collaboratively " +
       "train AI models " + "without sharing " + "patient data. " + "The approach " +
       "achieves " + "comparable " + "accuracy to " + "centralized " +
       "training while " + "maintaining " + "HIPAA " + "compliance."),
      ("Nature Digital " + "Medicine"), "https://www.nature.com/npjdigitalmed")
    case 8 => Copy(
      ("Uncertainty " + "Quantification " + "in Deep " + "Learning for " + "Medical Image " +
       "Analysis"),
      ["Gal, Y.", "Ghahramani, Z."],
      ("We present " + "methods for " + "estimating " + "prediction " + "uncertainty in " +
       "deep learning " + "models applied " + "to medical " + "images. Our " +
       "Bayesian " + "approach helps " + "identify cases " + "requiring human " +
       "review, " + "improving " + "clinical safety " + "and trust in AI " + "systems."),
      ("Medical Image " + "Computing and " + "Computer " + "Assisted " + "Intervention"), "https://miccai.org")
    case _ => Copy("", [], "", "", "")
  }

  /** A paper of the fixed list. */
  function Paper(id: string, c: Copy, publishedDate: string, citations: nat, keywords: seq<string>): ResearchPaper {
    ResearchPaper(id, c.title, c.authors, c.abstractText, publishedDate, c.journal, c.url, Some(citations), keywords)
  }

  /** The fixed list, newest first: eight papers with distinct ids, each
      worded by its entry of `copy` and carrying four keywords and a
      citation count. */
  function MockPapers(copy: nat -> Copy): (r: seq<ResearchPaper>)
    ensures |r| == 8
    ensures forall i, j :: 0 <= i < j < |r| ==> r[i].id != r[j].id
    ensures forall i :: 0 <= i < |r| ==>
              r[i].title == copy(i + 1).title && r[i].authors == copy(i + 1).authors
              && r[i].abstractText == copy(i + 1).abstractText
    ensures forall i :: 0 <= i < |r| ==> |r[i].keywords| == 4 && r[i].citations.Some?
  {
    [Paper("1", copy(1), "2024-08-15", 342, ["tuberculosis", "deep learning", "chest x-ray", "CNN"]),
     Paper("2", copy(2), "2024-07-22", 128, ["explainable AI", "medical imaging", "interpretability", "XAI"]),
     Paper("3", copy(3), "2024-06-10", 2847, ["pneumonia", "deep learning", "chest x-ray", "CheXNet"]),
     Paper("4", copy(4), "2024-05-18", 456, ["bone fracture", "deep learning", "radiograph", "CNN"]),
     Paper("5", copy(5), "2024-04-05", 1234, ["segmentation", "U-Net", "contour detection", "medical imaging"]),
     Paper("6", copy(6), "2024-03-12", 567, ["transfer learning", "ImageNet", "medical imaging", "deep learning"]),
     Paper("7", copy(7), "2024-02-28", 234, ["federated learning", "privacy", "medical AI", "HIPAA"]),
     Paper("8", copy(8), "2024-01-15", 789, ["uncertainty", "Bayesian deep learning", "medical imaging", "safety"])]
  }

  // ---------------------------------------------------------------------
  // The filter
  // ---------------------------------------------------------------------

  /** The search box: the query, ignoring case, occurs in the title, in
      the abstract or in one of the authors. */
  predicate MatchesSearch(p: ResearchPaper, query: string) {
    Matches(p.title, query) || Matches(p.abstractText, query)
    || Seqs.Some(p.authors, (a: string) => Matches(a, query))
  }

  /** The focus area: "All", or the area, ignoring case, occurs in one of
      the keywords or in the title. */
  predicate MatchesArea(p: ResearchPaper, area: string) {
    area == AllAreas || Seqs.Some(p.keywords, (k: string) => Matches(k, area))
    || Matches(p.title, area)
  }

  /** A paper is listed when it passes both the search and the area. */
  predicate Listed(p: ResearchPaper, query: string, area: string) {
    MatchesSearch(p, query) && MatchesArea(p, area)
  }

  /** `filteredPapers`: the listed papers, in the page's order. */
  function FilteredPapers(papers: seq<ResearchPaper>, query: string, area: string): (r: seq<ResearchPaper>)
    ensures IsSubsequence(r, papers)
    ensures forall p :: p in r <==> p in papers && Listed(p, query, area)
  {
    var listed := (p: ResearchPaper) => Listed(p, query, area);
    FilterIsSubsequence(papers, listed);
    Filter(papers, listed)
  }

  /** With an empty search and the "All" area every paper is listed, in
      order. */
  lemma EmptySearchListsAll(papers: seq<ResearchPaper>)
    ensures FilteredPapers(papers, "", AllAreas) == papers
  {
    forall i | 0 <= i < |papers| ensures Listed(papers[i], "", AllAreas) {
      MatchesEmpty(papers[i].title);
    }
    FilterAll(papers, (p: ResearchPaper) => Listed(p, "", AllAreas));
  }

  /** Lower-casing the area "Bone Fracture" gives the fourth paper's first
      keyword. */
  lemma BoneFractureLowered()
    ensures Lower("Bone Fracture") == "bone fracture" == Lower("bone fracture")
  {
  }

  /** A paper with a keyword equal to the area up to case passes an empty
      search and that area. */
  lemma ListedByKeyword(p: ResearchPaper, j: nat, area: string)
    requires j < |p.keywords| && Lower(p.keywords[j]) == Lower(area)
    ensures Listed(p, "", area)
  {
    MatchesEmpty(p.title);
    IncludesSelf(Lower(area));
    assert Matches(p.keywords[j], area);
  }

  /** A listed paper of the page's list appears in the filtered list. */
  lemma ListedIsKept(papers: seq<ResearchPaper>, p: ResearchPaper, query: string, area: string)
    requires p in papers && Listed(p, query, area)
    ensures p in FilteredPapers(papers, query, area)
  {
  }

  /** The fourth paper is listed under the "Bone Fracture" area with an
      empty search. */
  lemma BoneFractureListsPaper4(copy: nat -> Copy)
    ensures MockPapers(copy)[3].id == "4"
    ensures MockPapers(copy)[3] in FilteredPapers(MockPapers(copy), "", "Bone Fracture")
  {
    var p := MockPapers(copy)[3];
    assert p.keywords[0] == "bone fracture";
    BoneFractureLowered();
    ListedByKeyword(p, 0, "Bone Fracture");
    ListedIsKept(MockPapers(copy), p, "", "Bone Fracture");
  }

  /** The area tabs above the list. */
  const FocusAreas := ["All", "Tuberculosis", "Pneumonia", "Bone Fracture", "Explainable AI", "Deep Learning"]

  /** A paper of the fixed list with a keyword equal to the area up to case
      makes that area's list non-empty. */
  lemma AreaListsPaper(copy: nat -> Copy, area: string, i: nat, j: nat)
    requires i < 8 && j < 4 && Lower(MockPapers(copy)[i].keywords[j]) == Lower(area)
    ensures FilteredPapers(MockPapers(copy), "", area) != []
  {
    var p := MockPapers(copy)[i];
    ListedByKeyword(p, j, area);
    ListedIsKept(MockPapers(copy), p, "", area);
  }

  lemma LowerAreaNames()
    ensures Lower("Tuberculosis") == Lower("tuberculosis")
    ensures Lower("Pneumonia") == Lower("pneumonia")
    ensures Lower("Explainable AI") == Lower("explainable AI")
    ensures Lower("Deep Learning") == Lower("deep learning")
  {
  }

  /** No area tab shows an empty list when the search box is empty. */
  lemma EveryFocusAreaListsAPaper(copy: nat -> Copy)
    ensures forall k :: 0 <= k < |FocusAreas| ==> FilteredPapers(MockPapers(copy), "", FocusAreas[k]) != []
  {
    var ps := MockPapers(copy);
    forall k | 0 <= k < |FocusAreas| ensures FilteredPapers(ps, "", FocusAreas[k]) != [] {
      if k == 0 {
        EmptySearchListsAll(ps);
      } else if k == 1 {
        LowerAreaNames();
        AreaListsPaper(copy, "Tuberculosis", 0, 0);
      } else if k == 2 {
        LowerAreaNames();
        AreaListsPaper(copy, "Pneumonia", 2, 0);
      } else if k == 3 {
        BoneFractureLowered();
        AreaListsPaper(copy, "Bone Fracture", 3, 0);
      } else if k == 4 {
        LowerAreaNames();
        AreaListsPaper(copy, "Explainable AI", 1, 0);
      } else {
        LowerAreaNames();
        AreaListsPaper(copy, "Deep Learning", 0, 1);
      }
    }
  }

  class ResearchPage {
    var papers: seq<ResearchPaper>
    var isLoading: bool
    /** The wording of the fixed list. */
    const copy: nat -> Copy

    /** Before the first load: no papers, loading. */
    constructor ()
      ensures copy == PaperCopy
      ensures papers == [] && isLoading
    {
      copy := PaperCopy;
      papers := [];
      isLoading := true;
    }

    /** The load on mount: the list becomes the fixed list. */
    method FetchPapers()
      modifies this`papers, this`isLoading
      ensures papers == MockPapers(copy) && !isLoading
    {
      isLoading := true;
      papers := MockPapers(copy);
      isLoading := false;
    }
  }
}
