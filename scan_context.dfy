/** The scan store: an ordered list of scans, most recent first, mirrored
    into local storage on every change, with per-user queries and the
    dashboard statistics recomputed from the whole list on every read. */
module ScanContext {
  import opened Types
  import opened Seqs
  import opened Text
  import opened Storage

  /** The dashboard's accuracy figure: a constant, not derived from scans. */
  const AccuracyRate: real := 0.94

  // ---------------------------------------------------------------------
  // Per-disease text used for the sample records
  // ---------------------------------------------------------------------

  /** The finding text each category's sample records carry: only the
      inconclusive one says no diagnosis could be determined. */
  function GetExplanation(d: Disease): (r: string)
    ensures r != []
    ensures d != Unknown ==> r[0] != 'U'
    ensures StartsWith(r, "Unable to ") <==> d == Unknown
  {
    match d
    case Tuberculosis => ("Detected " + "characteristic " + "upper lobe " + "infiltrates " +
                          "with cavitary " + "lesions. The " +
                          "pattern shows " + "typical nodular " +
                          "opacities " + "consistent with " +
                          "active " + "pulmonary " + "tuberculosis.")
    case Pneumonia => ("Identified " + "consolidation " + "in the lower " +
                       "lobes with air " + "bronchograms. " +
                       "The opacity " + "pattern and " +
                       "distribution " + "are consistent " +
                       "with bacterial " + "pneumonia.")
    case BoneFracture => ("Detected " + "discontinuity " + "in bone cortex " + "with " +
                          "surrounding " + "soft tissue " +
                          "swelling. The " + "fracture line " +
                          "is visible with " + "minimal " +
                          "displacement.")
    case Normal => ("No significant " + "abnormalities " + "detected. Lung " +
                    "fields appear " + "clear, cardiac " +
                    "silhouette is " + "within normal " + "limits, and " +
                    "bony structures " + "show no acute " + "findings.")
    case Unknown => ("Unable to " + "determine a " + "definitive " + "diagnosis. " +
                     "Further " + "clinical " + "correlation and " +
                     "additional " + "imaging may be " + "required.")
  }

  /** No region is named for a normal or an inconclusive finding; every
      disease names three. */
  function GetAffectedRegions(d: Disease): (r: seq<string>)
    ensures r == [] <==> d == Normal || d == Unknown
    ensures r != [] ==> |r| == 3
  {
    match d
    case Tuberculosis => ["Upper right lobe", "Apical segment", "Posterior segment"]
    case Pneumonia => ["Lower left lobe", "Right middle lobe", "Basal segments"]
    case BoneFracture => ["Cortical surface", "Trabecular bone", "Periosteum"]
    case Normal => []
    case Unknown => []
  }

  /** The advice listed for each category: four items for a disease,
      three for a normal or an inconclusive finding. */
  function GetRecommendations(d: Disease): (r: seq<string>)
    ensures |r| == if d == Normal || d == Unknown then 3 else 4
  {
    match d
    case Tuberculosis => [
      ("Confirm with " + "sputum culture " + "and sensitivity " + "testing"),
      ("Start empiric " + "anti-tuberculosis " + "therapy as per " + "protocol"),
      ("Notify public " + "health " + "authorities"),
      ("Screen close " + "contacts")]
    case Pneumonia => [
      ("Initiate " + "appropriate " + "antibiotic " + "therapy"),
      ("Consider blood " + "cultures before " + "treatment"),
      ("Monitor oxygen " + "saturation"),
      ("Follow-up " + "imaging in 4-6 " + "weeks")]
    case BoneFracture => [
      ("Orthopedic " + "consultation " + "recommended"),
      ("Consider " + "immobilization " + "with splint or " + "cast"),
      ("Pain management " + "as needed"),
      ("Follow-up " + "imaging in 2-4 " + "weeks")]
    case Normal => [
      ("No immediate " + "intervention " + "required"),
      ("Continue " + "routine " + "screening as " + "indicated"),
      ("Maintain " + "healthy " + "lifestyle " + "practices")]
    case Unknown => [
      ("Recommend " + "clinical " + "correlation"),
      ("Consider " + "additional " + "imaging " + "modalities"),
      ("Specialist " + "consultation " + "may be " + "beneficial")]
  }

  // ---------------------------------------------------------------------
  // Queries over a list of scans
  // ---------------------------------------------------------------------

  /** A scan counts as a detection when its disease is anything but
      normal; an inconclusive (unknown) result counts. */
  predicate IsDetected(s: Scan) {
    s.diagnosis.disease != Normal
  }

  function Detected(scans: seq<Scan>): seq<Scan> {
    Filter(scans, IsDetected)
  }

  /** The scans created in calendar month `m`. */
  function InMonth(scans: seq<Scan>, m: YearMonth): seq<Scan> {
    Filter(scans, (s: Scan) => s.createdAt.when == m)
  }

  /** The list `deleteScan(id)` leaves behind. */
  function WithoutScan(scans: seq<Scan>, id: string): seq<Scan> {
    Filter(scans, (s: Scan) => s.id != id)
  }

  /** Deleting removes every scan with that id and keeps every other scan,
      in its order. */
  lemma DeleteScanRemovesExactly(scans: seq<Scan>, id: string)
    ensures forall s :: s in WithoutScan(scans, id) <==> s in scans && s.id != id
    ensures IsSubsequence(WithoutScan(scans, id), scans)
    ensures forall s :: multiset(WithoutScan(scans, id))[s] == if s.id != id then multiset(scans)[s] else 0
  {
    FilterIsSubsequence(scans, (s: Scan) => s.id != id);
    forall s ensures multiset(WithoutScan(scans, id))[s] == if s.id != id then multiset(scans)[s] else 0 {
      FilterCounts(scans, (s: Scan) => s.id != id, s);
    }
  }

  /** Deleting an id no scan has changes nothing. */
  lemma DeleteAbsentScanIsNoOp(scans: seq<Scan>, id: string)
    requires forall i :: 0 <= i < |scans| ==> scans[i].id != id
    ensures WithoutScan(scans, id) == scans
  {
    FilterAll(scans, (s: Scan) => s.id != id);
  }

  /** How many scans have disease `d`: the `diseaseCount[d]++` tally. */
  function CountOf(scans: seq<Scan>, d: Disease): nat {
    if scans == [] then 0
    else (if scans[0].diagnosis.disease == d then 1 else 0) + CountOf(scans[1..], d)
  }

  /** Tallying one more scan adds one to its own disease and nothing to
      the others. */
  lemma {:induction false} CountOfSnoc(scans: seq<Scan>, s: Scan, d: Disease)
    ensures CountOf(scans + [s], d) == CountOf(scans, d) + (if s.diagnosis.disease == d then 1 else 0)
  {
    if scans != [] {
      assert (scans + [s])[1..] == scans[1..] + [s];
      CountOfSnoc(scans[1..], s, d);
    }
  }

  /** Every scan falls in exactly one of the five categories. */
  lemma {:induction false} CategoriesPartition(scans: seq<Scan>)
    ensures CountOf(scans, Tuberculosis) + CountOf(scans, Pneumonia) + CountOf(scans, BoneFracture)
            + CountOf(scans, Normal) + CountOf(scans, Unknown) == |scans|
  {
    if scans != [] {
      CategoriesPartition(scans[1..]);
    }
  }

  /** The detections are exactly the four non-normal categories. */
  lemma {:induction false} DetectedCategories(scans: seq<Scan>)
    ensures CountOf(scans, Tuberculosis) + CountOf(scans, Pneumonia) + CountOf(scans, BoneFracture)
            + CountOf(scans, Unknown) == |Detected(scans)|
  {
    if scans != [] {
      DetectedCategories(scans[1..]);
    }
  }

  /** `diseaseBreakdown`: one entry per category, in the fixed order. */
  function Breakdown(scans: seq<Scan>): seq<BreakdownEntry> {
    seq(|AllDiseases|, j requires 0 <= j < |AllDiseases| => BreakdownEntry(AllDiseases[j], CountOf(scans, AllDiseases[j])))
  }

  function SumCounts(entries: seq<BreakdownEntry>): nat {
    if entries == [] then 0 else entries[0].count + SumCounts(entries[1..])
  }

  /** The breakdown always lists the five categories in the order
      tuberculosis, pneumonia, bone fracture, normal, unknown (zero counts
      included); its counts add up to the number of scans, and the
      non-normal counts add up to the number of detections. */
  lemma BreakdownAccounts(scans: seq<Scan>)
    ensures var b := Breakdown(scans);
      && |b| == 5
      && b[0].disease == Tuberculosis && b[1].disease == Pneumonia && b[2].disease == BoneFracture
      && b[3].disease == Normal && b[4].disease == Unknown
      && SumCounts(b) == |scans|
      && b[0].count + b[1].count + b[2].count + b[4].count == |Detected(scans)|
  {
    var b := Breakdown(scans);
    assert SumCounts(b) == b[0].count + SumCounts(b[1..]);
    assert SumCounts(b[1..]) == b[1].count + SumCounts(b[2..]);
    assert SumCounts(b[2..]) == b[2].count + SumCounts(b[3..]);
    assert SumCounts(b[3..]) == b[3].count + SumCounts(b[4..]);
    assert SumCounts(b[4..]) == b[4].count + SumCounts(b[5..]);
    CategoriesPartition(scans);
    DetectedCategories(scans);
  }

  /** One slot of `monthlyTrend`: the month `i` months before `now`, with
      its scans and its detections. */
  function TrendSlot(scans: seq<Scan>, now: YearMonth, i: int): TrendEntry {
    var m := MonthsBefore(now, i);
    TrendEntry(m, |InMonth(scans, m)|, |Detected(InMonth(scans, m))|)
  }

  /** `monthlyTrend`: the slots for 5, 4, ..., 0 months back, oldest first. */
  function Trend(scans: seq<Scan>, now: YearMonth): seq<TrendEntry> {
    seq(6, j requires 0 <= j < 6 => TrendSlot(scans, now, 5 - j))
  }

  /** Two calendar months with the same ordinal are the same month. */
  lemma {:induction false} MonthOrdinalInjective(a: YearMonth, b: YearMonth)
    requires MonthOrdinal(a) == MonthOrdinal(b)
    ensures a == b
  {
    assert (a.year - b.year) * 12 == b.month - a.month;
  }

  /** The trend always has six consecutive months, oldest first, ending
      with the current month; no month has more detections than scans; and
      the last entry's scan count is the month-to-date figure. */
  lemma TrendShape(scans: seq<Scan>, now: YearMonth)
    ensures var t := Trend(scans, now);
      && |t| == 6
      && (forall j :: 0 <= j < 6 ==> MonthOrdinal(t[j].month) == MonthOrdinal(now) - 5 + j)
      && (forall j :: 0 <= j < 6 ==> t[j].detections <= t[j].scans)
      && t[5].month == now
      && t[5].scans == |InMonth(scans, now)|
  {
    MonthOrdinalInjective(MonthsBefore(now, 0), now);
  }

  // ---------------------------------------------------------------------
  // Most recent scans
  // ---------------------------------------------------------------------

  /** Newest first: no scan is later than one before it. */
  predicate NewestFirst(s: seq<Scan>) {
    forall i, j :: 0 <= i < j < |s| ==> !Later(s[j].createdAt, s[i].createdAt)
  }

  /** Places `x` before the first element that is not later than it. */
  function Insert(x: Scan, s: seq<Scan>): (r: seq<Scan>)
    requires NewestFirst(s)
    ensures NewestFirst(r)
    ensures multiset(r) == multiset(s) + multiset{x}
  {
    if s == [] then
      [x]
    else if !Later(s[0].createdAt, x.createdAt) then
      NoneLaterThanHead(x, s);
      ConsNewestFirst(x, s);
      [x] + s
    else
      assert s == [s[0]] + s[1..];
      var rest := Insert(x, s[1..]);
      HeadBoundsInsert(x, s, rest);
      ConsNewestFirst(s[0], rest);
      assert multiset(s) == multiset{s[0]} + multiset(s[1..]);
      [s[0]] + rest
  }

  /** Putting in front an element nothing is later than keeps a list
      newest first. */
  lemma ConsNewestFirst(h: Scan, t: seq<Scan>)
    requires NewestFirst(t)
    requires forall i :: 0 <= i < |t| ==> !Later(t[i].createdAt, h.createdAt)
    ensures NewestFirst([h] + t)
  {
    var r := [h] + t;
    forall i, j | 0 <= i < j < |r| ensures !Later(r[j].createdAt, r[i].createdAt) {
      assert r[j] == t[j - 1];
      if i > 0 {
        assert r[i] == t[i - 1];
      }
    }
  }

  /** When the head of a newest-first list is not later than `x`, no
      element of it is. */
  lemma NoneLaterThanHead(x: Scan, s: seq<Scan>)
    requires s != [] && NewestFirst(s) && !Later(s[0].createdAt, x.createdAt)
    ensures forall i :: 0 <= i < |s| ==> !Later(s[i].createdAt, x.createdAt)
  {
    forall i | 0 < i < |s| ensures !Later(s[i].createdAt, x.createdAt) {
      assert !Later(s[i].createdAt, s[0].createdAt);
    }
  }

  /** When the head of a newest-first list is later than `x`, nothing in
      the tail with `x` inserted is later than that head. */
  lemma HeadBoundsInsert(x: Scan, s: seq<Scan>, rest: seq<Scan>)
    requires s != [] && NewestFirst(s) && Later(s[0].createdAt, x.createdAt)
    requires multiset(rest) == multiset(s[1..]) + multiset{x}
    ensures forall i :: 0 <= i < |rest| ==> !Later(rest[i].createdAt, s[0].createdAt)
  {
    forall i | 0 <= i < |rest| ensures !Later(rest[i].createdAt, s[0].createdAt) {
      assert rest[i] in multiset(rest);
      if rest[i] != x {
        var k :| 0 <= k < |s[1..]| && s[1..][k] == rest[i];
        assert s[k + 1] == rest[i];
      }
    }
  }

  /** `[...scans].sort((a, b) => b.createdAt - a.createdAt)` on a copy:
      an insertion sort, stable like the built-in one. */
  function SortNewestFirst(s: seq<Scan>): (r: seq<Scan>)
    ensures NewestFirst(r)
    ensures multiset(r) == multiset(s)
  {
    if s == [] then []
    else
      assert s == [s[0]] + s[1..];
      Insert(s[0], SortNewestFirst(s[1..]))
  }

  /** `recentScans`: the first five of the sorted copy. */
  function RecentScans(scans: seq<Scan>): seq<Scan> {
    Take(SortNewestFirst(scans), 5)
  }

  /** The recent list holds min(5, n) scans, newest first, each taken from
      the store, and no scan left out is later than one kept. */
  lemma RecentScansAreNewest(scans: seq<Scan>)
    ensures var r := RecentScans(scans);
      && |r| == (if |scans| < 5 then |scans| else 5)
      && NewestFirst(r)
      && (forall i :: 0 <= i < |r| ==> r[i] in scans)
      && (forall i, y :: 0 <= i < |r| && y in scans && Later(y.createdAt, r[i].createdAt) ==> y in r)
  {
    var sorted := SortNewestFirst(scans);
    var r := RecentScans(scans);
    assert |sorted| == |scans| by {
      assert |multiset(sorted)| == |multiset(scans)|;
    }
    PrefixNewestFirst(sorted, |r|);
    forall i | 0 <= i < |r| ensures r[i] in scans {
      assert r[i] in multiset(sorted);
    }
    forall i, y | 0 <= i < |r| && y in scans && Later(y.createdAt, r[i].createdAt) ensures y in r {
      assert y in multiset(sorted);
      PrefixClosed(sorted, |r|, i, y);
    }
  }

  /** A prefix of a newest-first list is newest first. */
  lemma PrefixNewestFirst(s: seq<Scan>, n: nat)
    requires NewestFirst(s) && n <= |s|
    ensures NewestFirst(s[..n])
  {
    forall i, j | 0 <= i < j < n ensures !Later(s[..n][j].createdAt, s[..n][i].createdAt) {
      assert s[..n][i] == s[i] && s[..n][j] == s[j];
    }
  }

  /** In a newest-first list, anything later than an element of a prefix
      lies in that prefix. */
  lemma PrefixClosed(s: seq<Scan>, n: nat, i: nat, y: Scan)
    requires NewestFirst(s) && i < n <= |s| && y in s && Later(y.createdAt, s[i].createdAt)
    ensures y in s[..n]
  {
    var j :| 0 <= j < |s| && s[j] == y;
    assert j <= i;
    assert s[..n][j] == y;
  }

  /** The tally loop of `getStats`: one count per category. */
  method TallyDiseases(scans: seq<Scan>) returns (diseaseCount: map<Disease, nat>)
    ensures forall d: Disease :: d in diseaseCount && diseaseCount[d] == CountOf(scans, d)
  {
    diseaseCount :=
      map[Tuberculosis := 0, Pneumonia := 0, BoneFracture := 0, Normal := 0, Unknown := 0];
    forall d: Disease ensures d in diseaseCount && diseaseCount[d] == CountOf(scans[..0], d) {
      assert scans[..0] == [];
      match d
      case Tuberculosis =>
      case Pneumonia =>
      case BoneFracture =>
      case Normal =>
      case Unknown =>
    }
    var k := 0;
    while k < |scans|
      invariant 0 <= k <= |scans|
      invariant forall d: Disease :: d in diseaseCount && diseaseCount[d] == CountOf(scans[..k], d)
    {
      var d := scans[k].diagnosis.disease;
      forall e: Disease ensures CountOf(scans[..k + 1], e) == CountOf(scans[..k], e) + (if d == e then 1 else 0) {
        assert scans[..k + 1] == scans[..k] + [scans[k]];
        CountOfSnoc(scans[..k], scans[k], e);
      }
      diseaseCount := diseaseCount[d := diseaseCount[d] + 1];
      k := k + 1;
    }
    assert scans[..k] == scans;
  }

  /** The trend loop of `getStats`: the six months ending with `now`,
      oldest first. */
  method BuildTrend(scans: seq<Scan>, now: YearMonth) returns (monthlyTrend: seq<TrendEntry>)
    ensures monthlyTrend == Trend(scans, now)
  {
    monthlyTrend := [];
    var i := 5;
    while i >= 0
      invariant -1 <= i <= 5
      invariant |monthlyTrend| == 5 - i
      invariant forall j :: 0 <= j < |monthlyTrend| ==> monthlyTrend[j] == TrendSlot(scans, now, 5 - j)
    {
      var month := MonthsBefore(now, i);
      var monthScans := InMonth(scans, month);
      monthlyTrend := monthlyTrend + [TrendEntry(month, |monthScans|, |Filter(monthScans, IsDetected)|)];
      i := i - 1;
    }
  }

  // ---------------------------------------------------------------------
  // The store
  // ---------------------------------------------------------------------

  class ScanProvider {
    var scans: seq<Scan>
    const storage: LocalStorage

    /** The stored list mirrors the in-memory one. */
    predicate Persisted()
      reads this, storage
    {
      storage.scans == Some(scans)
    }

    /** Mounting: load the stored list if the key is set, otherwise seed
        it with `sample` (the generated demo records) and store that. */
    constructor (storage: LocalStorage, sample: seq<Scan>)
      modifies storage`scans
      ensures this.storage == storage
      ensures Persisted()
      ensures old(storage.scans).Some? ==> scans == old(storage.scans).value
      ensures old(storage.scans).None? ==> scans == sample
    {
      this.storage := storage;
      if storage.scans.Some? {
        scans := storage.scans.value;
      } else {
        scans := sample;
        storage.scans := Some(sample);
      }
    }

    /** `addScan`: the new scan goes in front, the rest keep their order,
        and the stored list is rewritten. */
    method AddScan(scan: Scan)
      modifies this`scans, storage`scans
      ensures scans == [scan] + old(scans)
      ensures Persisted()
    {
      var updated := [scan] + scans;
      scans := updated;
      storage.scans := Some(updated);
    }

    /** `deleteScan`: drop every scan with that id, then rewrite storage. */
    method DeleteScan(scanId: string)
      modifies this`scans, storage`scans
      ensures scans == WithoutScan(old(scans), scanId)
      ensures Persisted()
    {
      var updated := WithoutScan(scans, scanId);
      scans := updated;
      storage.scans := Some(updated);
    }

    /** `getUserScans`: exactly the scans owned by `userId`, in store order. */
    function GetUserScans(userId: string): (r: seq<Scan>)
      reads this
      ensures forall i :: 0 <= i < |r| ==> r[i].userId == userId && r[i] in scans
      ensures forall i :: 0 <= i < |scans| && scans[i].userId == userId ==> scans[i] in r
      ensures IsSubsequence(r, scans)
    {
      var owned := (s: Scan) => s.userId == userId;
      FilterIsSubsequence(scans, owned);
      Filter(scans, owned)
    }

    /** `getStats`: tallies the categories in one pass over the list and
        builds the six-month trend in a loop; the list itself is only read. */
    method GetStats(now: YearMonth) returns (stats: DashboardStats)
      ensures stats.totalScans == |scans|
      ensures stats.diseasesDetected == |Detected(scans)|
      ensures stats.accuracyRate == AccuracyRate
      ensures stats.scansThisMonth == |InMonth(scans, now)|
      ensures stats.diseaseBreakdown == Breakdown(scans)
      ensures stats.monthlyTrend == Trend(scans, now)
      ensures stats.recentScans == RecentScans(scans)
    {
      var totalScans := |scans|;
      var diseasesDetected := |Filter(scans, IsDetected)|;
      var thisMonth := |InMonth(scans, now)|;

      var diseaseCount := TallyDiseases(scans);
      var diseaseBreakdown := seq(|AllDiseases|, j requires 0 <= j < |AllDiseases| =>
        BreakdownEntry(AllDiseases[j], diseaseCount[AllDiseases[j]]));

      var monthlyTrend := BuildTrend(scans, now);

      var recentScans := Take(SortNewestFirst(scans), 5);
      stats := DashboardStats(totalScans, diseasesDetected, AccuracyRate, thisMonth,
                              diseaseBreakdown, monthlyTrend, recentScans);
    }
  }
}
