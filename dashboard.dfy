/** The dashboard's derived figures: the pie chart built from the disease
    breakdown, and the detection rate shown under the detections card. */
module Dashboard {
  import opened Types
  import opened Text
  import opened Seqs
  import opened ScanContext

  /** One slice of the pie: display name, count and colour. */
  datatype PieSlice = PieSlice(name: string, value: nat, color: string)

  /** `DISEASE_COLORS[d.disease]`: every category has an HSL colour. */
  function ColorOf(d: Disease): (r: string)
    ensures StartsWith(r, "hsl(")
  {
    match d
    case Tuberculosis => "hsl(0, 72%, 51%)"
    case Pneumonia => "hsl(38, 92%, 50%)"
    case BoneFracture => "hsl(214, 90%, 44%)"
    case Normal => "hsl(142, 71%, 45%)"
    case Unknown => "hsl(215, 15%, 45%)"
  }

  /** No two categories share a colour, so every slice can be told apart. */
  lemma ColorsDistinct(d1: Disease, d2: Disease)
    requires d1 != d2
    ensures ColorOf(d1) != ColorOf(d2)
  {
    assert ColorOf(d1)[4] != ColorOf(d2)[4] || ColorOf(d1)[6] != ColorOf(d2)[6];
  }

  /** `d.disease.replace('_', ' ').replace(/\b\w/g, c => c.toUpperCase())`:
      the first underscore becomes a space, then every word starts with a
      capital. */
  function PieName(d: Disease): (r: string)
    ensures |r| == |DiseaseName(d)|
  {
    CapitalizeWords(ReplaceFirst(DiseaseName(d), '_', ' '))
  }

  /** A name `a_b` of two lower-case words is shown as the two words,
      each capitalised, separated by a space. */
  lemma PieNameOfTwoWords(d: Disease, a: string, b: string)
    requires DiseaseName(d) == a + "_" + b && LowerWord(a) && LowerWord(b)
    ensures PieName(d) == CapitalizeWords(a) + " " + CapitalizeWords(b)
  {
    var s := a + "_" + b;
    assert s[..|a|] == a;
    FirstOccurrence(s, '_', |a|);
    assert ReplaceFirst(s, '_', ' ') == a + " " + b by {
      assert s[|a| + 1..] == b;
    }
    CapitalizeTwoWords(a, b);
  }

  /** A one-word name is shown with its first letter capitalised. */
  lemma PieNameOfOneWord(d: Disease)
    requires LowerWord(DiseaseName(d))
    ensures PieName(d) == [UpperChar(DiseaseName(d)[0])] + DiseaseName(d)[1..]
  {
    CapitalizeWord(DiseaseName(d));
  }

  /** The two words of `bone_fracture`, capitalised. */
  lemma BoneFractureWords()
    ensures CapitalizeWords("bone") + " " + CapitalizeWords("fracture") == "Bone Fracture"
  {
    assert CapitalizeWords("bone") == "Bone" by {
      CapitalizeWord("bone");
      assert "bone"[1..] == "one";
    }
    assert CapitalizeWords("fracture") == "Fracture" by {
      CapitalizeWord("fracture");
      assert "fracture"[1..] == "racture";
    }
  }

  /** `bone_fracture` is shown as the two words, each capitalised:
      "Bone Fracture" by `BoneFractureWords`. */
  lemma BoneFracturePieName()
    ensures PieName(BoneFracture) == CapitalizeWords("bone") + " " + CapitalizeWords("fracture")
  {
    assert DiseaseName(BoneFracture) == "bone" + "_" + "fracture";
    PieNameOfTwoWords(BoneFracture, "bone", "fracture");
  }

  function Slice(e: BreakdownEntry): PieSlice {
    PieSlice(PieName(e.disease), e.count, ColorOf(e.disease))
  }

  predicate HasCount(e: BreakdownEntry) {
    e.count > 0
  }

  /** `.map(...)` of the kept entries to slices. */
  function Slices(shown: seq<BreakdownEntry>): (r: seq<PieSlice>)
    ensures |r| == |shown|
    ensures forall i :: 0 <= i < |r| ==> r[i] == Slice(shown[i])
  {
    if shown == [] then [] else [Slice(shown[0])] + Slices(shown[1..])
  }

  /** `pieData`: the non-empty categories, in breakdown order, as slices. */
  function PieData(breakdown: seq<BreakdownEntry>): (r: seq<PieSlice>)
    ensures |r| <= |breakdown|
    ensures forall i :: 0 <= i < |r| ==> r[i].value > 0
    ensures forall i :: 0 <= i < |r| ==> exists j :: 0 <= j < |breakdown| && r[i] == Slice(breakdown[j])
    ensures forall j :: 0 <= j < |breakdown| && breakdown[j].count > 0 ==> Slice(breakdown[j]) in r
    ensures r == Slices(Filter(breakdown, HasCount))
  {
    Slices(Filter(breakdown, HasCount))
  }

  /** The slices follow the breakdown's order, one per entry with a
      positive count: they are an order-preserving selection of the
      breakdown's slices, as many as there are such entries. */
  lemma PieDataFollowsBreakdown(breakdown: seq<BreakdownEntry>)
    ensures IsSubsequence(PieData(breakdown), Slices(breakdown))
    ensures |PieData(breakdown)| == |Filter(breakdown, HasCount)|
  {
    FilterIsSubsequence(breakdown, HasCount);
    SlicesKeepSubsequence(Filter(breakdown, HasCount), breakdown);
  }

  /** Mapping entries to slices keeps an order-preserving selection one. */
  lemma {:induction false} SlicesKeepSubsequence(a: seq<BreakdownEntry>, b: seq<BreakdownEntry>)
    requires IsSubsequence(a, b)
    ensures IsSubsequence(Slices(a), Slices(b))
    decreases |b|
  {
    if a != [] {
      assert Slices(a)[1..] == Slices(a[1..]);
      assert Slices(b)[1..] == Slices(b[1..]);
      if a[0] == b[0] {
        SlicesKeepSubsequence(a[1..], b[1..]);
      } else {
        SlicesKeepSubsequence(a, b[1..]);
        SubsequenceOfTail(Slices(a), Slices(b));
      }
    }
  }

  function SumValues(slices: seq<PieSlice>): nat {
    if slices == [] then 0 else slices[0].value + SumValues(slices[1..])
  }

  /** Each slice carries its entry's count. */
  lemma {:induction false} SlicesKeepCounts(shown: seq<BreakdownEntry>)
    ensures SumValues(Slices(shown)) == SumCounts(shown)
  {
    if shown != [] {
      SlicesKeepCounts(shown[1..]);
      assert Slices(shown)[1..] == Slices(shown[1..]);
    }
  }

  /** Only entries counting zero are dropped, so the total is kept. */
  lemma {:induction false} DropEmptyKeepsTotal(breakdown: seq<BreakdownEntry>)
    ensures SumCounts(Filter(breakdown, HasCount)) == SumCounts(breakdown)
  {
    if breakdown != [] {
      DropEmptyKeepsTotal(breakdown[1..]);
      if HasCount(breakdown[0]) {
        assert Filter(breakdown, HasCount)[1..] == Filter(breakdown[1..], HasCount);
      }
    }
  }

  /** Dropping the empty categories loses nothing: the slices add up to
      the breakdown's total. */
  lemma PieKeepsTotal(breakdown: seq<BreakdownEntry>)
    ensures SumValues(PieData(breakdown)) == SumCounts(breakdown)
  {
    SlicesKeepCounts(Filter(breakdown, HasCount));
    DropEmptyKeepsTotal(breakdown);
  }

  /** The pie of the store's breakdown adds up to the number of scans. */
  lemma PieCoversEveryScan(scans: seq<Scan>)
    ensures SumValues(PieData(Breakdown(scans))) == |scans|
  {
    PieKeepsTotal(Breakdown(scans));
    BreakdownAccounts(scans);
  }

  // ---------------------------------------------------------------------
  // Detection rate
  // ---------------------------------------------------------------------

  /** The rate as the card computes it, `diseasesDetected / totalScans`,
      with `None` standing for the NaN that 0 / 0 gives. */
  function DetectionRateAsWritten(stats: DashboardStats): (r: Option<real>)
    ensures r.None? <==> stats.totalScans == 0
  {
    if stats.totalScans == 0 then None
    else Some(stats.diseasesDetected as real / stats.totalScans as real)
  }

  /** Deleting the id every remaining scan carries empties the store, and
      the figures `getStats` then reports make the card read "NaN%
      detection rate". */
  lemma DeletingLastScanShowsNaN(scans: seq<Scan>, id: string, stats: DashboardStats)
    requires forall i :: 0 <= i < |scans| ==> scans[i].id == id
    requires stats.totalScans == |WithoutScan(scans, id)|
    ensures WithoutScan(scans, id) == []
    ensures DetectionRateAsWritten(stats).None?
  {
    DeleteScanRemovesExactly(scans, id);
  }

  /** The same sequence run through the store: an administrator deletes the
      last scan, then the dashboard asks for its statistics. The source's
      rate is NaN; the corrected one is zero. */
  method DeleteLastScanThenShowRate(store: ScanProvider, id: string, now: YearMonth)
    returns (stats: DashboardStats)
    requires forall i :: 0 <= i < |store.scans| ==> store.scans[i].id == id
    modifies store`scans, store.storage`scans
    ensures store.scans == [] && store.Persisted()
    ensures DetectionRateAsWritten(stats).None? && DetectionRate(stats) == 0.0
  {
    var before := store.scans;
    store.DeleteScan(id);
    stats := store.GetStats(now);
    DeletingLastScanShowsNaN(before, id, stats);
  }

  /** The rate with an empty store shown as zero. */
  function DetectionRate(stats: DashboardStats): (r: real)
    ensures stats.totalScans == 0 ==> r == 0.0
    ensures stats.totalScans > 0 ==> DetectionRateAsWritten(stats) == Some(r)
  {
    if stats.totalScans == 0 then 0.0 else stats.diseasesDetected as real / stats.totalScans as real
  }

  /** A count out of a positive total is a fraction between zero and one,
      and it is one exactly when the count is the total. */
  lemma FractionBounds(count: nat, total: nat)
    requires 0 < total && count <= total
    ensures 0.0 <= count as real / total as real <= 1.0
    ensures count as real / total as real == 1.0 <==> count == total
  {
    var c, t := count as real, total as real;
    var q := c / t;
    assert q * t == c;
    assert (q - 1.0) * t == c - t;
    if q < 0.0 {
      NegativeTimesPositive(q, t);
    }
    if q > 1.0 {
      PositiveTimesPositive(q - 1.0, t);
    }
    if q == 1.0 {
      assert c == t;
    }
  }

  lemma PositiveTimesPositive(x: real, y: real)
    requires x > 0.0 && y > 0.0
    ensures x * y > 0.0
  {
  }

  lemma NegativeTimesPositive(x: real, y: real)
    requires x < 0.0 && y > 0.0
    ensures x * y < 0.0
  {
  }

  /** For the figures `getStats` reports, the corrected rate is a fraction
      between zero and one, and it is one exactly when every scan is a
      detection. */
  lemma DetectionRateIsFraction(scans: seq<Scan>, stats: DashboardStats)
    requires stats.totalScans == |scans| && stats.diseasesDetected == |Detected(scans)|
    ensures 0.0 <= DetectionRate(stats) <= 1.0
    ensures scans != [] ==> (DetectionRate(stats) == 1.0 <==> |Detected(scans)| == |scans|)
  {
    if scans != [] {
      FractionBounds(|Detected(scans)|, |scans|);
    }
  }
}
