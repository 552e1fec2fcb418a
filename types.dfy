/** The records the client keeps and shows: users, scans with their
    embedded diagnosis, dashboard statistics, news articles and research
    papers. */
module Types {

  datatype Option<+T> = None | Some(value: T) {
    /** `x || fallback` / `x ?? fallback` for an optional value. */
    function GetOr(fallback: T): T {
      match this
      case Some(v) => v
      case None => fallback
    }
  }

  datatype UserRole = Doctor | HealthcareWorker | Researcher | Admin

  /** 'high', 'moderate', 'low' and 'normal'. */
  datatype RiskLevel = High | Moderate | Low | NormalRisk

  datatype Disease = Tuberculosis | Pneumonia | BoneFracture | Normal | Unknown

  /** The five disease categories in the order the dashboard tallies them. */
  const AllDiseases: seq<Disease> := [Tuberculosis, Pneumonia, BoneFracture, Normal, Unknown]

  /** The string that stands for each disease in the stored records. */
  function DiseaseName(d: Disease): string {
    match d
    case Tuberculosis => "tuberculosis"
    case Pneumonia => "pneumonia"
    case BoneFracture => "bone_fracture"
    case Normal => "normal"
    case Unknown => "unknown"
  }

  datatype ImageType = Xray | Ct

  type Month = m: int | 0 <= m < 12

  /** A calendar month: `getFullYear()` and `getMonth()` (0 = January). */
  datatype YearMonth = YearMonth(year: int, month: Month)

  /** Months since year 0, so that consecutive months differ by one. */
  function MonthOrdinal(ym: YearMonth): int {
    ym.year * 12 + ym.month
  }

  /** The month `n` months before `ym` (negative `n` goes forward). */
  function MonthsBefore(ym: YearMonth, n: int): (r: YearMonth)
    ensures MonthOrdinal(r) == MonthOrdinal(ym) - n
  {
    var o := MonthOrdinal(ym) - n;
    YearMonth(o / 12, o % 12)
  }

  /** A creation timestamp: its calendar month and the milliseconds
      elapsed since that month began, which orders stamps within a month. */
  datatype Stamp = Stamp(when: YearMonth, offset: nat)

  /** `new Date(a).getTime() > new Date(b).getTime()`. */
  predicate Later(a: Stamp, b: Stamp) {
    MonthOrdinal(a.when) > MonthOrdinal(b.when)
    || (MonthOrdinal(a.when) == MonthOrdinal(b.when) && a.offset > b.offset)
  }

  /** A user record as stored under the users key. Records created locally
      carry a plaintext `password`; the session copy has it removed.
      `isBlocked` may be absent, which reads as not blocked. */
  datatype UserRecord = UserRecord(
    id: string,
    name: string,
    email: string,
    role: UserRole,
    createdAt: Stamp,
    isBlocked: Option<bool>,
    password: Option<string>)

  /** A truthy `isBlocked`. */
  predicate IsBlocked(u: UserRecord) {
    u.isBlocked == Some(true)
  }

  datatype DiagnosisResult = DiagnosisResult(
    disease: Disease,
    confidence: real,
    riskLevel: RiskLevel,
    explanation: string,
    affectedRegions: seq<string>,
    recommendations: seq<string>)

  datatype Scan = Scan(
    id: string,
    userId: string,
    userName: string,
    originalImageUrl: string,
    contourImageUrl: Option<string>,
    diagnosis: DiagnosisResult,
    createdAt: Stamp,
    imageType: ImageType,
    bodyPart: string)

  datatype BreakdownEntry = BreakdownEntry(disease: Disease, count: nat)

  /** One month of the trend chart. The month is kept as a calendar month
      rather than as its short locale name. */
  datatype TrendEntry = TrendEntry(month: YearMonth, scans: nat, detections: nat)

  datatype DashboardStats = DashboardStats(
    totalScans: nat,
    diseasesDetected: nat,
    accuracyRate: real,
    scansThisMonth: nat,
    diseaseBreakdown: seq<BreakdownEntry>,
    monthlyTrend: seq<TrendEntry>,
    recentScans: seq<Scan>)

  /** `publishedAt` is kept as milliseconds since the epoch. */
  datatype NewsArticle = NewsArticle(
    id: string,
    title: string,
    summary: string,
    source: string,
    url: string,
    publishedAt: int,
    category: string,
    imageUrl: Option<string>)

  datatype ResearchPaper = ResearchPaper(
    id: string,
    title: string,
    authors: seq<string>,
    abstractText: string,
    publishedDate: string,
    journal: string,
    url: string,
    citations: Option<nat>,
    keywords: seq<string>)
}
