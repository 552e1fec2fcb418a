/** The upload-and-diagnose page: choose a modality, select an image,
    send it to the prediction server, and turn the server's prediction into
    a scan record that is shown and added to the scan store. The server's
    reply, the object URL of the image and the clock are inputs. */
module Diagnose {
  import opened Types
  import opened Text
  import opened Storage
  import ScanContext
  import AuthContext

  const ApiBaseUrl := "http://localhost:8000"
  const Sensitivity := "120"
  const ScanIdPrefix := "scan-"
  const DataUrlPrefix := "data:image/jpeg;base64,"

  /** An uploaded file: its name and its MIME type. */
  datatype File = File(name: string, mimeType: string)

  /** The `prediction` object of the server's reply. */
  datatype Prediction = Prediction(className: string, confidence: real, isNormal: bool)

  /** What the prediction request produced: a 2xx reply carrying a
      prediction and optionally a base64 visual map, or any failure (a
      non-2xx status, an unreachable server, a body that is not JSON). */
  datatype PredictOutcome =
    | PredictOk(prediction: Prediction, visualAnalysis: Option<string>)
    | PredictFailed

  // ---------------------------------------------------------------------
  // The request
  // ---------------------------------------------------------------------

  /** `'xray' | 'ct'` */
  function ModalityName(m: ImageType): string {
    match m
    case Xray => "xray"
    case Ct => "ct"
  }

  /** The prediction endpoint with its query parameters in insertion
      order. */
  function PredictUrl(m: ImageType): string {
    ApiBaseUrl + "/predict?modality=" + ModalityName(m) + "&sensitivity=" + Sensitivity
  }

  /** The two modalities reach the server as different requests. */
  lemma PredictUrlDistinguishesModality()
    ensures PredictUrl(Xray) != PredictUrl(Ct)
  {
    assert PredictUrl(Ct)[|ApiBaseUrl + "/predict?modality="|] == 'c';
    assert PredictUrl(Xray)[|ApiBaseUrl + "/predict?modality="|] == 'x';
  }

  // ---------------------------------------------------------------------
  // From the server's label to a disease
  // ---------------------------------------------------------------------

  /** `mapBackendLabel`: the four labels the server uses, anything else
      inconclusive. */
  function MapBackendLabel(name: string): (r: Disease)
    ensures r == Unknown <==> name !in {"Fractured", "Normal", "Pneumonia", "Tuberculosis"}
  {
    if name == "Fractured" then BoneFracture
    else if name == "Normal" then Normal
    else if name == "Pneumonia" then Pneumonia
    else if name == "Tuberculosis" then Tuberculosis
    else Unknown
  }

  /** The label the server uses for each definite finding. */
  function BackendLabel(d: Disease): Option<string> {
    match d
    case Tuberculosis => Some("Tuberculosis")
    case Pneumonia => Some("Pneumonia")
    case BoneFracture => Some("Fractured")
    case Normal => Some("Normal")
    case Unknown => None
  }

  /** Every definite finding has exactly one label, and mapping it back
      gives the finding. */
  lemma BackendLabelRoundTrip(d: Disease, name: string)
    ensures BackendLabel(d).Some? ==> MapBackendLabel(BackendLabel(d).value) == d
    ensures BackendLabel(d).None? <==> d == Unknown
    ensures MapBackendLabel(name) != Unknown ==> BackendLabel(MapBackendLabel(name)) == Some(name)
  {
  }

  // ---------------------------------------------------------------------
  // Text attached to a finding
  // ---------------------------------------------------------------------

  /** The explanation shown for each finding: the AI analysis's numbered
      findings for a disease or a normal result, and a statement that no
      diagnosis could be made for an inconclusive one. */
  function Explanation(d: Disease): (r: string)
    ensures r != []
  {
    match d
    case Tuberculosis => ("The AI analysis " + ("identified " + "characteristic " +
                          "features " + "consistent with " +
                          "pulmonary " + "tuberculosis:\n\n1. " +
                          "**Upper Lobe " + "Infiltrates**: " +
                          "Detected " + "nodular " +
                          "opacities.\n2. " + "**Cavitary " +
                          "Lesions**: " + "Identified " +
                          "potential " + "cavitation " +
                          "suggesting " + "active " +
                          "disease.\n3. " + "**Tree-in-Bud " +
                          "Pattern**: " + "Observed " +
                          "branching " + "linear " +
                          "opacities.\n\nThe " + "confidence " +
                          "score reflects " + "similarity to " +
                          "known positive " + "TB cases."))
    case Pneumonia => ("The AI analysis " + ("detected " + "patterns " + "consistent with " +
                       "bacterial " + "pneumonia:\n\n1. " + "**Lobar " +
                       "Consolidation**: " + "Identified " +
                       "dense opacity " + "in the lower " +
                       "lung lobes.\n2. " + "**Silhouette " +
                       "Sign**: " + "Obscuration of " + "borders " +
                       "indicating " + "localization.\n3. " +
                       "**Pleural " + "Effusion**: " +
                       "Fluid detected " + "at the " + "costophrenic " +
                       "angle."))
    case BoneFracture => ("The AI analysis " + ("detected a bone " + "fracture with " +
                          "the following " + "findings:\n\n1. " +
                          "**Cortical " + "Disruption**: " +
                          "Clear " + "discontinuity " +
                          "in the bone " + "cortex " +
                          "identified.\n2. " + "**Alignment " +
                          "Assessment**: " + "Evaluation of " +
                          "displacement at " + "the site.\n3. " +
                          "**Soft Tissue " + "Changes**: " +
                          "Associated " + "swelling " + "observed."))
    case Normal => ("The AI analysis " + ("found no " + "significant " +
                    "abnormalities:\n\n1. " + "**Lung " +
                    "Fields**: Both " + "lung fields " + "appear " +
                    "clear.\n2. " + "**Cardiac " + "Silhouette**: " +
                    "Heart size and " + "shape are " + "within normal " +
                    "limits.\n3. " + "**Bony " + "Structures**: " +
                    "No acute bony " + "abnormalities " + "identified."))
    case Unknown => ("The AI was " + ("unable to make " + "a definitive " + "diagnosis due " +
                     "to image " + "quality or " + "atypical " +
                     "patterns."))
  }

  /** The inconclusive finding's explanation says the AI could not decide,
      rather than listing the analysis's findings. */
  lemma InconclusiveExplanation()
    ensures StartsWith(Explanation(Unknown), "The AI was ")
    ensures !StartsWith(Explanation(Unknown), "The AI analysis ")
  {
    var r := Explanation(Unknown);
    assert r[..11] == "The AI was ";
    assert r[7] == 'w';
  }

  /** A disease or a normal result is explained by the analysis's findings. */
  lemma DecidedExplanation(d: Disease)
    requires d != Unknown
    ensures StartsWith(Explanation(d), "The AI analysis ")
  {
  }

  /** Four items for a disease, two for a normal result, three for an
      inconclusive one. */
  function Recommendations(d: Disease): (r: seq<string>)
    ensures |r| == match d
                   case Normal => 2
                   case Unknown => 3
                   case _ => 4
  {
    match d
    case Tuberculosis => ["Sputum AFB smear and culture", "GeneXpert MTB/RIF testing", "Contact tracing", "Initiate DOTS therapy"]
    case Pneumonia => ["Blood cultures", "Empiric antibiotic therapy", "Monitor oxygen saturation", "Follow-up X-ray in 4-6 weeks"]
    case BoneFracture => ["Orthopedic consultation", "Additional imaging views", "Immobilization", "Pain management"]
    case Normal => ["No immediate intervention required", "Routine health maintenance"]
    case Unknown => ["Clinical correlation recommended", "Consider CT scan", "Specialist consultation"]
  }

  // ---------------------------------------------------------------------
  // The scan built from a prediction
  // ---------------------------------------------------------------------

  /** The image shown after analysis: the server's visual map as a data
      URL when it sent a non-empty one, otherwise the upload's preview. */
  function ContourUrl(visual: Option<string>, previewUrl: Option<string>): (r: Option<string>)
    ensures visual.Some? && visual.value != [] ==>
              r.Some? && StartsWith(r.value, DataUrlPrefix) && r.value[|DataUrlPrefix|..] == visual.value
    ensures !(visual.Some? && visual.value != []) ==> r == previewUrl
  {
    if visual.Some? && visual.value != [] then Some(DataUrlPrefix + visual.value) else previewUrl
  }

  /** `scan-${Date.now()}` */
  function ScanId(nowMillis: nat): string {
    ScanIdPrefix + Decimal(nowMillis)
  }

  /** The id records the millisecond it was made at: the digits after the
      prefix read back as that number. */
  lemma ScanIdRecoversTime(nowMillis: nat)
    ensures var id := ScanId(nowMillis);
            |id| > |ScanIdPrefix| && id[..|ScanIdPrefix|] == ScanIdPrefix
            && (forall i :: |ScanIdPrefix| <= i < |id| ==> '0' <= id[i] <= '9')
            && DigitsValue(id[|ScanIdPrefix|..]) == nowMillis
  {
    var id := ScanId(nowMillis);
    assert id[|ScanIdPrefix|..] == Decimal(nowMillis);
    DecimalRoundTrip(nowMillis);
  }

  /** Scans made at different milliseconds get different ids. */
  lemma ScanIdsDiffer(t1: nat, t2: nat)
    requires t1 != t2
    ensures ScanId(t1) != ScanId(t2)
  {
    ScanIdRecoversTime(t1);
    ScanIdRecoversTime(t2);
  }

  /** The body part recorded with a scan: the chest for an X-ray, a
      generic area for a CT image. */
  function BodyPart(m: ImageType): (r: string)
    ensures r == "Chest" <==> m == Xray
  {
    match m
    case Xray => "Chest"
    case Ct => "CT Scan Area"
  }

  /** The two lookup tables a finding's text comes from. */
  datatype TextTables = TextTables(explanation: Disease -> string, recommendations: Disease -> seq<string>)

  /** `EXPLANATIONS` and `RECOMMENDATIONS`. */
  const Tables := TextTables(Explanation, Recommendations)

  /** The scan record built from a successful prediction, its text looked
      up in `tables`. */
  function BuildScan(p: Prediction, visual: Option<string>, modality: ImageType, user: UserRecord,
                     previewUrl: Option<string>, nowMillis: nat, createdAt: Stamp, tables: TextTables): (s: Scan)
    ensures s.userId == user.id && s.userName == user.name && s.imageType == modality
    ensures s.diagnosis.disease == MapBackendLabel(p.className)
    ensures s.diagnosis.explanation == tables.explanation(s.diagnosis.disease)
    ensures s.diagnosis.recommendations == tables.recommendations(s.diagnosis.disease)
    ensures s.diagnosis.riskLevel == Low <==> p.isNormal
    ensures s.diagnosis.riskLevel == High <==> !p.isNormal
    ensures s.id == ScanId(nowMillis) && s.createdAt == createdAt
    ensures s.diagnosis.confidence == p.confidence
    ensures p.isNormal ==> s.diagnosis.affectedRegions == []
    ensures !p.isNormal ==> s.diagnosis.affectedRegions == ["Detected zones"]
    ensures s.bodyPart == (if modality == Xray then "Chest" else "CT Scan Area")
    ensures previewUrl.Some? ==> s.originalImageUrl == previewUrl.value
    ensures previewUrl.None? ==> s.originalImageUrl == ""
    ensures s.contourImageUrl == ContourUrl(visual, previewUrl)
  {
    var disease := MapBackendLabel(p.className);
    Scan(
      ScanId(nowMillis),
      user.id,
      user.name,
      previewUrl.GetOr(""),
      ContourUrl(visual, previewUrl),
      DiagnosisResult(
        disease,
        p.confidence,
        if p.isNormal then Low else High,
        tables.explanation(disease),
        if p.isNormal then [] else ["Detected zones"],
        tables.recommendations(disease)),
      createdAt,
      modality,
      BodyPart(modality))
  }

  // ---------------------------------------------------------------------
  // The progress bar
  // ---------------------------------------------------------------------

  /** One firing of the half-second ticker: add five, capped at ninety. */
  function Tick(p: int): int {
    if p >= 90 then 90 else p + 5
  }

  /** The bar after `ticks` firings, starting from ten. */
  function ProgressAfter(ticks: nat): int {
    if ticks == 0 then 10 else Tick(ProgressAfter(ticks - 1))
  }

  /** The bar climbs five per tick from ten and stops at ninety, so it
      never shows completion before the reply has arrived. */
  lemma {:induction false} ProgressClimbsToNinety(ticks: nat)
    ensures ProgressAfter(ticks) == if 10 + 5 * ticks < 90 then 10 + 5 * ticks else 90
    ensures 10 <= ProgressAfter(ticks) <= 90
  {
    if ticks > 0 {
      ProgressClimbsToNinety(ticks - 1);
    }
  }

  // ---------------------------------------------------------------------
  // The page
  // ---------------------------------------------------------------------

  class DiagnosePage {
    var selectedFile: Option<File>
    var previewUrl: Option<string>
    var contourUrl: Option<string>
    var isAnalyzing: bool
    var progress: int
    var result: Option<Scan>
    var activeModality: ImageType
    const auth: AuthContext.AuthProvider
    const scanStore: ScanContext.ScanProvider
    /** The lookup tables, fixed to `Tables` when the page is created. */
    const tables: TextTables

    /** A fresh page: nothing selected, X-ray chosen. */
    constructor (auth: AuthContext.AuthProvider, scanStore: ScanContext.ScanProvider)
      ensures this.auth == auth && this.scanStore == scanStore && tables == Tables
      ensures selectedFile == None && previewUrl == None && contourUrl == None && result == None
      ensures !isAnalyzing && progress == 0 && activeModality == Xray
    {
      this.auth := auth;
      this.scanStore := scanStore;
      tables := Tables;
      selectedFile, previewUrl, contourUrl := None, None, None;
      isAnalyzing, progress, result := false, 0, None;
      activeModality := Xray;
    }

    /** The modality tabs. */
    method SelectModality(m: ImageType)
      modifies this`activeModality
      ensures activeModality == m
    {
      activeModality := m;
    }

    /** `handleFileSelect`: a file whose type does not start with `image/`
        is refused and nothing changes; otherwise it becomes the selection,
        `objectUrl` its preview, and the previous result is cleared. */
    method HandleFileSelect(file: File, objectUrl: string)
      modifies this`selectedFile, this`previewUrl, this`contourUrl, this`result, this`progress
      ensures !StartsWith(file.mimeType, "image/") ==>
                selectedFile == old(selectedFile) && previewUrl == old(previewUrl)
                && contourUrl == old(contourUrl) && result == old(result) && progress == old(progress)
      ensures StartsWith(file.mimeType, "image/") ==>
                selectedFile == Some(file) && previewUrl == Some(objectUrl)
                && contourUrl == None && result == None && progress == 0
    {
      if !StartsWith(file.mimeType, "image/") {
        return;
      }
      selectedFile := Some(file);
      previewUrl := Some(objectUrl);
      contourUrl := None;
      result := None;
      progress := 0;
    }

    /** `runDiagnosis`. Without a selected file or a logged-in user nothing
        happens. Otherwise the prediction request is sent; `ticks` is how
        often the progress ticker fired before the reply. On success the
        bar completes, the scan built from the prediction becomes the
        result and is added to the front of the store; on failure the bar
        stays where the ticker left it and neither the result nor the store
        changes. Either way the page is no longer analysing. */
    method RunDiagnosis(outcome: PredictOutcome, ticks: nat, nowMillis: nat, createdAt: Stamp)
      modifies this`isAnalyzing, this`progress, this`contourUrl, this`result
      modifies scanStore`scans, scanStore.storage`scans
      ensures selectedFile == old(selectedFile) && previewUrl == old(previewUrl)
      ensures old(selectedFile).None? || old(auth.user).None? ==>
                isAnalyzing == old(isAnalyzing) && progress == old(progress) && contourUrl == old(contourUrl)
                && result == old(result) && scanStore.scans == old(scanStore.scans)
                && scanStore.storage.scans == old(scanStore.storage.scans)
      ensures old(selectedFile).Some? && old(auth.user).Some? ==>
                !isAnalyzing && match outcome
                  case PredictOk(p, visual) =>
                    && progress == 100
                    && contourUrl == ContourUrl(visual, previewUrl)
                    && result == Some(BuildScan(p, visual, activeModality, old(auth.user).value,
                                                previewUrl, nowMillis, createdAt, tables))
                    && scanStore.scans == [result.value] + old(scanStore.scans)
                    && scanStore.Persisted()
                  case PredictFailed =>
                    && progress == ProgressAfter(ticks)
                    && contourUrl == old(contourUrl) && result == old(result)
                    && scanStore.scans == old(scanStore.scans)
                    && scanStore.storage.scans == old(scanStore.storage.scans)
    {
      if selectedFile.None? || auth.user.None? {
        return;
      }
      var user := auth.user.value;
      isAnalyzing := true;
      progress := ProgressAfter(ticks);
      match outcome {
        case PredictOk(p, visual) =>
          progress := 100;
          var visualMapUrl := ContourUrl(visual, previewUrl);
          contourUrl := visualMapUrl;
          var scan := BuildScan(p, visual, activeModality, user, previewUrl, nowMillis, createdAt, tables);
          result := Some(scan);
          scanStore.AddScan(scan);
        case PredictFailed =>
      }
      isAnalyzing := false;
    }

    /** `resetDiagnosis`: clear the selection, both images, the result and
        the bar; the modality stays. */
    method ResetDiagnosis()
      modifies this`selectedFile, this`previewUrl, this`contourUrl, this`result, this`progress
      ensures selectedFile == None && previewUrl == None && contourUrl == None && result == None
      ensures progress == 0
    {
      selectedFile, previewUrl, contourUrl, result := None, None, None, None;
      progress := 0;
    }
  }
}
