# MedVision AI client — a Dafny model

MedVision AI is a web client for AI-assisted reading of chest X-rays and CT
images. This project models its core logic in Dafny and proves properties
of that model:

- the scan store: adding, deleting, per-user queries and the dashboard
  statistics;
- the authentication context: seeding the local user list, local login
  with blocking, registration, logout;
- the administration page: blocking, unblocking and deleting users, and
  the two search boxes;
- the diagnosis page: file selection, the prediction round trip, the scan
  record built from a prediction, the progress bar, reset;
- the dashboard's pie chart and detection rate;
- the research and news pages' fixed lists and their filters.

The model is organised one module per source file:

| module | file | what it holds |
|---|---|---|
| `Text` | `text.dfy` | ASCII lower/upper case, `includes`, `startsWith`, first-match `replace`, word capitalisation, decimal digits |
| `Seqs` | `seqs.dfy` | `filter`, `findIndex`, `some`, `slice(0, n)` as functions, with order and membership lemmas |
| `Types` | `types.dfy` | the records of `types/index.ts`; calendar months and creation stamps |
| `Storage` | `storage.dfy` | the browser's local storage as one object with the four keys the client uses |
| `ScanContext` | `scan_context.dfy` | the scan store (`ScanProvider` class) and the statistics |
| `AuthContext` | `auth_context.dfy` | the user list seeding and the session (`AuthProvider` class) |
| `Admin` | `admin.dfy` | the administration page (`AdminPage` class) |
| `Diagnose` | `diagnose.dfy` | the diagnosis page (`DiagnosePage` class) |
| `Dashboard` | `dashboard.dfy` | pie chart data and the detection rate |
| `Research` | `research.dfy` | the paper list, its filter and its page |
| `News` | `news.dfy` | the article list, its filter and its page |

Everything that changes state in the client is modelled as a class.
`ScanProvider`, `AuthProvider`, `AdminPage`, `DiagnosePage`, `ResearchPage`
and `NewsPage` keep the component state as fields. The state they persist
lives in one shared `LocalStorage` object. Their methods state the whole
new state, and say which storage keys change. The filters, lookups and
derived figures are functions. Lemmas relate the functions and methods to
one another.

Inputs from outside the program are method parameters:

- the authentication server's reply (`AuthOutcome`);
- the prediction server's reply (`PredictOutcome`);
- the clock: a creation `Stamp`, the millisecond used in scan ids, the
  current month, and the moment the news list was built;
- the object URL made for an uploaded image;
- how often the progress ticker fired;
- the demo scans generated on first run.

The fixed paper and article lists are built from a table of wordings
(`PaperCopy`, `ArticleCopy`), and each page holds its table as a constant
field. Likewise, the diagnosis page's explanation and recommendation texts
come from a `TextTables` value, which the page fixes to `Tables`. This keeps
the long texts out of the proofs about dates, categories, keywords and
state. The lemmas about the lists therefore hold for any wording, and in
particular for the page's own.

## Model

| member | source | states |
|---|---|---|
| `Types.MonthsBefore` | client/src/contexts/ScanContext.tsx:167-168 | stepping back `n` months lowers the month count by exactly `n`, across year boundaries |
| `ScanContext.GetExplanation` | client/src/contexts/ScanContext.tsx:51-60 | every category has a finding text, and only the inconclusive one begins "Unable to" |
| `ScanContext.GetRecommendations` | client/src/contexts/ScanContext.tsx:73-105 | four items for a disease, three for a normal or an inconclusive finding |
| `ScanContext.GetAffectedRegions` | client/src/contexts/ScanContext.tsx:62-71 | the list of regions is empty exactly for normal and unknown; each disease names three |
| `ScanContext.DeleteScanRemovesExactly` | client/src/contexts/ScanContext.tsx:127-131 | after `deleteScan(id)` a scan is present iff it was present and has another id; the survivors keep their order, and each survivor keeps its number of copies |
| `ScanContext.DeleteAbsentScanIsNoOp` | client/src/contexts/ScanContext.tsx:128 | deleting an id no scan carries leaves the list unchanged |
| `ScanContext.CountOfSnoc` | client/src/contexts/ScanContext.tsx:156-158 | tallying one more scan adds one to its own disease and nothing to the other four |
| `ScanContext.CategoriesPartition` | client/src/contexts/ScanContext.tsx:149-158 | the five category counts add up to the number of scans |
| `ScanContext.DetectedCategories` | client/src/contexts/ScanContext.tsx:139 | the non-normal counts add up to `diseasesDetected`, so unknown results count as detections |
| `ScanContext.BreakdownAccounts` | client/src/contexts/ScanContext.tsx:149-162 | the breakdown has the five categories in fixed order, zero counts included; they sum to the scan count, and the non-normal ones to the detections |
| `ScanContext.TrendShape` | client/src/contexts/ScanContext.tsx:165-179 | the trend covers six consecutive months, oldest first, ending with the current month; detections never exceed scans; the last month's count is the month-to-date count |
| `ScanContext.Insert` | client/src/contexts/ScanContext.tsx:182-184 | inserting into a newest-first list keeps it newest first and adds exactly that one scan |
| `ScanContext.SortNewestFirst` | client/src/contexts/ScanContext.tsx:182-184 | the sorted copy is newest first and a permutation of the store |
| `ScanContext.RecentScansAreNewest` | client/src/contexts/ScanContext.tsx:182-184 | `recentScans` holds min(5, n) scans of the store, newest first, and any scan later than a kept one is kept too |
| `ScanContext.TallyDiseases` | client/src/contexts/ScanContext.tsx:149-158 | the counting loop leaves every category's count equal to the number of scans with that disease |
| `ScanContext.BuildTrend` | client/src/contexts/ScanContext.tsx:165-179 | the six-iteration loop builds exactly the trend: slot j is the month 5 - j back, with its scans and detections |
| `ScanContext.ScanProvider.constructor` | client/src/contexts/ScanContext.tsx:110-119 | a stored list is loaded as is; otherwise the demo list is used and written to storage; storage then mirrors the store |
| `ScanContext.ScanProvider.AddScan` | client/src/contexts/ScanContext.tsx:121-125 | the new scan goes in front of the unchanged list, and storage mirrors it |
| `ScanContext.ScanProvider.DeleteScan` | client/src/contexts/ScanContext.tsx:127-131 | the list becomes the old list without that id, and storage mirrors it |
| `ScanContext.ScanProvider.GetUserScans` | client/src/contexts/ScanContext.tsx:133-135 | exactly the scans owned by the user, in store order |
| `ScanContext.ScanProvider.GetStats` | client/src/contexts/ScanContext.tsx:137-195 | each reported figure equals its definition over the current list: total, detections, 0.94 accuracy, month-to-date, breakdown, trend, recent five |
| `AuthContext.InitialUsers` | client/src/contexts/AuthContext.tsx:22-37 | a stored list is used unchanged; with none, the list is the single seed admin `admin@medvision.ai` / `admin123` |
| `AuthContext.SeedAdmin` | client/src/contexts/AuthContext.tsx:25-32 | the seed record is an unblocked admin with e-mail `admin@medvision.ai` and password `admin123`, created now |
| `AuthContext.SeedAdminCanLogIn` | client/src/contexts/AuthContext.tsx:25-32 | on a fresh install the seed credentials pass local login as the seed admin without its password, and that session is an admin's |
| `AuthContext.InitializeIsIdempotent` | client/src/contexts/AuthContext.tsx:22-37 | initialising again at any later time changes nothing, and a fresh seed holds exactly one admin |
| `AuthContext.InitializeUsers` | client/src/contexts/AuthContext.tsx:22-37 | writes the users key only when it is unset, and returns what the key then holds |
| `AuthContext.FindByCredentials` | client/src/contexts/AuthContext.tsx:56-59 | none iff no record matches the e-mail (any case) and exact password; otherwise the first matching record |
| `AuthContext.LocalLoginOutcome` | client/src/contexts/AuthContext.tsx:56-70 | no local match iff no record matches; refused iff the first match is blocked; otherwise its session copy, which has no password |
| `AuthContext.ServerResult` | client/src/contexts/AuthContext.tsx:80-89 | success iff the server replied 2xx; a rejection carries the server's message, a network failure "Server error" |
| `AuthContext.LoginIgnoresEmailCase` | client/src/contexts/AuthContext.tsx:57-58 | two spellings of an address that differ only in case log in alike |
| `AuthContext.LocalMatchIsRegistered` | client/src/contexts/AuthContext.tsx:103 | any address the local login stage matches is one registration refuses |
| `AuthContext.AuthProvider.constructor` | client/src/contexts/AuthContext.tsx:43-50 | mounting seeds the user list if needed, restores the stored session user, and ends not loading |
| `AuthContext.AuthProvider.Login` | client/src/contexts/AuthContext.tsx:53-90 | a blocked local match is refused with no state change; an unblocked one starts its session without the password and keeps the token, and the session is an admin's exactly when the matched record is; otherwise the server decides; the user list is never written |
| `AuthContext.AuthProvider.AcceptServerReply` | client/src/contexts/AuthContext.tsx:80-89 | a 2xx reply sets the session user, stored user and token; anything else changes none of them |
| `AuthContext.AuthProvider.Register` | client/src/contexts/AuthContext.tsx:93-125 | an address already in the list (any case) is refused, with no state change and no server call; otherwise the server decides; the user list is never written |
| `AuthContext.AuthProvider.IsAdmin` | client/src/contexts/AuthContext.tsx:134 | true exactly when someone is logged in with the admin role; `Login` states it follows the matched record's role and `Logout` that it is false afterwards |
| `AuthContext.AuthProvider.Logout` | client/src/contexts/AuthContext.tsx:128-134 | clears the session user and both session keys whatever they held, so repeating it changes nothing; afterwards nobody is admin |
| `Admin.FirstWithId` | client/src/pages/Admin.tsx:63 | none iff no record has the id; otherwise the first record with it |
| `Admin.TargetIsAdmin` | client/src/pages/Admin.tsx:63-64 | the guard holds iff the first record with the id is an admin |
| `Admin.AdminIsProtected` | client/src/pages/Admin.tsx:62-71 | an admin record that is the first with its id is refused by the guard of both user actions |
| `Admin.Flip` | client/src/pages/Admin.tsx:74 | the blocked state is inverted, with an absent flag read as not blocked; the flag becomes present; no other field changes |
| `Admin.ToggleBlocked` | client/src/pages/Admin.tsx:73-75 | same length; records with the id are flipped, every other record is unchanged in place |
| `Admin.ToggleTwiceRestores` | client/src/pages/Admin.tsx:73-76 | toggling the same id twice restores every blocked state and every other field |
| `Admin.ToggleAbsentIsNoOp` | client/src/pages/Admin.tsx:73-75 | toggling an id nobody has leaves the list unchanged |
| `Admin.BlockedCountIsFilterLength` | client/src/pages/Admin.tsx:173 | the blocked count on the users card is the number of blocked records |
| `Admin.ToggleMovesBlockedCount` | client/src/pages/Admin.tsx:73-76 | with unique ids, a toggle moves the blocked count by one, down if the record was blocked and up otherwise |
| `Admin.RemoveUserRemovesExactly` | client/src/pages/Admin.tsx:96 | deletion drops every record with the id, keeps every other record, in order, with each survivor's number of copies unchanged |
| `Admin.RemoveAbsentUserIsNoOp` | client/src/pages/Admin.tsx:96 | deleting an id nobody has leaves the list unchanged |
| `Admin.FilteredUsers` | client/src/pages/Admin.tsx:121-124 | exactly the records whose name or e-mail contains the query ignoring case, in order |
| `Admin.FilteredScans` | client/src/pages/Admin.tsx:126-129 | exactly the scans whose patient name or disease string contains the query ignoring case, in order |
| `Admin.ShownScans` | client/src/pages/Admin.tsx:348 | the table shows the first min(20, n) matches, all of them when there are at most 20 |
| `Admin.EmptySearchShowsAll` | client/src/pages/Admin.tsx:121-129 | an empty search box hides no user and no scan |
| `Admin.UserFoundByOwnName` | client/src/pages/Admin.tsx:121-124 | a record is found by its own name or e-mail typed in any case |
| `Admin.BlockedUserCannotLogIn` | client/src/pages/Admin.tsx:73-76 | after blocking the only record with an id, that record's own credentials are refused by local login |
| `Admin.AdminPage.constructor` | client/src/pages/Admin.tsx:50-55 | the page's list is the stored list, or empty when the key is unset |
| `Admin.AdminPage.SaveUsers` | client/src/pages/Admin.tsx:57-60 | storage and the page both hold the new list |
| `Admin.AdminPage.ToggleBlockUser` | client/src/pages/Admin.tsx:62-83 | refused for an admin target with nothing changed; otherwise the toggled list is saved and storage equals the page's list |
| `Admin.AdminPage.DeleteUser` | client/src/pages/Admin.tsx:85-103 | refused for an admin target with nothing changed; otherwise the list without the id is saved and storage equals the page's list |
| `Admin.AdminPage.HandleDeleteScan` | client/src/pages/Admin.tsx:105-111 | the scan store loses that id and stays persisted |
| `Diagnose.PredictUrlDistinguishesModality` | client/src/pages/Diagnose.tsx:156-161 | the X-ray and CT requests go to different URLs |
| `Diagnose.MapBackendLabel` | client/src/pages/Diagnose.tsx:65-73 | unknown exactly for labels other than the four the server uses, so other casings are unknown too |
| `Diagnose.BackendLabelRoundTrip` | client/src/pages/Diagnose.tsx:65-73 | each of the four server labels maps to its disease and back; unknown has no label |
| `Diagnose.Explanation` | client/src/pages/Diagnose.tsx:76-82 | every finding, the inconclusive one included, has an explanation |
| `Diagnose.DecidedExplanation` | client/src/pages/Diagnose.tsx:77-80 | a disease or a normal result is explained by "The AI analysis ..." and its findings |
| `Diagnose.InconclusiveExplanation` | client/src/pages/Diagnose.tsx:81 | the inconclusive explanation says "The AI was unable ..." instead of listing the analysis's findings |
| `Diagnose.BodyPart` | client/src/pages/Diagnose.tsx:198 | "Chest" exactly for X-ray; CT scans get "CT Scan Area" |
| `Diagnose.Recommendations` | client/src/pages/Diagnose.tsx:84-90 | two items for normal, three for unknown, four for each disease |
| `Diagnose.ContourUrl` | client/src/pages/Diagnose.tsx:176-178 | a non-empty visual map becomes a JPEG data URL that ends in exactly that payload; otherwise the preview is shown |
| `Diagnose.ScanIdRecoversTime` | client/src/pages/Diagnose.tsx:183 | a scan id is `scan-` then digits that read back as the millisecond it was made |
| `Diagnose.ScanIdsDiffer` | client/src/pages/Diagnose.tsx:183 | scans made at different milliseconds get different ids |
| `Diagnose.BuildScan` | client/src/pages/Diagnose.tsx:173-199 | the id is `scan-` and the millisecond, the creation stamp is the given one; owner, modality, mapped disease, the server's confidence and the table texts are as the request had them; low risk iff normal, high iff not; no regions when normal, otherwise the single region "Detected zones"; body part "Chest" for X-ray and "CT Scan Area" for CT; preview and contour images as shown |
| `Diagnose.ProgressClimbsToNinety` | client/src/pages/Diagnose.tsx:145-149 | the bar starts at ten, climbs five per tick and stops at ninety |
| `Diagnose.DiagnosePage.constructor` | client/src/pages/Diagnose.tsx:98-107 | a fresh page has nothing selected, no result, progress 0 and X-ray chosen |
| `Diagnose.DiagnosePage.SelectModality` | client/src/pages/Diagnose.tsx:107 | the chosen modality becomes active |
| `Diagnose.DiagnosePage.HandleFileSelect` | client/src/pages/Diagnose.tsx:109-124 | a non-image type changes nothing; an image becomes the selection with its preview, and the contour, result and progress are cleared |
| `Diagnose.DiagnosePage.RunDiagnosis` | client/src/pages/Diagnose.tsx:141-218 | with no file or no user, nothing changes; on success the bar reaches 100, the built scan is the result and it is added in front of the store; on failure no scan is added and the bar stays where the ticker left it; analysing ends in both cases |
| `Diagnose.DiagnosePage.ResetDiagnosis` | client/src/pages/Diagnose.tsx:252-254 | clears the selection, preview, contour, result and progress |
| `Dashboard.PieName` | client/src/pages/Dashboard.tsx:59 | the display name has as many characters as the disease string |
| `Dashboard.PieNameOfTwoWords` | client/src/pages/Dashboard.tsx:59 | a name `a_b` of two lower-case words is shown as the two words capitalised, with a space between |
| `Dashboard.PieNameOfOneWord` | client/src/pages/Dashboard.tsx:59 | a one-word name is shown with its first letter capitalised |
| `Dashboard.BoneFractureWords` | client/src/pages/Dashboard.tsx:59 | the two words of `bone_fracture` capitalise to "Bone Fracture" |
| `Dashboard.BoneFracturePieName` | client/src/pages/Dashboard.tsx:59 | `bone_fracture` is shown as its two words, capitalised |
| `Dashboard.Slices` | client/src/pages/Dashboard.tsx:58-62 | one slice per entry, with that entry's name, count and colour |
| `Dashboard.PieData` | client/src/pages/Dashboard.tsx:56-62 | the pie is the slices of the positive-count entries, in breakdown order; every slice is positive and comes from a breakdown entry, and every entry with a positive count has its slice |
| `Dashboard.PieDataFollowsBreakdown` | client/src/pages/Dashboard.tsx:56-62 | the pie's slices are an order-preserving selection of the breakdown's slices, one for each positive entry |
| `Dashboard.ColorOf` | client/src/pages/Dashboard.tsx:35-41 | every category has an HSL colour |
| `Dashboard.ColorsDistinct` | client/src/pages/Dashboard.tsx:35-41 | two different categories never share a colour |
| `Dashboard.SlicesKeepCounts` | client/src/pages/Dashboard.tsx:60 | the slice values add up to the entries' counts |
| `Dashboard.DropEmptyKeepsTotal` | client/src/pages/Dashboard.tsx:57 | dropping the zero-count entries keeps the total |
| `Dashboard.PieKeepsTotal` | client/src/pages/Dashboard.tsx:56-62 | the pie's values add up to the breakdown's total |
| `Dashboard.PieCoversEveryScan` | client/src/pages/Dashboard.tsx:54-62 | the pie of the store's statistics adds up to the number of scans |
| `Dashboard.DetectionRateAsWritten` | client/src/pages/Dashboard.tsx:109 | the card's ratio is undefined (NaN) exactly when there are no scans |
| `Dashboard.DeletingLastScanShowsNaN` | client/src/pages/Dashboard.tsx:109 | when every scan carries the deleted id, the list becomes empty and the card's ratio for its statistics is NaN |
| `Dashboard.DeleteLastScanThenShowRate` | client/src/pages/Dashboard.tsx:109 | deleting the last scan from the store and reading the statistics leaves an empty, persisted store whose card ratio is NaN, where the guarded rate is 0 |
| `Dashboard.DetectionRate` | client/src/pages/Dashboard.tsx:109 | zero for an empty store, otherwise the card's ratio |
| `Dashboard.DetectionRateIsFraction` | client/src/pages/Dashboard.tsx:109 | for the statistics of any store the rate is between 0 and 1, and it is 1 iff every scan is a detection |
| `Research.FilteredPapers` | client/src/pages/Research.tsx:142-150 | an order-preserving selection; a paper is kept iff it passes both the search (title, abstract or an author) and the area (All, a keyword or the title) |
| `Research.EmptySearchListsAll` | client/src/pages/Research.tsx:142-150 | an empty search with the All area lists every paper in order |
| `Research.ListedByKeyword` | client/src/pages/Research.tsx:146-149 | a paper with a keyword equal to the area up to case passes an empty search and that area |
| `Research.MockPapers` | client/src/pages/Research.tsx:24-113 | eight papers with distinct ids, each worded by its entry of the table, with four keywords and a citation count |
| `Research.EveryFocusAreaListsAPaper` | client/src/pages/Research.tsx:115-122 | with an empty search, every focus-area tab lists at least one paper of the fixed list |
| `Research.BoneFractureListsPaper4` | client/src/pages/Research.tsx:58-68 | the fourth paper of the fixed list has id 4 and is listed for an empty search under "Bone Fracture" |
| `Research.ResearchPage.constructor` | client/src/pages/Research.tsx:126-129 | the page starts with no papers, loading |
| `Research.ResearchPage.FetchPapers` | client/src/pages/Research.tsx:131-140 | after the load the page holds the fixed list and is not loading |
| `News.MockNews` | client/src/pages/News.tsx:26-99 | eight articles with distinct ids, each titled and summarised by its entry of the table |
| `News.MockNewsCategoriesAreTabs` | client/src/pages/News.tsx:26-101 | every article's category is one of the tabs other than All |
| `News.MockNewsNewestFirst` | client/src/pages/News.tsx:26-99 | the fixed list is strictly newest first, and every article predates the moment the list was built |
| `News.FilteredNews` | client/src/pages/News.tsx:129-134 | an order-preserving selection; an article is kept iff its title or summary contains the query ignoring case and the tab is All or exactly its category |
| `News.EmptySearchListsAll` | client/src/pages/News.tsx:129-134 | an empty search under All lists every article in order |
| `News.CategoryIsExact` | client/src/pages/News.tsx:132 | under any tab but All, every listed article has exactly that category, case included |
| `News.RegulatoryListsOnlyArticle6` | client/src/pages/News.tsx:72-80 | an empty search under "Regulatory" lists article 6 and nothing else |
| `News.NewsPage.constructor` | client/src/pages/News.tsx:113-114 | the page starts with no articles, loading |
| `News.NewsPage.RefreshNews` | client/src/pages/News.tsx:136-141 | the list becomes the fixed list whatever it held, so a second refresh changes nothing; loading ends |

## Left out

- HTTP: the authentication and prediction requests are not modelled. Their replies are the `AuthOutcome` and `PredictOutcome` parameters. A reply's JSON shape is not checked. An absent `message` in a non-2xx login or register reply is not distinguished from a present one.
- Local storage and JSON: the keys are fields of one `LocalStorage` object holding values, not serialised text. Malformed stored text is not modelled.
- The clock and calendar: `createdAt` is a `Stamp` (calendar month plus offset), not an ISO string. "Now" is a month parameter.
- `Date.setMonth` overflow: on the 29th to 31st, `setMonth` can overflow into the next month. The trend uses clean month arithmetic, so that shift is not modelled.
- Month names and formatting: locale month names are not modelled, and the trend keeps the calendar month instead.
- Number formatting: `toFixed` and the percentage display are not modelled. Confidence values and rates are reals, not floating point.
- Diagnose.DiagnosePage.RunDiagnosis: the scan id's millisecond and the creation stamp are independent parameters, not one clock reading. The intermediate `isAnalyzing = true` state during the request is not observable.
- Diagnose.BuildScan: the texts come from the `tables` argument. `DiagnosePage` fixes them to `Tables`, the page's two dictionaries.
- Diagnose.MapBackendLabel: in the client, a label naming an inherited object property (such as `constructor`) makes the dictionary lookup return that property instead of falling back to unknown. The model maps every label other than the four to unknown.
- `generateSampleScans` is random. The demo scans are the constructor's `sample` parameter, and the text tables it draws from are modelled as data only.
- Research.BoneFractureListsPaper4: the model proves that paper 4 is listed, not that it is the only paper listed. The other papers' long titles would have to be searched character by character.
- Research and News: the mock-data lemmas are proved for any table of wordings. The pages use `PaperCopy` and `ArticleCopy`. The third author of paper 6 is spelled exactly as the client's list spells it.
- Research: the one-second delay before the list appears is not modelled, and the load ends when `FetchPapers` returns. News refresh is modelled the same way.
- Lower-casing is ASCII only. Unicode case mapping is not modelled.
- The PDF report and `URL.createObjectURL` are not modelled. The object URL is a parameter of `HandleFileSelect`.
- UI-only parts are not modelled:
  - toasts, navigation and drag-and-drop state;
  - the `aiEnabled` switch, which gates nothing;
  - display dictionaries: `DISEASE_INFO` names, risk and role styles, category icons.
- Research and News: the focus-area and category tab lists are constants, but the filters take any string.
- Asynchrony: `login`, `register` and `runDiagnosis` are each modelled as one atomic step. The awaits inside them are not modelled, so neither is another action interleaving between a read of the state and the write that follows.

## Findings

| source | as written | input that shows it | evidently intended | confidence | as-written member | corrected member |
|---|---|---|---|---|---|---|
| client/src/pages/Dashboard.tsx:109 | the detection rate is `diseasesDetected / totalScans` with no guard for an empty store | delete the last scan from the administration page (the empty list is stored, so no demo scans come back): 0 / 0, and the card reads "NaN% detection rate" | 0% when there are no scans | not executed; follows from the code as written | `Dashboard.DetectionRateAsWritten`, `Dashboard.DeletingLastScanShowsNaN`, `Dashboard.DeleteLastScanThenShowRate` | `Dashboard.DetectionRate`, `Dashboard.DetectionRateIsFraction` |
