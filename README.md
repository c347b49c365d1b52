# SkillMatch AI — a verified Dafny model of its core logic

SkillMatch AI is a career-matching web application: an Express back end that
simulates an AI résumé-analysis pipeline and serves a course catalogue, and a
React front end with a dashboard. This project models the parts of it that
carry decisions and proves what they promise:

- **Résumé analysis** (`ai_analysis.dfy`, module `AiAnalysis`): the simulated
  vector search over the fixed pool of eight job postings (case-insensitive
  skill overlap, a capped similarity score, a stable sort by score), skill-gap
  detection (first-seen deduplication of every pool skill, minus the skills
  the candidate has), the retrieval-augmented roadmap (priority by position,
  estimated weeks, three sources per gap), the shape of the language-model
  feedback, and the three routes `/analyze-resume`, `/match-jobs` and
  `/generate-roadmap` with their defaults, slices and coverage figure.
  Random draws are explicit parameters: the similarity jitter in basis points
  (0 to 800), the week offsets (below 6), the score bonus (below 15) and the
  token draw (below 800). Similarities are kept in basis points (0.45 is 4500).
- **Course search** (`courses.dfy`, module `Courses`): the five-course
  catalogue filtered by an optional free-text search and an optional category.
- **Analysis page** (`analysis_page.dfy`, module `AnalysisPage`): the five
  pipeline stages and the two flags, as a class whose run method walks the
  stages in a loop, plus the section-score colour bucket.
- **Integrity alerts** (`integrity_alerts.dfy`, module `IntegrityAlerts`): the
  alert list as a class from which dismiss and resolve remove an alert by id,
  and the badge text.
- **Upload progress** (`upload_progress.dfy`, module `UploadProgress`): the
  upload list as a class that prepends new uploads, and one tracker object
  per upload whose ticks accumulate progress, clamp the shown value at 95 and
  finish at 100; plus the size-unit choice.
- **Registration** (`register.dfy`, module `Register`): the two password
  checks in order and the form's `loading`/`emailSent`/`role` state around
  the sign-up call, whose answer is a parameter.
- **Dashboard header** (`dashboard_header.dfy`, module `DashboardHeader`):
  display name, initials and role label with their `||` fallbacks.
- **Careers page** (`careers.dfy`, module `Careers`): the match-score colour.
- **Auth middleware** (`auth_middleware.dfy`, module `AuthMiddleware`): the
  bearer-header check, token extraction, the mapping of the auth service's
  answer to 401/500 or to `req.user`, with the service a function parameter.

Shared helpers: `Wrappers` (Option), `Ui` (toast values), `Strings` (ASCII
case mapping, `includes`, `split(" ")`) and `Seqs` (`filter`, first-seen
deduplication, subsequence).

JavaScript semantics made explicit: `||` defaults treat `""` as missing but an
empty array as present; `split` keeps empty pieces; `[...new Set(xs)]` keeps
the first occurrence and compares strings exactly; `Array.prototype.sort` is
stable.

## Model

| member | source | states |
|---|---|---|
| AiAnalysis.MatchedSkillsSpec | server/routes/ai-analysis.ts:43 | the matched skills are a subsequence of the posting's skills; each equals some input skill ignoring case, and every posting skill that does is kept |
| AiAnalysis.MatchedSkills | server/routes/ai-analysis.ts:43 | the `overlap` filter; its contract is carried by MatchedSkillsSpec and FrontendScenario |
| AiAnalysis.KnowsIff | server/routes/ai-analysis.ts:43 | a skill is known exactly when some input skill equals it ignoring case |
| AiAnalysis.FrontendScenario | server/routes/ai-analysis.ts:32 | React, TypeScript and JavaScript match those three skills of the frontend posting, in posting order, and CSS is not matched |
| AiAnalysis.Similarity | server/routes/ai-analysis.ts:44 | for any admissible jitter the score lies between 0.45 and 0.99 |
| AiAnalysis.SimilarityMonotone | server/routes/ai-analysis.ts:44 | for a fixed jitter the score never decreases as the overlap grows |
| AiAnalysis.SimilarityCapped | server/routes/ai-analysis.ts:44 | with at most four matches the 0.99 cap is reached exactly when all four match and the jitter is at least 0.06 |
| AiAnalysis.OverlapAtMostFour | server/routes/ai-analysis.ts:31-43 | a pool posting lists four skills, so at most four match |
| AiAnalysis.ScoreJob | server/routes/ai-analysis.ts:42-50 | a result keeps its posting, records the matched skills and the vector database name, and has a bounded score |
| AiAnalysis.Scored | server/routes/ai-analysis.ts:42-50 | one scored result per pool posting, in pool order |
| AiAnalysis.Insert | server/routes/ai-analysis.ts:51 | inserting into the sorted list adds exactly that result |
| AiAnalysis.SortBySimilarity | server/routes/ai-analysis.ts:51 | the sort is a permutation of its input |
| AiAnalysis.InsertSorted | server/routes/ai-analysis.ts:51 | inserting keeps the list sorted by non-increasing score |
| AiAnalysis.InsertStable | server/routes/ai-analysis.ts:51 | inserting puts the new result before the existing results of equal score |
| AiAnalysis.SortSorted | server/routes/ai-analysis.ts:51 | the sorted list is ordered by non-increasing score |
| AiAnalysis.SortStable | server/routes/ai-analysis.ts:51 | results with equal score keep their input order (stability) |
| AiAnalysis.SortSpec | server/routes/ai-analysis.ts:51 | the sort is a stable, non-increasing permutation of its input |
| AiAnalysis.WithSimilarityCons | server/routes/ai-analysis.ts:51 | the results of a given score in a list are those of its head followed by those of its tail |
| AiAnalysis.VectorSearch | server/routes/ai-analysis.ts:29-52 | the search returns one result per pool posting |
| AiAnalysis.VectorSearchSpec | server/routes/ai-analysis.ts:29-52 | exactly eight results, sorted by non-increasing score, a permutation of the scored pool |
| AiAnalysis.VectorSearchStable | server/routes/ai-analysis.ts:42-51 | postings with equal scores keep pool order |
| AiAnalysis.VectorSearchResults | server/routes/ai-analysis.ts:42-51 | every result is the scored form of some pool posting, with its matched skills and a bounded score |
| AiAnalysis.SortedPrefix | server/routes/ai-analysis.ts:134 | a prefix of a sorted list is sorted |
| AiAnalysis.LowerAll | server/routes/ai-analysis.ts:43 | lower-cases every input skill, position by position |
| AiAnalysis.AllSkillsMembers | server/routes/ai-analysis.ts:117 | a skill is in the flattened list exactly when some result's posting lists it |
| AiAnalysis.SkillGapsOrdered | server/routes/ai-analysis.ts:117-118 | gaps have no duplicates and appear in first-seen order over the ranked postings |
| AiAnalysis.SkillGapsSound | server/routes/ai-analysis.ts:117-118 | every gap is a posting skill that equals no input skill ignoring case |
| AiAnalysis.SkillGapsComplete | server/routes/ai-analysis.ts:117-118 | every posting skill that matches no input skill is a gap |
| AiAnalysis.SkillGaps | server/routes/ai-analysis.ts:117-118 | the deduplicated pool skills the candidate lacks; its contract is carried by SkillGapsOrdered, SkillGapsSound and SkillGapsComplete |
| AiAnalysis.Gaps | server/routes/ai-analysis.ts:114-118 | the gaps of `/analyze-resume` over the ranked search; their use is stated by AnalyzeResume and GapsOfSearchAreGapsOfPool |
| AiAnalysis.GapsOfSearchAreGapsOfPool | server/routes/ai-analysis.ts:114-118 | gaps over the search results are exactly the unknown skills of the whole pool |
| AiAnalysis.Coverage | server/routes/ai-analysis.ts:140 | coverage is input / (input + gaps) × 100, lies in [0,100], is 100 iff there are no gaps and 0 iff there is no input skill |
| AiAnalysis.CoverageDefined | server/routes/ai-analysis.ts:140 | the coverage denominator is never zero, even for an empty skill list |
| AiAnalysis.PriorityAt | server/routes/ai-analysis.ts:58 | high for positions 0 and 1, medium for 2 and 3, low from 4 |
| AiAnalysis.PriorityNonIncreasing | server/routes/ai-analysis.ts:58 | priority never rises along the roadmap |
| AiAnalysis.Sources | server/routes/ai-analysis.ts:60-64 | exactly three retrieved sources per gap |
| AiAnalysis.Item | server/routes/ai-analysis.ts:56-65 | an item is about its gap, has the positional priority, 2 to 7 weeks and three sources |
| AiAnalysis.RagRoadmap | server/routes/ai-analysis.ts:54-74 | one item per gap in order with skill = gaps[i], positional priority, 2 to 7 weeks, three sources, 3 × gaps context chunks, the configured model |
| AiAnalysis.LlmFeedbackFor | server/routes/ai-analysis.ts:76-100 | overall score 72 to 86, 1200 to 1999 tokens, five sections and five suggestions |
| AiAnalysis.OverallScoreIndependentOfSections | server/routes/ai-analysis.ts:83-90 | the section scores are fixed; only the overall score depends on the draw |
| AiAnalysis.InputText | server/routes/ai-analysis.ts:107 | the default résumé text replaces a missing or empty one |
| AiAnalysis.InputSkills | server/routes/ai-analysis.ts:108 | the default skills replace only a missing list; an empty list is used as given |
| AiAnalysis.Take | server/routes/ai-analysis.ts:121 | `slice(0, n)`: the first min(n, length) elements |
| AiAnalysis.Ranked | server/routes/ai-analysis.ts:114 | the ranked list has all eight postings |
| AiAnalysis.AnalyzeResume | server/routes/ai-analysis.ts:105-144 | the top five results, the gaps, a defined coverage in [0,100], a roadmap of the first min(gaps, 6) gaps with 3 chunks each, feedback score 72 to 86 |
| AiAnalysis.MatchInput | server/routes/ai-analysis.ts:180 | the three default skills replace only a missing list |
| AiAnalysis.MatchJobs | server/routes/ai-analysis.ts:178-192 | exactly five matches, the head of the ranked search, sorted by score |
| AiAnalysis.GenerateRoadmap | server/routes/ai-analysis.ts:195-205 | one item per requested gap (or per default gap), in order |
| Courses.ListCoursesIsFilter | server/routes/courses.ts:63-75 | the two sequential filters equal one filter of the catalogue by the conjunction of the given tests |
| Courses.ListCourses | server/routes/courses.ts:7-78 | the handler over the catalogue; its contract is carried by ListCoursesIsFilter, ListCoursesSpec and UnfilteredIsCatalogue |
| Courses.Select | server/routes/courses.ts:63-75 | the search filter then the category filter, each only when its parameter is given; its contract is carried by SelectIsFilter |
| Courses.SelectIsFilter | server/routes/courses.ts:63-75 | the same over any course list |
| Courses.ListCoursesSpec | server/routes/courses.ts:10-75 | the result is a subsequence of the catalogue; every result passes the given search and category tests; no passing course is dropped |
| Courses.UnfilteredIsCatalogue | server/routes/courses.ts:63-75 | without a search or category the full catalogue comes back unchanged |
| Courses.CategoryIdempotent | server/routes/courses.ts:73-75 | filtering the result by the same category again changes nothing |
| Courses.CategoryIdempotentFor | server/routes/courses.ts:73-75 | the same over any course list |
| AnalysisPage.SetStatus | src/pages/AIAnalysis.tsx:82-88 | a step changes only the status of stage i |
| AnalysisPage.AllSetTo | src/pages/AIAnalysis.tsx:96 | every stage takes the status, names, engines and details unchanged |
| AnalysisPage.Pipeline.constructor | src/pages/AIAnalysis.tsx:67-75 | five idle stages, not running, not complete |
| AnalysisPage.Pipeline.RunPipeline | src/pages/AIAnalysis.tsx:77-93 | running while the loop marks stages complete in order; on exit all are complete, running is false, complete is true, stages otherwise unchanged |
| AnalysisPage.Pipeline.ResetPipeline | src/pages/AIAnalysis.tsx:95-98 | all stages idle, complete false, running untouched, names and engines kept |
| AnalysisPage.Pipeline.CanRun | src/pages/AIAnalysis.tsx:123-128 | the run button is disabled while running; RunPipeline and ResetPipeline ensure it is enabled when they return |
| AnalysisPage.Pipeline.OffersReset | src/pages/AIAnalysis.tsx:118-122 | reset is offered only when complete; RunPipeline ensures it is offered afterwards and ResetPipeline that it is withdrawn |
| AnalysisPage.SectionBar | src/pages/AIAnalysis.tsx:348 | green from 80, primary from 70 to 79, orange below 70 |
| AnalysisPage.SectionBarMonotone | src/pages/AIAnalysis.tsx:348 | a higher score never gets a lower bucket |
| IntegrityAlerts.WithoutSpec | src/components/dashboard/IntegrityAlerts.tsx:48 | removal keeps the other alerts in order, keeps none with the id and drops none without it |
| IntegrityAlerts.Without | src/components/dashboard/IntegrityAlerts.tsx:48 | the filter by id; its contract is carried by WithoutSpec, WithoutAbsent, WithoutIdempotent and WithoutAt |
| IntegrityAlerts.WithoutAbsent | src/components/dashboard/IntegrityAlerts.tsx:48 | removing an absent id leaves the list unchanged |
| IntegrityAlerts.WithoutIdempotent | src/components/dashboard/IntegrityAlerts.tsx:48 | removing twice is removing once |
| IntegrityAlerts.WithoutAt | src/components/dashboard/IntegrityAlerts.tsx:48 | when no other alert carries the id, removing it cuts out exactly that alert |
| IntegrityAlerts.WithoutDistinct | src/components/dashboard/IntegrityAlerts.tsx:48 | removal keeps ids distinct |
| IntegrityAlerts.InitialDistinct | src/components/dashboard/IntegrityAlerts.tsx:14-36 | the initial ids are distinct |
| IntegrityAlerts.Badge | src/components/dashboard/IntegrityAlerts.tsx:64 | "N alert" exactly when N is one, "N alerts" otherwise |
| IntegrityAlerts.AlertPanel.BadgeText | src/components/dashboard/IntegrityAlerts.tsx:63-65 | the badge for the current count; its contract is carried by Badge |
| IntegrityAlerts.AlertPanel.AllClear | src/components/dashboard/IntegrityAlerts.tsx:68-75 | the "All clear!" branch is taken exactly when no alert is left |
| Strings.NatToString | src/components/dashboard/IntegrityAlerts.tsx:64 | the count is printed as decimal digits without leading zeros whose value is the count |
| IntegrityAlerts.AlertPanel.constructor | src/components/dashboard/IntegrityAlerts.tsx:14-44 | the panel starts with the three initial alerts |
| IntegrityAlerts.AlertPanel.DismissAlert | src/components/dashboard/IntegrityAlerts.tsx:47-50 | removes the id, shrinking by one when present and changing nothing when absent, and shows the dismissal toast |
| IntegrityAlerts.AlertPanel.ResolveAlert | src/components/dashboard/IntegrityAlerts.tsx:52-55 | the same effect on the list as dismissing, with the resolved toast |
| IntegrityAlerts.AlertPanel.Remove | src/components/dashboard/IntegrityAlerts.tsx:48 | the shared state update, keeping ids distinct |
| UploadProgress.WithProgress | src/components/dashboard/UploadProgress.tsx:57-60 | entries with the id get the new progress; the others and the length are unchanged |
| UploadProgress.Completed | src/components/dashboard/UploadProgress.tsx:47-50 | entries with the id become successful at 100; the others and the length are unchanged |
| UploadProgress.Visible | src/components/dashboard/UploadProgress.tsx:177 | at most the first five entries |
| UploadProgress.UploadList.constructor | src/components/dashboard/UploadProgress.tsx:23 | the list starts empty |
| UploadProgress.UploadList.SimulateUpload | src/components/dashboard/UploadProgress.tsx:30-41 | the new entry, uploading at 0, goes in front of the unchanged existing entries; the tracker starts at 0 |
| UploadProgress.Upload.constructor | src/components/dashboard/UploadProgress.tsx:41 | the running total starts at 0 with the interval active |
| UploadProgress.Upload.Tick | src/components/dashboard/UploadProgress.tsx:42-63 | the total never decreases; below 100 the entry shows min(total, 95); at 100 it is successful at 100, the interval stops and a toast is shown; no entry is ever marked failed |
| UploadProgress.FormatSize | src/components/dashboard/UploadProgress.tsx:95-99 | bytes below 1024, kilobytes below 1048576, megabytes otherwise, with the value scaled accordingly |
| Register.Validate | src/pages/Register.tsx:26-42 | mismatch first, then too short below 6 characters, else acceptable; length exactly 6 is accepted |
| Register.RoleName | src/pages/Register.tsx:16 | the role is "student" or "employer" |
| Register.RegisterForm.constructor | src/pages/Register.tsx:16-21 | role student, not loading, no email sent |
| Register.RegisterForm.SetRole | src/pages/Register.tsx:164-174 | a role button sets only the role |
| Register.RegisterForm.HandleRegister | src/pages/Register.tsx:23-71 | sign-up is called, with the form's data, exactly when the checks pass; a failed check shows its toast and changes no flag; after an answer loading is false, a toast is shown and emailSent is set only on success; a rejected sign-up call leaves loading true, emailSent unchanged and shows no toast |
| DashboardHeader.EmailPrefix | src/components/dashboard/DashboardHeader.tsx:12 | the part of the email before its first "@" |
| DashboardHeader.DisplayName | src/components/dashboard/DashboardHeader.tsx:12 | full name if non-empty, else the non-empty email prefix, else "User"; never empty |
| DashboardHeader.Firsts | src/components/dashboard/DashboardHeader.tsx:15-16 | at most one character per word |
| DashboardHeader.FirstsIgnoresEmpty | src/components/dashboard/DashboardHeader.tsx:15-16 | empty words contribute nothing |
| DashboardHeader.FirstsOfWords | src/components/dashboard/DashboardHeader.tsx:15-16 | over non-empty words, exactly their first characters |
| DashboardHeader.Initials | src/components/dashboard/DashboardHeader.tsx:13-18 | at most two characters |
| DashboardHeader.InitialsOfWords | src/components/dashboard/DashboardHeader.tsx:13-18 | the upper-cased first characters of the first two non-empty words |
| DashboardHeader.InitialsOfTwoWords | src/components/dashboard/DashboardHeader.tsx:13-18 | a two-word name gives its two upper-cased initials |
| DashboardHeader.RoleLabel | src/components/dashboard/DashboardHeader.tsx:19 | the metadata role if non-empty, else "student" |
| Careers.MatchColor | src/pages/Careers.tsx:65-69 | green from 90, primary from 80 to 89, orange below 80 |
| Careers.MatchColorMonotone | src/pages/Careers.tsx:65-69 | a higher score never gets a lower bucket |
| AuthMiddleware.Token | server/middleware/auth.ts:23 | the token is the longest space-free run after "Bearer " |
| AuthMiddleware.HasBearer | server/middleware/auth.ts:19 | the header is present and starts with "Bearer " case-sensitively; Authenticate ensures 401 whenever it fails |
| AuthMiddleware.TokenStopsAtSpace | server/middleware/auth.ts:23 | "Bearer a b" gives the token "a" |
| AuthMiddleware.EmptyToken | server/middleware/auth.ts:19-23 | "Bearer " passes the header check with the empty token |
| AuthMiddleware.ToRequestUser | server/middleware/auth.ts:35-39 | the id is kept, the email defaults to "" and the role to "student" |
| AuthMiddleware.Authenticate | server/middleware/auth.ts:17-45 | a missing or non-bearer header gives 401; an error or missing user gives 401; an exception gives 500; otherwise the user with its defaults passes |
| AuthMiddleware.Authorize | server/middleware/auth.ts:17-45 | a rejection sets the status and error body and leaves the request and next alone; a pass sets req.user and calls next exactly once |
| Strings.ContainsIff | server/routes/courses.ts:67-69 | `includes` holds exactly when the needle occurs at some position |
| Strings.Contains | server/routes/courses.ts:67-69 | `includes`; its contract is carried by ContainsIff |
| Strings.Split | src/components/dashboard/DashboardHeader.tsx:14 | `split` on one character, never empty; its contract is carried by JoinSplit, SplitPiecesFree and FirstPiece (also used at server/middleware/auth.ts:23) |
| Strings.JoinSplit | src/components/dashboard/DashboardHeader.tsx:14 | joining the pieces of a split with the separator gives back the string |
| Strings.SplitPiecesFree | src/components/dashboard/DashboardHeader.tsx:14 | no piece of a split contains the separator |
| Strings.FirstPiece | server/middleware/auth.ts:23 | the first piece is the longest separator-free prefix |
| Seqs.Filter | server/routes/courses.ts:65 | a filter keeps only passing elements and drops none that pass |
| Seqs.FilterIsSubseq | server/routes/courses.ts:65 | a filter keeps the passing elements in order |
| Seqs.DedupFirstSeen | server/routes/ai-analysis.ts:117 | deduplication leaves no duplicates and keeps first-seen order |
| Seqs.Dedup | server/routes/ai-analysis.ts:117 | `[...new Set(s)]`: every element of the result is in the input and every input element is kept; DedupFirstSeen adds no duplicates and first-seen order |
| Seqs.FilterFirstSeen | server/routes/ai-analysis.ts:117-118 | filtering a first-seen deduplication keeps it first-seen and duplicate-free |

## Left out

- Embedding generation (`simulateEmbedding`), timing, latency and throughput fields, and the static pipeline-status and tracks endpoints: constant or floating-point display data.
- AiAnalysis.Similarity: similarity is kept in basis points and the four-decimal rounding of `toFixed(4)` is not modelled; the jitter draw therefore ranges over 0 to 800 inclusive.
- AiAnalysis.Coverage: the one-decimal rounding of `toFixed(1)` is not modelled; the exact ratio is kept.
- UploadProgress.FormatSize: the one-decimal rendering of the KB and MB figures is not modelled; the unit choice and the scaled value are.
- Case mapping is ASCII only; full Unicode `toLowerCase`/`toUpperCase` is not modelled.
- Register.Validate: the length is counted in Unicode code points, whereas `password.length` counts UTF-16 code units; a password with characters outside the Basic Multilingual Plane (an emoji is two units) can be accepted by the page but rejected by the model.
- Register.RegisterForm.HandleRegister: it decides whether to sign up through Validate, so it inherits the same code-point length count.
- DashboardHeader.Initials: `n[0]` and `slice(0, 2)` count UTF-16 code units; the model counts code points, so for a word starting outside the Basic Multilingual Plane the page takes a lone surrogate where the model takes the whole character.
- DashboardHeader.InitialsOfWords: the "first character" of a word is a code point here and a UTF-16 unit in the page, as for Initials.
- DashboardHeader.InitialsOfTwoWords: the same code-point versus UTF-16-unit difference as Initials.
- `setInterval`, `setTimeout` and `await` scheduling: each upload tick is one call of `Tick`, and the whole pipeline run is one call of `RunPipeline` whose stage steps are iterations of its loop. The intermediate states of a run (stage i running, `pipelineRunning` true) appear only in the loop invariants. Several `Upload` objects can be ticked in any order, so interleaved uploads are covered; a click that arrives while a pipeline run is in progress is not modelled.
- The sign-up service and the auth service: their answers are parameters (`SignUpOutcome`, including a rejected call, and `getUser`).
- Query and body values are modelled as optional strings and lists of strings; a value of another JSON type than the handler expects (for example `{"skills": "React"}`, where `skills.map` throws) is not modelled.
- Random upload ids may collide; the list invariant therefore does not relate an entry's status to its tracker.
- JSX rendering, icons, styling and toasts beyond their title and description.
