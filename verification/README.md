# AI Resume Analyzer front end — a Dafny model

This project models the logic of the AI Resume Analyzer web front end.
The front end is a React application. Users upload resumes, get them
scored and analysed, match them against job offers, and compare them with
a pasted job description. Its logic lives in three pages and four store
slices:

- **Matched Jobs page** (`src/components/Application.jsx`). The matched-job
  list goes through four steps. It is filtered by a score bucket and sorted
  on a copy by score, title or company. It is then cut into pages of ten.
  Summary statistics are computed over the unfiltered list: the total, the
  high-match count and a top-five tally of strength strings. The page also
  has the score colour bands, the "Top Match" badge, the advice text, the
  expandable cards, the resume picker and the "Find Jobs" request with its
  progress message.
- **Dashboard** (`src/components/Dashboard.jsx`). The upload pipeline makes
  four awaited remote calls in a fixed order: upload, refresh the resume
  list, analyse, update stats. The page also has the drag-and-drop flags,
  the resume picker that fills the metadata cards, and deletion.
- **Job Matcher** (`src/components/JobMatcher.jsx`). It runs two ordered
  input checks, then sends the request. The answer is stored with `??`
  defaults; a failure sets an error and resets the record. The page also
  has the button-enable rule, the rule for when results are shown, and the
  score ring, colour and label helpers.
- **Store slices** (`src/store/*.js`): `jobMatched`, `resume`, `auth`,
  `interviewQuestions`. Each reducer assigns fields of the slice state in
  place.

How the code is modelled:

- **Pure code → functions.** The filter, sort, paging and colour helpers
  are functions on values. So are the parts of the JavaScript runtime they
  rely on, in module `JsRuntime`:
  - `Array.prototype.slice`;
  - `String.prototype.trim` with the ECMA-262 white-space set;
  - `??` and `||` on optional values.
- **The stable sort.** `Array.prototype.sort` must be stable by section
  22.1.3.27 of ECMA-262 (ECMAScript 2019). Module `StableSort` gives a
  reference insertion sort and proves it:
  - a permutation of its input;
  - ordered by any real-valued key its comparator agrees with;
  - stable;
  - unique: every stable sort returns the same list.
- **Component state and store slices → classes.** Their handlers are
  methods with field-level `modifies` frames.
- **The tally loop → a method.** The `forEach` tally of strengths is a
  method with loop invariants, proved against specification functions.
- **Remote calls → outcome parameters.** Each awaited call is a parameter
  of type `Outcome<T>`: `Resolved(value)` or `Rejected` (a throw at the
  `await`).
- **Timers → methods.** Each `setTimeout` callback is a "timer fires"
  method. The handler that arms the timer reports that it did so.

## Model

| member | source | states |
|---|---|---|
| JsRuntime.SliceFromEnd | src/components/Application.jsx:139-142 | a negative start counts back from the end: `slice(-k, n)` is the last k elements, and a start before the beginning gives the whole list |
| JsRuntime.SliceIsWindow | src/components/Application.jsx:139-142 | whatever its bounds, a slice is a contiguous window of the list and never fails |
| JsRuntime.SliceWindow | src/components/Application.jsx:139-142 | with non-negative bounds, `slice(start, end)` is the window [min(start, n), min(end, n)) and holds at most end - start elements |
| JsRuntime.TrimStart | src/components/JobMatcher.jsx:55 | the result is a suffix of the input, does not start with white space, and only white space was dropped |
| JsRuntime.TrimEnd | src/components/JobMatcher.jsx:55 | the result is a prefix of the input, does not end with white space, and only white space was dropped |
| JsRuntime.TrimEmptyIffBlank | src/components/JobMatcher.jsx:55 | `trim()` gives the empty string exactly when every character is white space |
| JsRuntime.OrEmptyNormalises | src/store/jobMatched.js:11 | `x \|\| []` on a list is idempotent and gives [] only for an absent or an empty list, so a present list is never replaced |
| Entities.SelectionDefaults | src/components/Application.jsx:207-216 | an absent score and a stored 0 both select as 0; absent feedback and feedback with every list absent select the same record; the upload date plays no part; a resume with every field present selects exactly those fields |
| StableSort.KeyClassWithin | src/components/Application.jsx:129 | a key class holds only elements of the list with that key |
| StableSort.InsertPermutes | src/components/Application.jsx:129 | one insertion step keeps the multiset of elements |
| StableSort.SortPermutes | src/components/Application.jsx:129-134 | the sorted copy has the same elements with the same multiplicities |
| StableSort.InsertSorted | src/components/Application.jsx:129-134 | inserting into a list ordered by the key keeps it ordered |
| StableSort.SortSorted | src/components/Application.jsx:129-134 | with a comparator consistent with a key, keys never decrease along the result |
| StableSort.InsertStable | src/components/Application.jsx:129-134 | one insertion step keeps every key class in input order |
| StableSort.SortStable | src/components/Application.jsx:129-134 | every key class appears in the result in its input order (stability) |
| StableSort.SortKeepsUnseparated | src/components/Application.jsx:133 | a comparator that never separates two elements leaves the list unchanged |
| StableSort.SortIsUnique | src/components/Application.jsx:129-134 | any list ordered by the key whose key classes match the input's is the sort's result |
| MatchView.FilterJobs | src/components/Application.jsx:122-127 | kept jobs are in the bucket; each in-bucket job keeps its multiplicity and others drop to 0; the result is an order-preserving subsequence |
| MatchView.UnknownFilterKeepsAll | src/components/Application.jsx:126 | 'all' and every other unknown filter value keep the whole list |
| MatchView.BucketsPartition | src/components/Application.jsx:122-127 | the sizes of the high, medium and low results add up to the list's length |
| MatchView.ComparatorConsistent | src/components/Application.jsx:129-134 | when `localeCompare` follows a total preorder, the comparator orders like descending score, or title or company rank |
| MatchView.SortJobsCorrect | src/components/Application.jsx:129-134 | for every sort key, the sorted copy is a permutation of the filtered list, ordered by the key, with equal keys in filtered order |
| MatchView.WithScore | src/components/Application.jsx:130 | the jobs picked out all come from the list and carry the given score |
| MatchView.WithScoreIsKeyClass | src/components/Application.jsx:130 | the jobs with score v are the key class of -v under descending score |
| MatchView.ScoreSortDescendingStable | src/components/Application.jsx:130 | under 'score', length is kept, scores never increase, and jobs with equal scores keep their filtered order |
| MatchView.UnknownSortKeepsOrder | src/components/Application.jsx:133 | an unknown sort key leaves the filtered order unchanged |
| MatchView.ScoreSortExample | src/components/Application.jsx:129-134 | [B(9), A(9), C(5)] sorted by score stays [B, A, C] |
| MatchView.PageWindow | src/components/Application.jsx:136-142 | page p holds at most ten jobs; it is empty when (p-1)*10 >= n and otherwise exactly sorted[(p-1)*10 .. min(p*10, n)) |
| MatchView.PagesArePrefix | src/components/Application.jsx:136-142 | pages 1..k in sequence are the first min(10k, n) sorted jobs |
| MatchView.PagesReassemble | src/components/Application.jsx:136-142 | concatenating pages 1..ceil(n/10) gives back the sorted list |
| MatchView.FullPages | src/components/Application.jsx:136-142 | every page before the last holds exactly ten jobs |
| MatchView.TwentyThreeJobs | src/components/Application.jsx:136-142 | 23 jobs fill three pages and the third holds three |
| MatchStats.AllStrengths | src/components/Application.jsx:148-153 | the flattened strengths contain exactly the strengths of the listed jobs |
| MatchStats.FirstIndex | src/components/Application.jsx:148-153 | the index found holds the string, and no earlier index does |
| MatchStats.FirstSeen | src/components/Application.jsx:156 | the tally's key order holds exactly the strings of the input |
| MatchStats.FirstSeenOrdered | src/components/Application.jsx:156 | the key order has no repeats, and lists keys in order of first occurrence |
| MatchStats.AllStrengthsCount | src/components/Application.jsx:148-153 | a strength occurs in the flattened list as often as the jobs list it, summed job by job |
| MatchStats.TallyCountsEveryOccurrence | src/components/Application.jsx:148-153 | the tally has a key exactly for the skills some job lists, and each count is the sum over the jobs of how often each lists it, repeats within a job included |
| MatchStats.RepeatedStrengthCountsTwice | src/components/Application.jsx:149-151 | a job listing "React" twice gives "React" a tally of 2 |
| MatchStats.FirstSeenAppend | src/components/Application.jsx:150 | one more string extends the key order only when it is new |
| MatchStats.TallyStep | src/components/Application.jsx:150 | `acc[skill] = (acc[skill] \|\| 0) + 1` keeps the tally in step with the strengths seen so far, key order included |
| MatchStats.TallyIsSkillTally | src/components/Application.jsx:148-153 | a tally in step with a list is that list's occurrence map |
| MatchStats.TallyStrengths | src/components/Application.jsx:149-151 | the `forEach` over one job's strengths keeps the tally in step with everything seen so far |
| MatchStats.ComputeStats | src/components/Application.jsx:144-154 | total is the unfiltered length; highMatch is the size of the 'high' filter and at most total; the sum adds every score; the tally is the occurrence map with keys in first-seen order |
| MatchStats.NamesOfEntries | src/components/Application.jsx:156-159 | `Object.entries` followed by taking each pair's name gives back the key order |
| MatchStats.KeyClassOfPrefix | src/components/Application.jsx:158 | a key class of a prefix is a prefix of the key class |
| MatchStats.TopSkillsFacts | src/components/Application.jsx:156-159 | the ranked entries are a permutation of the tally entries, ordered by descending count, each with its true count |
| MatchStats.TopSkillsBounded | src/components/Application.jsx:156-159 | at most five skills, each a strength of some matched job |
| MatchStats.TopSkillsNonIncreasing | src/components/Application.jsx:156-159 | tallies never increase along the result, counting every occurrence |
| MatchStats.TiesBeforeCut | src/components/Application.jsx:157-158 | after the stable sort and the cut, the kept skills with a given tally are a prefix of that tally's skills in key order |
| MatchStats.TopSkillsTiesFirstSeen | src/components/Application.jsx:156-159 | skills with equal tallies appear in first-seen order, and are a prefix of all skills with that tally |
| MatchStats.OmittedBelowCut | src/components/Application.jsx:157-158 | an entry left out by the cut means five were kept, and its count is at most the fifth's |
| MatchStats.TopSkillsOmittedNoHigher | src/components/Application.jsx:156-159 | a skill left out means five were returned, and its tally is at most the fifth's |
| Application.Band | src/components/Application.jsx:101-120 | band 3 exactly for score >= 8, at least 2 exactly for >= 6, at least 1 exactly for >= 4 |
| Application.ScoreColorByBand | src/components/Application.jsx:101-106 | two scores get the same bar gradient exactly when they are in the same band |
| Application.ScoreTextColorByBand | src/components/Application.jsx:108-113 | two scores get the same figure colour exactly when they are in the same band |
| Application.ScoreBgColorByBand | src/components/Application.jsx:115-120 | two scores get the same circle colour exactly when they are in the same band |
| Application.BandMonotone | src/components/Application.jsx:101-120 | a higher score never falls in a lower band |
| Application.TopMatchThresholdsAgree | src/components/Application.jsx:667-671 | the Top Match badge, the top colour band, the 'high' bucket and the strong advice coincide; the 'medium' bucket coincides with the good advice |
| Application.Toggled | src/components/Application.jsx:97-99 | the result is none exactly when the clicked card was the open one, and otherwise that card |
| Application.ToggleTwice | src/components/Application.jsx:97-99 | toggling the same card twice restores the state exactly when no other card was open |
| Application.PageNumber | src/components/Application.jsx:697-709 | `Number(selectedPage)` of a page button is 1, 2 or 3, matching its label |
| Application.ReachableJobs | src/components/Application.jsx:697-709 | pages 1 to 3 together are exactly the first min(30, n) sorted jobs, and each page button shows the same page of that prefix as of the whole list, so no later job is ever shown |
| Application.FooterRangeCounts | src/components/Application.jsx:685-687 | on a non-empty page the footer's range counts exactly the jobs shown; past the end its first number exceeds its last |
| Application.ApplicationPage.constructor | src/components/Application.jsx:32-39 | nothing open, filter 'all', sort 'score', no selection, page "1", no progress |
| Application.ApplicationPage.ToggleExpand | src/components/Application.jsx:97-99 | the open card becomes the toggled one; nothing else changes |
| Application.ApplicationPage.SetFilter | src/components/Application.jsx:379 | only the filter changes |
| Application.ApplicationPage.SetSortBy | src/components/Application.jsx:407 | only the sort key changes |
| Application.ApplicationPage.SelectPage | src/components/Application.jsx:709 | only the selected page changes, and it stays one of "1", "2", "3" |
| Application.ApplicationPage.ClickResume | src/components/Application.jsx:199-217 | clicking the selected resume deselects it; clicking another selects its flattened record |
| Application.ApplicationPage.FindJobs | src/components/Application.jsx:64-71 | asks for the selected id; on success stores the answer (null becomes []) and ends "All Matched Jobs Found..."; on failure stays "Finding matched jobs...", button disabled, store untouched |
| Application.ApplicationPage.VisibleJobs | src/components/Application.jsx:122-142 | the cards shown are at most ten, all in the active bucket, none shown more often than stored |
| Application.WindowSubMultiset | src/components/Application.jsx:139-142 | a window of a list holds no element more often than the list |
| Application.VisibleWithin | src/components/Application.jsx:122-142 | a page of the sorted filter result is a sub-multiset of the stored list, all in the bucket |
| Dashboard.StepsResolved | src/components/Dashboard.jsx:92-125 | the number of calls resolved before the first rejection; at least k exactly when the first k calls resolved |
| Dashboard.TraceAfter | src/components/Dashboard.jsx:89-115 | the progress messages set before a failure are a non-empty prefix of the success trace, ending at the stage reached |
| Dashboard.UploadEffects | src/components/Dashboard.jsx:94-111 | the upload always comes first; a rejection ends the calls; otherwise upload, list fetch, store dispatch, analysis and stats in that order |
| Dashboard.UploadEffectsOrdered | src/components/Dashboard.jsx:101-111 | a call is made only when every earlier call resolved; analysis and stats get the upload's resumeId, after the refreshed list was dispatched |
| Dashboard.SelectionFillsCards | src/components/Dashboard.jsx:403-408 | selecting a resume shows score `resume_score \|\| 0`, and each count as the stored list's length or 0 |
| Dashboard.DashboardPage.constructor | src/components/Dashboard.jsx:16-26 | no resume, not uploading, no progress, no drag, no selection, score 0 and empty lists |
| Dashboard.DashboardPage.ScoreCard | src/components/Dashboard.jsx:213 | "--" exactly when no upload succeeded and nothing is selected; otherwise the metadata's score |
| Dashboard.DashboardPage.HandleDragOver | src/components/Dashboard.jsx:66-69 | the drag flag goes up; nothing else changes |
| Dashboard.DashboardPage.HandleDragLeave | src/components/Dashboard.jsx:71-74 | the drag flag goes down; nothing else changes |
| Dashboard.DashboardPage.HandleFileUpload | src/components/Dashboard.jsx:85-126 | full success: trace Uploading → Analyzing → Updating → Updated, metadata is the stats answer, uploading stays true with the timer armed; any rejection: trace up to that stage then the failure message, uploading false, metadata kept; the store holds the refreshed list once it arrived |
| Dashboard.DashboardPage.UploadTimerFires | src/components/Dashboard.jsx:117-120 | uploading false and progress cleared |
| Dashboard.DashboardPage.HandleDrop | src/components/Dashboard.jsx:76-83 | the drag flag goes down; with a file, the first one is uploaded whatever its type or size, with the effects, trace, flags, metadata and store of HandleFileUpload; with no file nothing else changes |
| Dashboard.DashboardPage.HandleFileSelect | src/components/Dashboard.jsx:128-133 | with a file, the first one is uploaded whatever its type or size, with the effects, trace, flags, metadata and store of HandleFileUpload; with no file nothing changes |
| Dashboard.DashboardPage.ClickResume | src/components/Dashboard.jsx:386-412 | clicking the selected resume deselects it and zeroes the cards; clicking another selects it and fills the cards from it |
| Dashboard.DashboardPage.HandleDeleteResume | src/components/Dashboard.jsx:163-171 | delete, then refresh the store; then clear the selection and the upload flag and write `{}`, so the cards read "--" and 0; the run always ends rejected |
| JobMatcher.Validate | src/components/JobMatcher.jsx:54-63 | a blank description is refused first, then a missing resume; both checks pass exactly when the description is not blank and a resume is selected |
| JobMatcher.BlankMeansWhiteSpace | src/components/JobMatcher.jsx:55-58 | a description is refused as blank exactly when it is all white space, whatever the selection |
| JobMatcher.ResultRoundTrip | src/components/JobMatcher.jsx:73-78 | an answer carrying every field is stored exactly as sent, a returned 0 or [] included; a null answer and one without fields give the empty record; a missing score or list defaults on its own, leaving the other fields as sent |
| JobMatcher.EmptyResultsHidden | src/components/JobMatcher.jsx:294-298 | the initial record, the reset record and an answer without fields never show the card; a positive score shows it |
| JobMatcher.MatchBand | src/components/JobMatcher.jsx:104-134 | band 2 exactly for score >= 80, at least 1 exactly for >= 60 |
| JobMatcher.MatchHelpersAgree | src/components/JobMatcher.jsx:104-134 | ring colour, figure colour, badge colour in either theme, and label change exactly at the band boundaries |
| JobMatcher.JobMatcherPage.constructor | src/components/JobMatcher.jsx:20-33 | empty description and record, not loading, no error, not analysing, no selection |
| JobMatcher.JobMatcherPage.AnalyzeEnabled | src/components/JobMatcher.jsx:254 | the button is enabled exactly when nothing is loading and both checks of `analyzeJob` pass |
| JobMatcher.JobMatcherPage.SetJobDescription | src/components/JobMatcher.jsx:243 | only the description changes |
| JobMatcher.JobMatcherPage.ClickResume | src/components/JobMatcher.jsx:171-178 | clicking the selected resume deselects it; clicking another selects it |
| JobMatcher.JobMatcherPage.AnalyzeJob | src/components/JobMatcher.jsx:54-94 | a failed check sets its message, makes no call, and leaves loading, the analysing flag and the record alone; otherwise it sends (resume id, description), stores the defaulted answer or resets on failure, ends not loading, and arms the timer |
| JobMatcher.JobMatcherPage.Request | src/components/JobMatcher.jsx:65-93 | the call carries the selected id and the description; the answer is stored with defaults, or a failure sets the error and the reset record; loading ends false |
| JobMatcher.JobMatcherPage.AnalyzingTimerFires | src/components/JobMatcher.jsx:92 | the analysing flag goes down |
| JobMatchedSlice.JobMatchedState.constructor | src/store/jobMatched.js:6-8 | no matched jobs |
| JobMatchedSlice.JobMatchedState.SetJobMatched | src/store/jobMatched.js:10-12 | the list is replaced by the payload, or by [] when it is missing, whatever it held before |
| JobMatchedSlice.SetJobMatchedTwice | src/store/jobMatched.js:10-12 | dispatching the same payload twice leaves what dispatching it once leaves |
| ResumeSlice.ResumeState.constructor | src/store/resumeSlice.js:6-12 | no resumes, score 0, empty feedback lists |
| ResumeSlice.ResumeState.SetResumes | src/store/resumeSlice.js:14-16 | only `resumes` changes, replaced wholesale |
| ResumeSlice.ResumeState.SetScore | src/store/resumeSlice.js:17-19 | only `score` changes |
| ResumeSlice.ResumeState.SetStrengths | src/store/resumeSlice.js:20-22 | only `strengths` changes |
| ResumeSlice.ResumeState.SetWeaknesses | src/store/resumeSlice.js:23-25 | only `weaknesses` changes |
| ResumeSlice.ResumeState.SetImprovements | src/store/resumeSlice.js:26-28 | only `improvements` changes |
| ResumeSlice.ReduceCommutes | src/store/resumeSlice.js:14-28 | any two of the five reducers on different fields give the same state in either order |
| ResumeSlice.ReduceOverwrites | src/store/resumeSlice.js:14-28 | every reducer ignores its field's previous value: running it twice is running it once, and a second action on the same field leaves only its payload |
| ResumeSlice.Dispatch | src/store/resumeSlice.js:14-28 | dispatching an action runs its setter, so the store holds the reduced state |
| ResumeSlice.DispatchTwice | src/store/resumeSlice.js:14-28 | dispatching the same action twice leaves what dispatching it once leaves |
| ResumeSlice.SettersCommute | src/store/resumeSlice.js:14-28 | two equal stores stay equal when any two actions on different fields are dispatched in opposite orders |
| AuthSlice.AuthState.constructor | src/store/authSlice.js:6-10 | logged out: not logged in, no user id, no token |
| AuthSlice.AuthState.Login | src/store/authSlice.js:12-16 | logged in, with the payload's user id and token replacing any earlier ones |
| AuthSlice.AuthState.Logout | src/store/authSlice.js:17-21 | back to the logged-out initial state from any state |
| AuthSlice.LoginLogoutLogout | src/store/authSlice.js:12-21 | login then logout gives the initial state, and a second logout keeps it |
| InterviewQuestionsSlice.InterviewQuestionsState.constructor | src/store/interviewQuestionsSlice.js:6-10 | no questions, empty job id and title |
| InterviewQuestionsSlice.InterviewQuestionsState.SetQuestions | src/store/interviewQuestionsSlice.js:12-14 | only `questions` changes |
| InterviewQuestionsSlice.InterviewQuestionsState.SetJobId | src/store/interviewQuestionsSlice.js:15-17 | only `jobId` changes |
| InterviewQuestionsSlice.InterviewQuestionsState.SetJobTitle | src/store/interviewQuestionsSlice.js:18-20 | only `jobTitle` changes |
| InterviewQuestionsSlice.SettersCommute | src/store/interviewQuestionsSlice.js:12-20 | the three setters touch disjoint fields, so they give the same state in either order |

The "only X changes" rows are stated by each method's `modifies` frame,
which names that one field.

## Behaviour worth knowing

- **Sort order.** Title and company are ordered by `localeCompare`, the
  locale's collation. The model leaves that order abstract, as any total
  preorder.
- **Top-skill ties.** Skills with equal tallies keep the tally's key
  order, which is first-seen order (`MatchStats.TopSkillsTiesFirstSeen`).
- **Average score.** The average divides the score sum by the length, so
  an empty list gives 0 / 0. The model keeps the score sum and the count
  and does not divide.
- **File checks.** No file type or size is checked before an upload
  (`Dashboard.DashboardPage.HandleDrop` and `HandleFileSelect`).
- **Refresh timing.** The resume list is refreshed and dispatched right
  after the upload, before the analysis, and not again after the stats
  call.
- **Failed upload.** A failed upload reports a failure message and ends.
  There is no retry.

## Left out

- **Not modelled: I/O and platform.**
  - The socket.io progress listener (src/components/Dashboard.jsx:38-47). It can overwrite `progress` at any moment, which is concurrency.
  - The initial resume fetches in each page's `useEffect`.
  - The HTTP helpers in `src/services/appServices.js`. Each call is an `Outcome` parameter, and its request and response formats are not modelled.
  - Downloads via `Blob` and object URLs (`handleDownload` in Application.jsx and Dashboard.jsx). This is browser I/O.
  - Timer delays. Each timer is a "timer fires" method; when it fires relative to other events is not modelled.
  - The locale behaviour of `localeCompare`. It is a parameter, and the sort lemmas assume it follows some total preorder.
  - The dark-theme class strings of the Matched Jobs and Dashboard pages, and the layout markup. The Job Matcher badge does model its theme flag.
- **Not modelled: numbers.**
  - `stats.avgScore`: the division by the length (NaN on an empty list) and `toFixed(1)`.
  - The SVG ring offset (src/components/JobMatcher.jsx:337).
  - Scores are JavaScript numbers modelled as `real`; NaN and infinities are not modelled.
  - `resume_score || 0` maps 0 and an absent score to 0; a NaN score would also give 0, which the model does not cover.
- **Not modelled: JavaScript objects.** The tally object's keys follow insertion order. Integer-like keys, which JavaScript lists first, are not modelled.
- **Not modelled: code bugs.**
  - The Matched Jobs page's own `handleDeleteResume` (src/components/Application.jsx:89-94). It dispatches the return value of a local state setter, so the store write does nothing.
  - `handleKeyPress` (src/components/JobMatcher.jsx:98-102). It only calls `analyzeJob` on Enter, and no element uses it.
- **Not modelled: other files.** The UI-only files (headers, sidebar, settings, sign-up, interview preparation pages, the inline helper, routing and the store set-up) are not part of this model.
- Dashboard.DashboardPage.HandleDeleteResume: the undefined `setStats` call at src/components/Dashboard.jsx:170 throws a `ReferenceError`. This is modelled as the outcome always being `Rejected`; the state changes before it are kept.
- Dashboard.DashboardPage.HandleFileUpload: `resume` is modelled as the truthiness of `response.success`, because the page only ever tests it for truthiness.
- Dashboard.DashboardPage.HandleFileUpload: a `setResumes` payload is modelled as a list of resumes, whatever the server returns.
- AuthSlice.AuthState.Login: assumes the payload object exists. A null payload makes the reducer throw, which is not modelled.
- MatchStats.ComputeStats: states the score sum rather than the average, because the average is floating-point division (see above).
- MatchStats.ComputeStats and MatchStats.TopSkillsOf: keys named after an `Object.prototype` property are not modelled. The tally is a plain `{}`. For "constructor", "toString" or "valueOf", the first `acc[skill] || 0` reads the inherited function, so the stored value is a string, not 1, and the count comparator then gives NaN. "__proto__" is never stored as its own key. The model treats every skill name as an ordinary key.
- Application.ApplicationPage.FindJobs, Dashboard.DashboardPage.HandleFileUpload, JobMatcher.JobMatcherPage.AnalyzeJob and JobMatcher.JobMatcherPage.Request: each async handler runs as one atomic step. The states between its awaits are not modelled, for example `loading` true while a match request is out, or an upload in flight. Overlapping runs are not modelled either: a second click, drop or file selection during an `await` would interleave its state writes with the first run's. So the `loading` half of the Analyze button rule is stated but never reached by a modelled run.
