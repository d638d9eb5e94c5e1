/**
 * The "Matched Jobs" page (src/components/Application.jsx): the resume
 * picker, the "Find Jobs" request, the filter, sort and page controls,
 * the expandable job cards and their score colouring.
 */
module Application {
  import opened JsRuntime
  import opened Entities
  import opened StableSort
  import opened MatchView
  import JobMatchedSlice

  // ---------------------------------------------------------------------------
  // Score colouring and advice
  // ---------------------------------------------------------------------------

  /** The colour band a score falls in: 3 for 8 and up, 2 for [6, 8), 1 for [4, 6), 0 below 4. */
  function Band(score: real): (b: nat)
    ensures b <= 3
    ensures b == 3 <==> score >= 8.0
    ensures b >= 2 <==> score >= 6.0
    ensures b >= 1 <==> score >= 4.0
  {
    if score >= 8.0 then 3 else if score >= 6.0 then 2 else if score >= 4.0 then 1 else 0
  }

  /** `getScoreColor`: the gradient of the score bar. */
  function ScoreColor(score: real): string {
    if score >= 8.0 then "bg-gradient-to-r from-green-500 to-emerald-600"
    else if score >= 6.0 then "bg-gradient-to-r from-yellow-500 to-amber-600"
    else if score >= 4.0 then "bg-gradient-to-r from-orange-500 to-red-500"
    else "bg-gradient-to-r from-gray-400 to-gray-600"
  }

  /** `getScoreTextColor`: the colour of the score figure. */
  function ScoreTextColor(score: real): string {
    if score >= 8.0 then "text-green-700"
    else if score >= 6.0 then "text-yellow-700"
    else if score >= 4.0 then "text-orange-700"
    else "text-gray-700"
  }

  /** `getScoreBgColor`: the background and border of the score circle (the theme argument is ignored). */
  function ScoreBgColor(score: real): string {
    if score >= 8.0 then "bg-green-50 border-green-200"
    else if score >= 6.0 then "bg-yellow-50 border-yellow-200"
    else if score >= 4.0 then "bg-orange-50 border-orange-200"
    else "bg-gray-50 border-gray-200"
  }

  /*
   * The three colour helpers draw the same boundaries: two scores get the
   * same bar, figure or circle colour exactly when they are in the same band.
   */

  lemma ScoreColorByBand(s: real, t: real)
    ensures ScoreColor(s) == ScoreColor(t) <==> Band(s) == Band(t)
  {
  }

  lemma ScoreTextColorByBand(s: real, t: real)
    ensures ScoreTextColor(s) == ScoreTextColor(t) <==> Band(s) == Band(t)
  {
  }

  lemma ScoreBgColorByBand(s: real, t: real)
    ensures ScoreBgColor(s) == ScoreBgColor(t) <==> Band(s) == Band(t)
  {
  }

  /** A higher score never lands in a lower colour band. */
  lemma BandMonotone(s: real, t: real)
    requires s <= t
    ensures Band(s) <= Band(t)
  {
  }

  /** The "Top Match" badge of a job card. */
  predicate ShowsTopMatch(job: Job) {
    job.score >= 8.0
  }

  const StrongAdvice: string :=
    "Strong match! Your skills align well with 80%+ of requirements. Consider highlighting your experience with C++ and Python in your application."
  const GoodAdvice: string :=
    "Good match! Focus on gaining experience with the missing skills to increase your chances."
  const WeakAdvice: string :=
    "Consider gaining more experience in the missing areas or look for roles with better alignment."

  /** The advice paragraph of an expanded card. */
  function Recommendation(score: real): string {
    if score >= 8.0 then StrongAdvice
    else if score >= 6.0 then GoodAdvice
    else WeakAdvice
  }

  /**
   * The badge, the green colour band, the "Strong match" advice, the 'high'
   * filter and the high-match counter all use the same threshold: a job
   * shows one of them exactly when it shows all of them.
   */
  lemma {:induction false} TopMatchThresholdsAgree(job: Job)
    ensures ShowsTopMatch(job) <==> Band(job.score) == 3
    ensures ShowsTopMatch(job) <==> InBucket("high", job.score)
    ensures ShowsTopMatch(job) <==> Recommendation(job.score) == StrongAdvice
    ensures InBucket("medium", job.score) <==> Recommendation(job.score) == GoodAdvice
  {
    assert |StrongAdvice| != |GoodAdvice| && |StrongAdvice| != |WeakAdvice| && |GoodAdvice| != |WeakAdvice|;
  }

  // ---------------------------------------------------------------------------
  // Expanded card and pages
  // ---------------------------------------------------------------------------

  /** `toggleExpand`: the clicked card closes if it was the open one, otherwise it becomes the open one. */
  function Toggled(expanded: Option<int>, index: int): (r: Option<int>)
    ensures r == None <==> expanded == Some(index)
    ensures r != None ==> r == Some(index)
  {
    if expanded == Some(index) then None else Some(index)
  }

  /** Clicking the same card twice restores the state exactly when no other card was open before. */
  lemma ToggleTwice(expanded: Option<int>, index: int)
    ensures Toggled(Toggled(expanded, index), index) == expanded <==> expanded == None || expanded == Some(index)
  {
  }

  /** The labels of the page buttons; there are always three, however many jobs there are. */
  const PageLabels: seq<string> := ["1", "2", "3"]

  /** `Number(selectedPage)` for a button a page button sets. */
  function PageNumber(button: string): (p: int)
    requires button in PageLabels
    ensures 1 <= p <= |PageLabels| && PageLabels[p - 1] == button
  {
    if button == "1" then 1 else if button == "2" then 2 else 3
  }

  /**
   * Only the first thirty sorted jobs can ever be shown: pages 1 to 3 are
   * exactly `sorted[..min(30, n)]`, and each page button shows the same
   * page of that prefix as of the whole list, so a job further down is on
   * none of them.
   */
  lemma {:induction false} ReachableJobs(sorted: seq<Job>)
    ensures Pages(sorted, |PageLabels|) == sorted[..Min(|PageLabels| * PageSize, |sorted|)]
    ensures forall button | button in PageLabels ::
              Paginate(sorted, PageNumber(button)) == Paginate(sorted[..Min(|PageLabels| * PageSize, |sorted|)], PageNumber(button))
  {
    PagesArePrefix(sorted, 3);
    var prefix := sorted[..Min(|PageLabels| * PageSize, |sorted|)];
    forall button | button in PageLabels
      ensures Paginate(sorted, PageNumber(button)) == Paginate(prefix, PageNumber(button))
    {
      var p := PageNumber(button);
      PageWindow(sorted, p);
      PageWindow(prefix, p);
      if |sorted| > |PageLabels| * PageSize {
        assert prefix[(p - 1) * PageSize .. p * PageSize] == sorted[(p - 1) * PageSize .. p * PageSize];
      } else {
        assert prefix == sorted;
      }
    }
  }

  /** The "Showing first-last of n" line under the list, for the current page. */
  function FooterRange(page: int, n: nat): (int, int) {
    ((page - 1) * PageSize + 1, Min(page * PageSize, n))
  }

  /**
   * On a page that holds jobs, the footer counts exactly the jobs shown;
   * on a page past the end of the list its first number exceeds its last
   * (23 jobs on page 3 read "21-23", 5 jobs on page 3 read "21-5").
   */
  lemma {:induction false} FooterRangeCounts(sorted: seq<Job>, page: int)
    requires page >= 1
    ensures var (first, last) := FooterRange(page, |sorted|);
            Paginate(sorted, page) != [] ==> last - first + 1 == |Paginate(sorted, page)|
    ensures var (first, last) := FooterRange(page, |sorted|);
            Paginate(sorted, page) == [] ==> first > last
  {
    PageWindow(sorted, page);
  }

  // ---------------------------------------------------------------------------
  // The page's state
  // ---------------------------------------------------------------------------

  const FindingJobs: string := "Finding matched jobs..."
  const JobsFound: string := "All Matched Jobs Found..."

  class ApplicationPage {
    var expandedJob: Option<int>
    var filter: string
    var sortBy: string
    var selectedResume: Option<SelectedResume>
    var selectedPage: string
    var progress: string

    /** The page selector only ever holds one of the button labels. */
    ghost predicate Valid()
      reads this
    {
      selectedPage in PageLabels
    }

    /** The initial state: nothing open, all jobs, by score, nothing selected, page 1, no progress. */
    constructor ()
      ensures Valid()
      ensures expandedJob == None && filter == "all" && sortBy == "score"
      ensures selectedResume == None && selectedPage == "1" && progress == ""
    {
      expandedJob := None;
      filter := "all";
      sortBy := "score";
      selectedResume := None;
      selectedPage := "1";
      progress := "";
    }

    /** The "Find Jobs" button is disabled while a request is outstanding. */
    predicate FindJobsDisabled()
      reads this
    {
      progress == FindingJobs
    }

    method ToggleExpand(index: int)
      modifies this`expandedJob
      ensures expandedJob == Toggled(old(expandedJob), index)
    {
      expandedJob := Toggled(expandedJob, index);
    }

    /** A filter button; the open card and the page are kept. */
    method SetFilter(f: string)
      modifies this`filter
      ensures filter == f
    {
      filter := f;
    }

    /** The sort selector; its value is whatever the chosen option carries. */
    method SetSortBy(key: string)
      modifies this`sortBy
      ensures sortBy == key
    {
      sortBy := key;
    }

    /** A page button; the open card index is kept, so the same slot opens on the new page. */
    method SelectPage(button: string)
      requires button in PageLabels
      modifies this`selectedPage
      ensures selectedPage == button && Valid()
    {
      selectedPage := button;
    }

    /** A resume card: clicking the selected resume deselects it, any other selects its flattened record. */
    method ClickResume(resume: Resume)
      modifies this`selectedResume
      ensures old(selectedResume).Some? && old(selectedResume).value.id == resume.id ==> selectedResume == None
      ensures !(old(selectedResume).Some? && old(selectedResume).value.id == resume.id) ==>
                selectedResume == Some(SelectionOf(resume))
    {
      if selectedResume.Some? && selectedResume.value.id == resume.id {
        selectedResume := None;
        return;
      }
      selectedResume := Some(SelectionOf(resume));
    }

    /**
     * `handleFindJobs(selectedResume.id)`: asks the matcher for the selected
     * resume, stores its answer with `setJobMatched`, and reports progress.
     * A rejected request is not caught: the progress stays at "Finding
     * matched jobs..." and the button stays disabled.  `trace` lists the
     * progress values in the order they are set.
     */
    method FindJobs(store: JobMatchedSlice.JobMatchedState, fetched: Outcome<Option<seq<Job>>>)
      returns (requested: string, trace: seq<string>)
      requires selectedResume.Some? && !FindJobsDisabled()
      modifies this`progress, store
      ensures requested == selectedResume.value.id
      ensures fetched.Resolved? ==>
                && store.matchedJobs == OrEmpty(fetched.value)
                && trace == [FindingJobs, JobsFound]
                && progress == JobsFound && !FindJobsDisabled()
      ensures fetched.Rejected? ==>
                && store.matchedJobs == old(store.matchedJobs)
                && trace == [FindingJobs]
                && progress == FindingJobs && FindJobsDisabled()
    {
      requested := selectedResume.value.id;
      progress := FindingJobs;
      trace := [progress];
      if fetched.Rejected? {
        return;
      }
      store.SetJobMatched(fetched.value);
      progress := JobsFound;
      trace := trace + [progress];
    }

    /**
     * The cards on screen: the stored jobs filtered, sorted and cut to the
     * selected page.  At most ten, each in the selected bucket, none
     * invented and none repeated more often than in the store.
     */
    function VisibleJobs(matchedJobs: seq<Job>, localeCompare: (string, string) -> real): (r: seq<Job>)
      reads this
      requires Valid()
      ensures |r| <= PageSize
      ensures forall j :: j in r ==> InBucket(filter, j.score)
      ensures multiset(r) <= multiset(matchedJobs)
    {
      var filtered := FilterJobs(matchedJobs, filter);
      var sorted := SortJobs(filtered, sortBy, localeCompare);
      var page := PageNumber(selectedPage);
      VisibleWithin(filtered, sorted, page, matchedJobs, filter, JobComparator(sortBy, localeCompare));
      Paginate(sorted, page)
    }
  }

  /** A window of a sequence holds no element more often than the sequence does. */
  lemma {:induction false} WindowSubMultiset<T>(s: seq<T>, lo: nat, hi: nat)
    requires lo <= hi <= |s|
    ensures multiset(s[lo..hi]) <= multiset(s)
  {
    assert s == s[..lo] + s[lo..hi] + s[hi..];
  }

  /** A page of a sort of a filter is a sub-multiset of the input, all in the bucket. */
  lemma {:induction false} VisibleWithin(filtered: seq<Job>, sorted: seq<Job>, page: int, matchedJobs: seq<Job>,
                      filter: string, cmp: (Job, Job) -> real)
    requires filtered == FilterJobs(matchedJobs, filter) && sorted == Sort(filtered, cmp) && page >= 1
    ensures |Paginate(sorted, page)| <= PageSize
    ensures multiset(Paginate(sorted, page)) <= multiset(matchedJobs)
    ensures forall j :: j in Paginate(sorted, page) ==> InBucket(filter, j.score)
  {
    PageWindow(sorted, page);
    SortPermutes(filtered, cmp);
    var p := Paginate(sorted, page);
    if p != [] {
      WindowSubMultiset(sorted, (page - 1) * PageSize, Min(page * PageSize, |sorted|));
    }
    assert multiset(p) <= multiset(filtered);
    forall j | j in p ensures InBucket(filter, j.score) {
      assert multiset(filtered)[j] > 0;
    }
  }
}
