/**
 * The match-results view: the raw matched-job list is filtered by a
 * score bucket, sorted on a copy, and cut into fixed-size pages
 * (src/components/Application.jsx, lines 122-142).
 */
module MatchView {
  import opened JsRuntime
  import opened Entities
  import opened StableSort

  const PageSize: nat := 10

  // ---------------------------------------------------------------------------
  // Filter
  // ---------------------------------------------------------------------------

  /** The filter callback: 'high', 'medium', 'low', and every other value keeps the job. */
  predicate InBucket(filter: string, score: real) {
    if filter == "high" then score >= 8.0
    else if filter == "medium" then score >= 6.0 && score < 8.0
    else if filter == "low" then score < 6.0
    else true
  }

  /** `a` is `b` with some elements left out, the rest in the same order. */
  predicate IsSubsequence<T(==)>(a: seq<T>, b: seq<T>) {
    if a == [] then true
    else if b == [] then false
    else if a[0] == b[0] then IsSubsequence(a[1..], b[1..])
    else IsSubsequence(a, b[1..])
  }

  /**
   * `matchedJobs.filter(...)`: exactly the jobs in the bucket, each as often
   * as in the input, in input order.
   */
  function FilterJobs(jobs: seq<Job>, filter: string): (r: seq<Job>)
    ensures forall j :: j in r ==> InBucket(filter, j.score)
    ensures forall j :: multiset(r)[j] == if InBucket(filter, j.score) then multiset(jobs)[j] else 0
    ensures IsSubsequence(r, jobs)
    ensures |r| <= |jobs|
  {
    if jobs == [] then []
    else
      var rest := FilterJobs(jobs[1..], filter);
      assert jobs == [jobs[0]] + jobs[1..];
      if InBucket(filter, jobs[0].score) then
        assert ([jobs[0]] + rest)[1..] == rest;
        [jobs[0]] + rest
      else
        assert rest == [] || rest[0] != jobs[0];
        rest
  }

  /** 'all' and every value the filter buttons never produce keep the whole list. */
  lemma {:induction false} UnknownFilterKeepsAll(jobs: seq<Job>, filter: string)
    requires filter != "high" && filter != "medium" && filter != "low"
    ensures FilterJobs(jobs, filter) == jobs
  {
    if jobs != [] {
      UnknownFilterKeepsAll(jobs[1..], filter);
    }
  }

  /** The three buckets partition the list. */
  lemma {:induction false} BucketsPartition(jobs: seq<Job>)
    ensures |FilterJobs(jobs, "high")| + |FilterJobs(jobs, "medium")| + |FilterJobs(jobs, "low")| == |jobs|
  {
    if jobs != [] {
      BucketsPartition(jobs[1..]);
    }
  }

  // ---------------------------------------------------------------------------
  // Sort
  // ---------------------------------------------------------------------------

  /** The comparator passed to `sort`; `localeCompare` is `String.prototype.localeCompare`. */
  function Compare(sortBy: string, localeCompare: (string, string) -> real, a: Job, b: Job): real {
    if sortBy == "score" then b.score - a.score
    else if sortBy == "title" then localeCompare(a.title, b.title)
    else if sortBy == "company" then localeCompare(a.company, b.company)
    else 0.0
  }

  function JobComparator(sortBy: string, localeCompare: (string, string) -> real): (Job, Job) -> real {
    (a: Job, b: Job) => Compare(sortBy, localeCompare, a, b)
  }

  /** `[...filteredJobs].sort(...)`: the filtered list is copied, never reordered. */
  function SortJobs(filtered: seq<Job>, sortBy: string, localeCompare: (string, string) -> real): seq<Job> {
    Sort(filtered, JobComparator(sortBy, localeCompare))
  }

  /**
   * The locale's collation is a total preorder: `localeCompare(x, y) <= 0`
   * exactly when x's collation rank is at most y's.
   */
  ghost predicate CollatesBy(localeCompare: (string, string) -> real, rank: string -> real) {
    forall x, y :: localeCompare(x, y) <= 0.0 <==> rank(x) <= rank(y)
  }

  /** The key each sort option orders by (descending score is ascending negated score). */
  function JobKey(sortBy: string, rank: string -> real): Job -> real {
    (j: Job) =>
      if sortBy == "score" then -j.score
      else if sortBy == "title" then rank(j.title)
      else if sortBy == "company" then rank(j.company)
      else 0.0
  }

  lemma ComparatorConsistent(sortBy: string, localeCompare: (string, string) -> real, rank: string -> real)
    requires CollatesBy(localeCompare, rank)
    ensures Consistent(JobComparator(sortBy, localeCompare), JobKey(sortBy, rank))
  {
  }

  /**
   * Sorting returns a permutation of the filtered list, ordered by the
   * selected key, with jobs of equal key in filtered order.
   */
  lemma {:induction false} SortJobsCorrect(filtered: seq<Job>, sortBy: string, localeCompare: (string, string) -> real,
                        rank: string -> real, v: real)
    requires CollatesBy(localeCompare, rank)
    ensures multiset(SortJobs(filtered, sortBy, localeCompare)) == multiset(filtered)
    ensures SortedBy(SortJobs(filtered, sortBy, localeCompare), JobKey(sortBy, rank))
    ensures KeyClass(SortJobs(filtered, sortBy, localeCompare), JobKey(sortBy, rank), v)
            == KeyClass(filtered, JobKey(sortBy, rank), v)
  {
    ComparatorConsistent(sortBy, localeCompare, rank);
    SortPermutes(filtered, JobComparator(sortBy, localeCompare));
    SortSorted(filtered, JobComparator(sortBy, localeCompare), JobKey(sortBy, rank));
    SortStable(filtered, JobComparator(sortBy, localeCompare), JobKey(sortBy, rank), v);
  }

  /** The jobs of `s` whose score is `v`, in their order in `s`. */
  function WithScore(s: seq<Job>, v: real): (r: seq<Job>)
    ensures forall j :: j in r ==> j in s && j.score == v
  {
    if s == [] then [] else (if s[0].score == v then [s[0]] else []) + WithScore(s[1..], v)
  }

  lemma {:induction false} WithScoreIsKeyClass(s: seq<Job>, rank: string -> real, v: real)
    ensures WithScore(s, v) == KeyClass(s, JobKey("score", rank), -v)
  {
    if s != [] {
      WithScoreIsKeyClass(s[1..], rank, v);
    }
  }

  /**
   * Sorting by 'score' (the default): scores never increase along the
   * result, and jobs with equal scores keep their filtered order.
   */
  lemma {:induction false} ScoreSortDescendingStable(filtered: seq<Job>, localeCompare: (string, string) -> real, v: real)
    ensures |SortJobs(filtered, "score", localeCompare)| == |filtered|
    ensures var r := SortJobs(filtered, "score", localeCompare);
            forall i, j :: 0 <= i < j < |r| ==> r[i].score >= r[j].score
    ensures WithScore(SortJobs(filtered, "score", localeCompare), v) == WithScore(filtered, v)
  {
    var cmp := JobComparator("score", localeCompare);
    var rank := (x: string) => 0.0;
    var key := JobKey("score", rank);
    assert Consistent(cmp, key);
    SortPermutes(filtered, cmp);
    SortSorted(filtered, cmp, key);
    SortStable(filtered, cmp, key, -v);
    WithScoreIsKeyClass(SortJobs(filtered, "score", localeCompare), rank, v);
    WithScoreIsKeyClass(filtered, rank, v);
  }

  /** An unknown sort key makes the comparator always 0, so the order is unchanged. */
  lemma {:induction false} UnknownSortKeepsOrder(filtered: seq<Job>, sortBy: string, localeCompare: (string, string) -> real)
    requires sortBy != "score" && sortBy != "title" && sortBy != "company"
    ensures SortJobs(filtered, sortBy, localeCompare) == filtered
  {
    SortKeepsUnseparated(filtered, JobComparator(sortBy, localeCompare));
  }

  /**
   * `[B(9), A(9), C(5)]` sorted by score stays `[B, A, C]`: the two 9s keep
   * their input order.
   */
  lemma {:induction false} ScoreSortExample(b: Job, a: Job, c: Job, localeCompare: (string, string) -> real)
    requires b.score == 9.0 && a.score == 9.0 && c.score == 5.0
    ensures SortJobs([b, a, c], "score", localeCompare) == [b, a, c]
  {
    var s := [b, a, c];
    var cmp := JobComparator("score", localeCompare);
    assert [c][1..] == [];
    assert Sort([c], cmp) == Insert(c, Sort([], cmp), cmp) == [c];
    assert [a, c][1..] == [c];
    assert Sort([a, c], cmp) == Insert(a, [c], cmp) == [a, c];
    assert s[1..] == [a, c];
    assert Sort(s, cmp) == Insert(b, [a, c], cmp) == [b, a, c];
  }

  // ---------------------------------------------------------------------------
  // Pagination
  // ---------------------------------------------------------------------------

  /** `sortedJobs.slice((page - 1) * 10, page * 10)`. */
  function Paginate(sorted: seq<Job>, page: int): seq<Job> {
    Slice(sorted, (page - 1) * PageSize, page * PageSize)
  }

  /** Page `page` (1-based) is the window [(page-1)*10, min(page*10, n)) of the sorted list. */
  lemma {:induction false} PageWindow(sorted: seq<Job>, page: int)
    requires page >= 1
    ensures |Paginate(sorted, page)| <= PageSize
    ensures (page - 1) * PageSize >= |sorted| ==> Paginate(sorted, page) == []
    ensures (page - 1) * PageSize < |sorted| ==>
              Paginate(sorted, page) == sorted[(page - 1) * PageSize .. Min(page * PageSize, |sorted|)]
  {
    SliceWindow(sorted, (page - 1) * PageSize, page * PageSize);
  }

  /** How many pages a list of `n` jobs fills: ceil(n / 10). */
  function PageCount(n: nat): nat {
    (n + PageSize - 1) / PageSize
  }

  /** Pages 1..k, one after the other. */
  function Pages(sorted: seq<Job>, k: nat): seq<Job> {
    if k == 0 then [] else Pages(sorted, k - 1) + Paginate(sorted, k)
  }

  lemma {:induction false} PagesArePrefix(sorted: seq<Job>, k: nat)
    ensures Pages(sorted, k) == sorted[..Min(k * PageSize, |sorted|)]
  {
    if k > 0 {
      PagesArePrefix(sorted, k - 1);
      PageWindow(sorted, k);
      var lo, hi := Min((k - 1) * PageSize, |sorted|), Min(k * PageSize, |sorted|);
      assert sorted[..lo] + sorted[lo..hi] == sorted[..hi];
    }
  }

  /** Concatenating pages 1..ceil(n/10) gives back the sorted list, nothing lost or repeated. */
  lemma {:induction false} PagesReassemble(sorted: seq<Job>)
    ensures Pages(sorted, PageCount(|sorted|)) == sorted
  {
    PagesArePrefix(sorted, PageCount(|sorted|));
    assert PageCount(|sorted|) * PageSize >= |sorted|;
  }

  /** Every page before the last one holds exactly ten jobs. */
  lemma {:induction false} FullPages(sorted: seq<Job>, page: int)
    requires 1 <= page < PageCount(|sorted|)
    ensures |Paginate(sorted, page)| == PageSize
  {
    PageWindow(sorted, page);
    assert page * PageSize <= |sorted|;
  }

  /** 23 jobs fill three pages and the third holds three of them. */
  lemma {:induction false} TwentyThreeJobs(sorted: seq<Job>)
    requires |sorted| == 23
    ensures PageCount(|sorted|) == 3
    ensures |Paginate(sorted, 3)| == 3
  {
    PageWindow(sorted, 3);
  }
}
