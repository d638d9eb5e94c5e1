/**
 * Summary statistics of the match-results view, always over the
 * unfiltered list (src/components/Application.jsx, lines 144-159): the
 * total, the high-match count, the score sum, and the top-five tally of
 * strength strings.
 */
module MatchStats {
  import opened JsRuntime
  import opened Entities
  import opened StableSort
  import MatchView

  // ---------------------------------------------------------------------------
  // Specification functions
  // ---------------------------------------------------------------------------

  /** Every strength of every job, job after job, repeats included. */
  function AllStrengths(jobs: seq<Job>): (r: seq<string>)
    ensures forall s :: s in r <==> exists j :: j in jobs && s in j.strengths
  {
    if jobs == [] then []
    else
      var init := jobs[..|jobs| - 1];
      assert forall j :: j in jobs <==> j in init || j == jobs[|jobs| - 1];
      AllStrengths(init) + jobs[|jobs| - 1].strengths
  }

  /** `reduce((acc, job) => acc + job.score, 0)`; the division by the length is not modelled. */
  function ScoreSum(jobs: seq<Job>): real {
    if jobs == [] then 0.0 else ScoreSum(jobs[..|jobs| - 1]) + jobs[|jobs| - 1].score
  }

  /** Position of the first occurrence of `x` in `s`. */
  function FirstIndex(s: seq<string>, x: string): (k: nat)
    requires x in s
    ensures k < |s| && s[k] == x && x !in s[..k]
  {
    if s[0] == x then 0 else 1 + FirstIndex(s[1..], x)
  }

  lemma {:induction false} FirstIndexExtend(s: seq<string>, y: string, x: string)
    requires x in s
    ensures FirstIndex(s + [y], x) == FirstIndex(s, x)
  {
    if s[0] != x {
      assert (s + [y])[1..] == s[1..] + [y];
      FirstIndexExtend(s[1..], y, x);
    }
  }

  lemma FirstIndexLast(s: seq<string>, y: string)
    requires y !in s
    ensures FirstIndex(s + [y], y) == |s|
  {
  }

  /**
   * The distinct strings of `s` in order of first occurrence: the key order
   * of the tally object, whose keys are added as they are first met.
   */
  function FirstSeen(s: seq<string>): (r: seq<string>)
    ensures forall x :: x in r <==> x in s
  {
    if s == [] then []
    else
      var init, last := s[..|s| - 1], s[|s| - 1];
      assert s == init + [last];
      if last in init then FirstSeen(init) else FirstSeen(init) + [last]
  }

  /** Each string appears once, and in the order of its first occurrence in `s`. */
  lemma {:induction false} FirstSeenOrdered(s: seq<string>)
    ensures forall i, j :: 0 <= i < j < |FirstSeen(s)| ==> FirstSeen(s)[i] != FirstSeen(s)[j]
    ensures forall i, j :: 0 <= i < j < |FirstSeen(s)| ==> FirstIndex(s, FirstSeen(s)[i]) < FirstIndex(s, FirstSeen(s)[j])
  {
    if s != [] {
      var init, last := s[..|s| - 1], s[|s| - 1];
      var p, r := FirstSeen(init), FirstSeen(s);
      FirstSeenOrdered(init);
      assert s == init + [last];
      assert r == if last in init then p else p + [last];
      forall i, j | 0 <= i < j < |r|
        ensures r[i] != r[j] && FirstIndex(s, r[i]) < FirstIndex(s, r[j])
      {
        assert r[i] == p[i] && p[i] in init;
        FirstIndexExtend(init, last, p[i]);
        if j < |p| {
          assert r[j] == p[j] && p[j] in init;
          FirstIndexExtend(init, last, p[j]);
        } else {
          assert r[j] == last && last !in init;
          FirstIndexLast(init, last);
        }
      }
    }
  }

  /** How often each strength occurs: the tally object as a map. */
  function SkillTally(flat: seq<string>): (m: map<string, nat>)
    ensures forall s :: s in m <==> s in flat
    ensures forall s :: s in m ==> m[s] == multiset(flat)[s]
  {
    map s | s in flat :: multiset(flat)[s]
  }

  /** How often `s` occurs among the strengths of `jobs`, summed job by job. */
  function Occurrences(jobs: seq<Job>, s: string): nat {
    if jobs == [] then 0 else Occurrences(jobs[..|jobs| - 1], s) + multiset(jobs[|jobs| - 1].strengths)[s]
  }

  lemma {:induction false} AllStrengthsCount(jobs: seq<Job>, s: string)
    ensures multiset(AllStrengths(jobs))[s] == Occurrences(jobs, s)
  {
    if jobs != [] {
      var init := jobs[..|jobs| - 1];
      AllStrengthsCount(init, s);
      assert AllStrengths(jobs) == AllStrengths(init) + jobs[|jobs| - 1].strengths;
    }
  }

  /**
   * The tally has a key for a skill exactly when some job lists it, and
   * its count is the sum over the jobs of how often each lists it, repeats
   * within one job included.
   */
  lemma {:induction false} TallyCountsEveryOccurrence(jobs: seq<Job>, s: string)
    ensures s in SkillTally(AllStrengths(jobs)) <==> Occurrences(jobs, s) > 0
    ensures s in SkillTally(AllStrengths(jobs)) ==> SkillTally(AllStrengths(jobs))[s] == Occurrences(jobs, s)
  {
    AllStrengthsCount(jobs, s);
  }

  /** A job that lists "React" twice, and no other job, gives "React" a tally of 2. */
  lemma {:induction false} RepeatedStrengthCountsTwice(j: Job)
    requires j.strengths == ["React", "React"]
    ensures SkillTally(AllStrengths([j]))["React"] == 2
  {
    TallyCountsEveryOccurrence([j], "React");
    assert [j][..0] == [];
    assert multiset(j.strengths)["React"] == 2;
  }

  // ---------------------------------------------------------------------------
  // The imperative tally
  // ---------------------------------------------------------------------------

  /** The tally object so far agrees with the strengths seen so far. */
  ghost predicate TallyOf(order: seq<string>, count: map<string, nat>, seen: seq<string>) {
    && order == FirstSeen(seen)
    && (forall s :: s in count <==> s in seen)
    && (forall s :: s in count ==> count[s] == multiset(seen)[s])
  }

  /** Appending one string to `s` extends its first-seen order only if the string is new. */
  lemma {:induction false} FirstSeenAppend(s: seq<string>, x: string)
    ensures FirstSeen(s + [x]) == if x in s then FirstSeen(s) else FirstSeen(s) + [x]
  {
    assert (s + [x])[..|s|] == s;
  }

  /** The count map after `acc[skill] = (acc[skill] || 0) + 1`. */
  function Bumped(count: map<string, nat>, skill: string): map<string, nat> {
    if skill in count then count[skill := count[skill] + 1] else count[skill := 1]
  }

  lemma {:induction false} CountStep(count: map<string, nat>, seen: seq<string>, skill: string)
    requires forall s :: s in count <==> s in seen
    requires forall s :: s in count ==> count[s] == multiset(seen)[s]
    ensures forall s :: s in Bumped(count, skill) <==> s in seen + [skill]
    ensures forall s :: s in Bumped(count, skill) ==> Bumped(count, skill)[s] == multiset(seen + [skill])[s]
  {
    var seen', count' := seen + [skill], Bumped(count, skill);
    assert multiset(seen') == multiset(seen) + multiset{skill};
    forall s | s in count' ensures count'[s] == multiset(seen')[s] {
      if s != skill {
        assert count'[s] == count[s];
      }
    }
    forall s ensures s in count' <==> s in seen' {
      assert s in seen' <==> s in seen || s == skill;
    }
  }

  /** One `acc[skill] = (acc[skill] || 0) + 1` keeps the tally in step. */
  lemma {:induction false} TallyStep(order: seq<string>, count: map<string, nat>, seen: seq<string>, skill: string)
    requires TallyOf(order, count, seen)
    ensures TallyOf(if skill in count then order else order + [skill], Bumped(count, skill), seen + [skill])
  {
    assert (if skill in count then order else order + [skill]) == FirstSeen(seen + [skill]) by {
      assert skill in count <==> skill in seen;
      FirstSeenAppend(seen, skill);
    }
    CountStep(count, seen, skill);
  }

  /** The `stats` object, with the score sum in place of the average. */
  datatype Stats = Stats(
    total: nat,
    highMatch: nat,
    scoreSum: real,
    skillOrder: seq<string>,
    skillCount: map<string, nat>)

  lemma TallyIsSkillTally(order: seq<string>, count: map<string, nat>, seen: seq<string>)
    requires TallyOf(order, count, seen)
    ensures count == SkillTally(seen)
  {
  }

  lemma PrefixExtend(seen0: seq<string>, s: seq<string>, k: nat)
    requires k < |s|
    ensures seen0 + s[..k + 1] == (seen0 + s[..k]) + [s[k]]
  {
    assert s[..k + 1] == s[..k] + [s[k]];
  }

  /** The `job.strengths.forEach(...)` callback: tallies one job's strengths. */
  method TallyStrengths(order0: seq<string>, count0: map<string, nat>, ghost seen0: seq<string>, skills: seq<string>)
    returns (order: seq<string>, count: map<string, nat>)
    requires TallyOf(order0, count0, seen0)
    ensures TallyOf(order, count, seen0 + skills)
  {
    order, count := order0, count0;
    var k := 0;
    ghost var seen := seen0;
    assert skills[..0] == [];
    while k < |skills|
      invariant 0 <= k <= |skills|
      invariant seen == seen0 + skills[..k]
      invariant TallyOf(order, count, seen)
    {
      var skill := skills[k];
      TallyStep(order, count, seen, skill);
      if skill !in count {
        order := order + [skill];
        count := count[skill := 1];
      } else {
        count := count[skill := count[skill] + 1];
      }
      seen := seen + [skill];
      PrefixExtend(seen0, skills, k);
      k := k + 1;
    }
    assert skills[..k] == skills;
  }

  /**
   * Builds `stats`: the tally walks every job's strengths, adding a key on
   * first sight and incrementing it on every occurrence.
   */
  method ComputeStats(jobs: seq<Job>) returns (stats: Stats)
    ensures stats.total == |jobs|
    ensures stats.highMatch == |MatchView.FilterJobs(jobs, "high")| <= stats.total
    ensures stats.scoreSum == ScoreSum(jobs)
    ensures stats.skillOrder == FirstSeen(AllStrengths(jobs))
    ensures stats.skillCount == SkillTally(AllStrengths(jobs))
  {
    var order: seq<string> := [];
    var count: map<string, nat> := map[];
    var i := 0;
    while i < |jobs|
      invariant 0 <= i <= |jobs|
      invariant TallyOf(order, count, AllStrengths(jobs[..i]))
    {
      assert jobs[..i + 1][..i] == jobs[..i];
      assert AllStrengths(jobs[..i + 1]) == AllStrengths(jobs[..i]) + jobs[i].strengths;
      order, count := TallyStrengths(order, count, AllStrengths(jobs[..i]), jobs[i].strengths);
      i := i + 1;
    }
    assert jobs[..i] == jobs;
    TallyIsSkillTally(order, count, AllStrengths(jobs));
    stats := Stats(|jobs|, |MatchView.FilterJobs(jobs, "high")|, ScoreSum(jobs), order, count);
  }

  // ---------------------------------------------------------------------------
  // Ranking the tally
  // ---------------------------------------------------------------------------

  type Entry = (string, nat)

  /** `Object.entries(tally)`: the pairs in key order. */
  function Entries(order: seq<string>, count: map<string, nat>): (es: seq<Entry>)
    requires forall s :: s in order ==> s in count
    ensures |es| == |order|
    ensures forall i :: 0 <= i < |order| ==> es[i] == (order[i], count[order[i]])
  {
    seq(|order|, i requires 0 <= i < |order| => (order[i], count[order[i]]))
  }

  /** `(a, b) => b[1] - a[1]`. */
  function CountComparator(): (Entry, Entry) -> real {
    (a: Entry, b: Entry) => (b.1 as real) - (a.1 as real)
  }

  /** The comparator orders by descending count: ascending negated count. */
  function CountKey(): Entry -> real {
    (e: Entry) => -(e.1 as real)
  }

  function Names(es: seq<Entry>): (r: seq<string>)
    ensures |r| == |es| && forall i :: 0 <= i < |es| ==> r[i] == es[i].0
  {
    seq(|es|, i requires 0 <= i < |es| => es[i].0)
  }

  /** `Object.entries` followed by taking each pair's name gives back the key order. */
  lemma NamesOfEntries(order: seq<string>, count: map<string, nat>)
    requires forall s :: s in order ==> s in count
    ensures Names(Entries(order, count)) == order
  {
  }

  /** `Object.entries(...).sort(...).slice(0, 5).map(([skill]) => skill)`. */
  function TopSkills(order: seq<string>, count: map<string, nat>): seq<string>
    requires forall s :: s in order ==> s in count
  {
    Names(Slice(Sort(Entries(order, count), CountComparator()), 0, 5))
  }

  /** The top skills of a job list, from the tally over all its strengths. */
  function TopSkillsOf(jobs: seq<Job>): seq<string> {
    var flat := AllStrengths(jobs);
    TopSkills(FirstSeen(flat), SkillTally(flat))
  }

  /** The names in `s` whose tally in `flat` is `c`, in their order in `s`. */
  function WithTally(s: seq<string>, flat: seq<string>, c: nat): seq<string> {
    if s == [] then []
    else (if multiset(flat)[s[0]] == c then [s[0]] else []) + WithTally(s[1..], flat, c)
  }

  /** Every entry carries the true tally of its name. */
  ghost predicate TrueTallies(es: seq<Entry>, flat: seq<string>) {
    forall i :: 0 <= i < |es| ==> es[i].1 == multiset(flat)[es[i].0]
  }

  lemma {:induction false} NamesOfClass(es: seq<Entry>, flat: seq<string>, c: nat)
    requires TrueTallies(es, flat)
    ensures Names(KeyClass(es, CountKey(), -(c as real))) == WithTally(Names(es), flat, c)
  {
    if es != [] {
      assert TrueTallies(es[1..], flat) by {
        forall i | 0 <= i < |es[1..]| ensures es[1..][i].1 == multiset(flat)[es[1..][i].0] {
          assert es[1..][i] == es[i + 1];
        }
      }
      NamesOfClass(es[1..], flat, c);
      assert Names(es)[1..] == Names(es[1..]);
      var h := if CountKey()(es[0]) == -(c as real) then [es[0]] else [];
      assert Names(h + KeyClass(es[1..], CountKey(), -(c as real)))
          == Names(h) + Names(KeyClass(es[1..], CountKey(), -(c as real)));
    }
  }

  lemma {:induction false} WithTallyPrefix(a: seq<string>, b: seq<string>, flat: seq<string>, c: nat)
    requires a <= b
    ensures WithTally(a, flat, c) <= WithTally(b, flat, c)
  {
    if a != [] {
      assert a[1..] <= b[1..];
      WithTallyPrefix(a[1..], b[1..], flat, c);
    }
  }

  lemma {:induction false} KeyClassOfPrefix<T>(s: seq<T>, m: nat, key: T -> real, v: real)
    requires m <= |s|
    ensures KeyClass(s[..m], key, v) <= KeyClass(s, key, v)
  {
    assert s == s[..m] + s[m..];
    KeyClassConcat(s[..m], s[m..], key, v);
  }

  /** The pieces the top-skill lemmas share: the sorted entries and the cut. */
  lemma {:induction false} TopSkillsFacts(jobs: seq<Job>) returns (es: seq<Entry>, sorted: seq<Entry>, m: nat)
    ensures var flat := AllStrengths(jobs);
            && es == Entries(FirstSeen(flat), SkillTally(flat))
            && sorted == Sort(es, CountComparator())
            && m == Min(5, |sorted|)
            && TopSkillsOf(jobs) == Names(sorted[..m])
            && multiset(sorted) == multiset(es)
            && |sorted| == |es|
            && SortedBy(sorted, CountKey())
            && TrueTallies(es, flat) && TrueTallies(sorted, flat)
            && Names(es) == FirstSeen(flat)
  {
    var flat := AllStrengths(jobs);
    var order := FirstSeen(flat);
    es := Entries(order, SkillTally(flat));
    sorted := Sort(es, CountComparator());
    m := Min(5, |sorted|);
    SortPermutes(es, CountComparator());
    assert Consistent(CountComparator(), CountKey());
    SortSorted(es, CountComparator(), CountKey());
    SliceWindow(sorted, 0, 5);
    forall i | 0 <= i < |sorted| ensures sorted[i].1 == multiset(flat)[sorted[i].0] {
      assert sorted[i] in multiset(es);
      var k :| 0 <= k < |es| && es[k] == sorted[i];
    }
  }

  // ---------------------------------------------------------------------------
  // Properties of topSkills
  // ---------------------------------------------------------------------------

  /** At most five skills, each a strength of some matched job. */
  lemma {:induction false} TopSkillsBounded(jobs: seq<Job>)
    ensures |TopSkillsOf(jobs)| <= 5
    ensures forall s :: s in TopSkillsOf(jobs) ==> exists j :: j in jobs && s in j.strengths
  {
    var es, sorted, m := TopSkillsFacts(jobs);
    var flat := AllStrengths(jobs);
    forall s | s in TopSkillsOf(jobs) ensures s in flat {
      var i :| 0 <= i < m && Names(sorted[..m])[i] == s;
      assert sorted[i] in multiset(es);
      var k :| 0 <= k < |es| && es[k] == sorted[i];
      assert s == Names(es)[k];
    }
  }

  /** Tallies never increase along the result; each counts every occurrence, repeats included. */
  lemma {:induction false} TopSkillsNonIncreasing(jobs: seq<Job>)
    ensures var top, flat := TopSkillsOf(jobs), AllStrengths(jobs);
            forall i, j :: 0 <= i < j < |top| ==> multiset(flat)[top[i]] >= multiset(flat)[top[j]]
  {
    var es, sorted, m := TopSkillsFacts(jobs);
    var flat := AllStrengths(jobs);
    var top := TopSkillsOf(jobs);
    forall i, j | 0 <= i < j < |top| ensures multiset(flat)[top[i]] >= multiset(flat)[top[j]] {
      assert top[i] == sorted[i].0 && top[j] == sorted[j].0;
      assert CountKey()(sorted[i]) <= CountKey()(sorted[j]);
    }
  }

  /** The cut of a stable sort keeps, for each tally, a prefix of the input's skills with that tally. */
  lemma {:induction false} TiesBeforeCut(es: seq<Entry>, sorted: seq<Entry>, m: nat, flat: seq<string>, c: nat)
    requires sorted == Sort(es, CountComparator()) && m <= |sorted|
    requires TrueTallies(es, flat) && TrueTallies(sorted, flat)
    ensures WithTally(Names(sorted[..m]), flat, c) <= WithTally(Names(es), flat, c)
  {
    var v := -(c as real);
    var kept := sorted[..m];
    assert TrueTallies(kept, flat) by {
      forall i | 0 <= i < m ensures kept[i].1 == multiset(flat)[kept[i].0] {
        assert kept[i] == sorted[i];
      }
    }
    NamesOfClass(kept, flat, c);
    assert Names(KeyClass(kept, CountKey(), v)) <= Names(KeyClass(sorted, CountKey(), v)) by {
      KeyClassOfPrefix(sorted, m, CountKey(), v);
      NamesPrefix(KeyClass(kept, CountKey(), v), KeyClass(sorted, CountKey(), v));
    }
    assert KeyClass(sorted, CountKey(), v) == KeyClass(es, CountKey(), v) by {
      assert Consistent(CountComparator(), CountKey());
      SortStable(es, CountComparator(), CountKey(), v);
    }
    NamesOfClass(es, flat, c);
  }

  /**
   * Ties fall in first-seen order: for each tally value, the chosen skills
   * with that tally are the first ones, in first-seen order, among all
   * skills with that tally.
   */
  lemma {:induction false} TopSkillsTiesFirstSeen(jobs: seq<Job>, c: nat)
    ensures var flat := AllStrengths(jobs);
            WithTally(TopSkillsOf(jobs), flat, c) <= WithTally(FirstSeen(flat), flat, c)
  {
    var es, sorted, m := TopSkillsFacts(jobs);
    TiesBeforeCut(es, sorted, m, AllStrengths(jobs), c);
  }

  lemma {:induction false} NamesPrefix(a: seq<Entry>, b: seq<Entry>)
    requires a <= b
    ensures Names(a) <= Names(b)
  {
    assert Names(a) == Names(b)[..|a|];
  }

  lemma {:induction false} OmittedBelowCut(es: seq<Entry>, sorted: seq<Entry>, m: nat, flat: seq<string>, s: string)
    requires multiset(sorted) == multiset(es)
    requires SortedBy(sorted, CountKey())
    requires m == Min(5, |sorted|)
    requires TrueTallies(sorted, flat)
    requires (s, multiset(flat)[s]) in es
    requires s !in Names(sorted[..m])
    ensures m == 5 && multiset(flat)[s] <= sorted[4].1
  {
    assert (s, multiset(flat)[s]) in multiset(sorted);
    var p :| 0 <= p < |sorted| && sorted[p] == (s, multiset(flat)[s]);
    if p < m {
      assert false;
    }
    assert CountKey()(sorted[4]) <= CountKey()(sorted[p]);
  }

  /** A skill left out exists only when five were kept, and none kept has a lower tally. */
  lemma {:induction false} TopSkillsOmittedNoHigher(jobs: seq<Job>, s: string)
    requires s in AllStrengths(jobs) && s !in TopSkillsOf(jobs)
    ensures |TopSkillsOf(jobs)| == 5
    ensures multiset(AllStrengths(jobs))[s] <= multiset(AllStrengths(jobs))[TopSkillsOf(jobs)[4]]
  {
    var es, sorted, m := TopSkillsFacts(jobs);
    var flat := AllStrengths(jobs);
    var k := FirstIndex(FirstSeen(flat), s);
    assert es[k] == (s, multiset(flat)[s]);
    OmittedBelowCut(es, sorted, m, flat, s);
    assert TopSkillsOf(jobs)[4] == sorted[4].0;
  }
}
