/**
 * The job matcher (src/components/JobMatcher.jsx): a pasted job description
 * is checked, sent with the selected resume to the matcher, and the answer
 * is shown as a score ring, a label and three lists.
 */
module JobMatcher {
  import opened JsRuntime
  import opened Entities

  /** The result card's record. */
  datatype MatchResult = MatchResult(
    score: real,
    strongMatches: seq<string>,
    missing: seq<string>,
    suggestions: seq<string>)

  /** The initial record, also written back when a request fails. */
  const EmptyResult: MatchResult := MatchResult(0.0, [], [], [])

  /** The matcher's answer; the answer itself and each of its fields may be null or absent. */
  datatype MatchData = MatchData(
    score: Option<real>,
    strongMatches: Option<seq<string>>,
    missing: Option<seq<string>>,
    suggestions: Option<seq<string>>)

  const BlankDescription: string := "Please paste a job description"
  const NoResume: string := "Please select a resume first"
  const AnalysisFailed: string := "Failed to analyze job description"

  /**
   * The two checks `analyzeJob` makes before calling out, in order: a blank
   * description first, then a missing resume.  None means both pass.
   */
  function Validate(description: string, selected: Option<Resume>): (err: Option<string>)
    ensures err == Some(BlankDescription) <==> Trim(description) == []
    ensures err == Some(NoResume) <==> Trim(description) != [] && selected.None?
    ensures err.None? <==> Trim(description) != [] && selected.Some?
  {
    if Trim(description) == [] then Some(BlankDescription)
    else if selected.None? then Some(NoResume)
    else None
  }

  /**
   * A description is refused as blank exactly when every character of it is
   * white space, whether or not a resume is selected; an empty description
   * is blank.
   */
  lemma BlankMeansWhiteSpace(description: string, selected: Option<Resume>)
    ensures Validate(description, selected) == Some(BlankDescription) <==>
              forall i :: 0 <= i < |description| ==> IsWhiteSpace(description[i])
    ensures Validate("", selected) == Some(BlankDescription)
    ensures Validate(" \t\n", selected) == Some(BlankDescription)
  {
    TrimEmptyIffBlank(description);
    TrimEmptyIffBlank("");
    TrimEmptyIffBlank(" \t\n");
  }

  /** `matchData?.field ?? default`: a returned 0 or empty list is kept, only null or absent is replaced. */
  function ResultOf(data: Option<MatchData>): (r: MatchResult)
    ensures data.None? ==> r == EmptyResult
    ensures data.Some? ==>
              && r.score == data.value.score.GetOr(0.0)
              && r.strongMatches == data.value.strongMatches.GetOr([])
              && r.missing == data.value.missing.GetOr([])
              && r.suggestions == data.value.suggestions.GetOr([])
  {
    match data
    case None => EmptyResult
    case Some(d) =>
      MatchResult(d.score.GetOr(0.0), d.strongMatches.GetOr([]), d.missing.GetOr([]), d.suggestions.GetOr([]))
  }

  /** The answer that carries every field of a record. */
  function AnswerOf(r: MatchResult): MatchData {
    MatchData(Some(r.score), Some(r.strongMatches), Some(r.missing), Some(r.suggestions))
  }

  /**
   * `??` replaces only what is missing: an answer carrying every field is
   * stored exactly as sent, a returned 0 or empty list included; a null
   * answer and an answer without fields both give the empty record; and a
   * missing score defaults to 0 without touching the other fields.
   */
  lemma ResultRoundTrip(r: MatchResult, d: MatchData)
    ensures ResultOf(Some(AnswerOf(r))) == r
    ensures ResultOf(None) == ResultOf(Some(MatchData(None, None, None, None))) == EmptyResult
    ensures ResultOf(Some(d.(score := None))) == ResultOf(Some(d)).(score := 0.0)
    ensures ResultOf(Some(d.(strongMatches := None))) == ResultOf(Some(d)).(strongMatches := [])
  {
  }

  /** The results card is drawn when nothing is loading and the record holds a positive score or any entry. */
  predicate ResultsShown(loading: bool, r: MatchResult) {
    !loading && (r.score > 0.0 || |r.strongMatches| > 0 || |r.missing| > 0 || |r.suggestions| > 0)
  }

  /**
   * The initial and the reset record never show the card, and an answer
   * with no fields shows nothing either; an answer with a positive score does.
   */
  lemma EmptyResultsHidden(loading: bool, d: MatchData)
    ensures !ResultsShown(loading, EmptyResult)
    ensures !ResultsShown(loading, ResultOf(None))
    ensures !ResultsShown(loading, ResultOf(Some(MatchData(None, None, None, None))))
    ensures d.score.Some? && d.score.value > 0.0 ==> ResultsShown(false, ResultOf(Some(d)))
  {
  }

  // ---------------------------------------------------------------------------
  // Score bands (percentages)
  // ---------------------------------------------------------------------------

  /** 2 for 80 and up, 1 for [60, 80), 0 below 60. */
  function MatchBand(score: real): (b: nat)
    ensures b <= 2
    ensures b == 2 <==> score >= 80.0
    ensures b >= 1 <==> score >= 60.0
  {
    if score >= 80.0 then 2 else if score >= 60.0 then 1 else 0
  }

  /** `getScoreBadgeColor`, with the dark theme flag. */
  function ScoreBadgeColor(score: real, isDark: bool): string {
    if score >= 80.0 then (if isDark then "bg-green-900/30 text-green-400" else "bg-green-100 text-green-700")
    else if score >= 60.0 then (if isDark then "bg-yellow-900/30 text-yellow-400" else "bg-yellow-100 text-yellow-700")
    else if isDark then "bg-red-900/30 text-red-400" else "bg-red-100 text-red-700"
  }

  /** `getScoreTextColor`. */
  function ScoreTextColor(score: real): string {
    if score >= 80.0 then "text-green-500"
    else if score >= 60.0 then "text-yellow-500"
    else "text-red-500"
  }

  /** `getScoreRingColor`. */
  function ScoreRingColor(score: real): string {
    if score >= 80.0 then "stroke-green-500"
    else if score >= 60.0 then "stroke-yellow-500"
    else "stroke-red-500"
  }

  /** The label under the ring. */
  function MatchLabel(score: real): string {
    if score >= 80.0 then "Strong Match"
    else if score >= 60.0 then "Moderate Match"
    else "Needs Improvement"
  }

  /** Ring, figure, badge (in either theme) and label change together, at 80 and at 60. */
  lemma MatchHelpersAgree(s: real, t: real, isDark: bool)
    ensures ScoreRingColor(s) == ScoreRingColor(t) <==> MatchBand(s) == MatchBand(t)
    ensures ScoreTextColor(s) == ScoreTextColor(t) <==> MatchBand(s) == MatchBand(t)
    ensures ScoreBadgeColor(s, isDark) == ScoreBadgeColor(t, isDark) <==> MatchBand(s) == MatchBand(t)
    ensures MatchLabel(s) == MatchLabel(t) <==> MatchBand(s) == MatchBand(t)
  {
  }

  // ---------------------------------------------------------------------------
  // The page's state
  // ---------------------------------------------------------------------------

  class JobMatcherPage {
    var jobDescription: string
    var matchResult: MatchResult
    var loading: bool
    var error: Option<string>
    var isAnalyzing: bool
    var selectedResume: Option<Resume>

    constructor ()
      ensures jobDescription == "" && matchResult == EmptyResult
      ensures !loading && error == None && !isAnalyzing && selectedResume == None
    {
      jobDescription := "";
      matchResult := EmptyResult;
      loading, error, isAnalyzing := false, None, false;
      selectedResume := None;
    }

    /** The "Analyze Match" button: enabled exactly when nothing is loading and `analyzeJob` would pass its checks. */
    function AnalyzeEnabled(): (enabled: bool)
      reads this
      ensures enabled <==> !loading && Validate(jobDescription, selectedResume).None?
    {
      !(loading || selectedResume.None? || Trim(jobDescription) == [])
    }

    function ResultsVisible(): bool
      reads this
    {
      ResultsShown(loading, matchResult)
    }

    method SetJobDescription(text: string)
      modifies this`jobDescription
      ensures jobDescription == text
    {
      jobDescription := text;
    }

    /** A resume row: clicking the selected one deselects it, any other becomes the selection. */
    method ClickResume(r: Resume)
      modifies this`selectedResume
      ensures old(selectedResume).Some? && old(selectedResume).value.id == r.id ==> selectedResume == None
      ensures !(old(selectedResume).Some? && old(selectedResume).value.id == r.id) ==> selectedResume == Some(r)
    {
      if selectedResume.Some? && selectedResume.value.id == r.id {
        selectedResume := None;
        return;
      }
      selectedResume := Some(r);
    }

    /**
     * `analyzeJob`.  A failed check sets its message and returns before
     * any call, leaving loading, the analysing flag and the result alone.
     * Otherwise `call` is the (resume id, description) sent to the matcher;
     * the answer is stored with its defaults, or a failure sets the error
     * and resets the record; loading ends false on both paths and the
     * half-second timer that clears `isAnalyzing` is armed.
     */
    method AnalyzeJob(response: Outcome<Option<MatchData>>)
      returns (call: Option<(string, string)>, timerArmed: bool)
      modifies this`error, this`loading, this`isAnalyzing, this`matchResult
      ensures var err := Validate(old(jobDescription), old(selectedResume));
              err.Some? ==>
                && error == err && call == None && !timerArmed
                && loading == old(loading) && isAnalyzing == old(isAnalyzing) && matchResult == old(matchResult)
      ensures Validate(old(jobDescription), old(selectedResume)).None? ==>
                && call == Some((selectedResume.value.id, jobDescription))
                && !loading && isAnalyzing && timerArmed
      ensures Validate(old(jobDescription), old(selectedResume)).None? && response.Resolved? ==>
                error == None && matchResult == ResultOf(response.value)
      ensures Validate(old(jobDescription), old(selectedResume)).None? && response.Rejected? ==>
                error == Some(AnalysisFailed) && matchResult == EmptyResult && !ResultsVisible()
    {
      var invalid := Validate(jobDescription, selectedResume);
      if invalid.Some? {
        error := invalid;
        return None, false;
      }
      call, timerArmed := Request(response);
    }

    /**
     * The part of `analyzeJob` after both checks passed: loading and the
     * analysing flag go up and the error is cleared, the matcher is asked,
     * its answer or the reset record is stored, and `finally` ends loading
     * and arms the timer.
     */
    method Request(response: Outcome<Option<MatchData>>)
      returns (call: Option<(string, string)>, timerArmed: bool)
      requires selectedResume.Some?
      modifies this`error, this`loading, this`isAnalyzing, this`matchResult
      ensures call == Some((selectedResume.value.id, jobDescription))
      ensures !loading && isAnalyzing && timerArmed
      ensures response.Resolved? ==> error == None && matchResult == ResultOf(response.value)
      ensures response.Rejected? ==> error == Some(AnalysisFailed) && matchResult == EmptyResult
    {
      loading := true;
      isAnalyzing := true;
      error := None;

      call := Some((selectedResume.value.id, jobDescription));
      match response {
        case Resolved(data) =>
          matchResult := ResultOf(data);
        case Rejected =>
          error := Some(AnalysisFailed);
          matchResult := EmptyResult;
      }

      loading := false;
      timerArmed := true;
    }

    /** The timer armed by an analysis. */
    method AnalyzingTimerFires()
      modifies this`isAnalyzing
      ensures !isAnalyzing
    {
      isAnalyzing := false;
    }
  }
}
