/**
 * Records the views exchange with the back end and with the store.
 */
module Entities {
  import opened JsRuntime

  /** One matched job as the matcher returns it; immutable once received. */
  datatype Job = Job(
    title: string,
    company: string,
    location: string,
    description: string,
    applyLink: string,
    score: real,
    strengths: seq<string>,
    missing: seq<string>)

  /** The `resume_feedback` object of a stored resume; any list may be absent. */
  datatype Feedback = Feedback(
    strengths: Option<seq<string>>,
    weaknesses: Option<seq<string>>,
    improvements: Option<seq<string>>)

  /** A stored resume as the resume list returns it. */
  datatype Resume = Resume(
    id: string,
    name: string,
    createdAt: string,
    resumeScore: Option<real>,
    resumeFeedback: Option<Feedback>)

  /** The flattened record a resume card builds when it is clicked. */
  datatype SelectedResume = SelectedResume(
    id: string,
    name: string,
    score: real,
    strengths: seq<string>,
    weaknesses: seq<string>,
    improvements: seq<string>)

  /** `resume_feedback?.<field> || []`. */
  function FeedbackList(f: Option<Feedback>, field: Feedback -> Option<seq<string>>): (r: seq<string>)
    ensures f.Some? && field(f.value).Some? ==> r == field(f.value).value
    ensures f.None? || field(f.value).None? ==> r == []
  {
    match f
    case Some(fb) => OrEmpty(field(fb))
    case None => []
  }

  /**
   * The record both resume pickers build on selection: score
   * `resume_score || 0` (an absent score and a score of 0 both give 0) and
   * each feedback list defaulting to the empty list.
   */
  function SelectionOf(r: Resume): (sel: SelectedResume)
    ensures sel.id == r.id && sel.name == r.name
    ensures sel.score == if r.resumeScore.Some? then r.resumeScore.value else 0.0
    ensures r.resumeFeedback.None? ==> sel.strengths == sel.weaknesses == sel.improvements == []
    ensures r.resumeFeedback.Some? ==>
              && sel.strengths == OrEmpty(r.resumeFeedback.value.strengths)
              && sel.weaknesses == OrEmpty(r.resumeFeedback.value.weaknesses)
              && sel.improvements == OrEmpty(r.resumeFeedback.value.improvements)
  {
    SelectedResume(
      r.id,
      r.name,
      r.resumeScore.GetOr(0.0),
      FeedbackList(r.resumeFeedback, (fb: Feedback) => fb.strengths),
      FeedbackList(r.resumeFeedback, (fb: Feedback) => fb.weaknesses),
      FeedbackList(r.resumeFeedback, (fb: Feedback) => fb.improvements))
  }

  /**
   * What the selection keeps and what it defaults: an absent score and a
   * stored 0 both give 0; absent feedback and feedback with every list
   * absent give the same record; the upload date plays no part; and a
   * resume whose fields are all present gives back exactly those fields.
   */
  lemma SelectionDefaults(r: Resume, createdAt: string, sel: SelectedResume)
    ensures SelectionOf(r.(resumeScore := None)).score == SelectionOf(r.(resumeScore := Some(0.0))).score == 0.0
    ensures SelectionOf(r.(resumeFeedback := None)) == SelectionOf(r.(resumeFeedback := Some(Feedback(None, None, None))))
    ensures SelectionOf(r.(createdAt := createdAt)) == SelectionOf(r)
    ensures SelectionOf(Resume(sel.id, sel.name, createdAt, Some(sel.score),
              Some(Feedback(Some(sel.strengths), Some(sel.weaknesses), Some(sel.improvements))))) == sel
  {
  }
}
