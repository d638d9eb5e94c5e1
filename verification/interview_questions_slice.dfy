/**
 * The `interviewQuestions` store slice (src/store/interviewQuestionsSlice.js):
 * generated questions and the job they belong to.  Each reducer assigns
 * exactly one field.  The reducer stores whatever question records it is
 * given, so their type `Q` is a parameter.
 */
module InterviewQuestionsSlice {

  datatype Fields<Q> = Fields(questions: seq<Q>, jobId: string, jobTitle: string)

  class InterviewQuestionsState<Q> {
    var questions: seq<Q>
    var jobId: string
    var jobTitle: string

    function Value(): Fields<Q>
      reads this
    {
      Fields(questions, jobId, jobTitle)
    }

    /** The initial state: no questions, empty job id and title. */
    constructor ()
      ensures Value() == Fields([], "", "")
    {
      questions, jobId, jobTitle := [], "", "";
    }

    method SetQuestions(payload: seq<Q>)
      modifies this`questions
      ensures questions == payload
    {
      questions := payload;
    }

    method SetJobId(payload: string)
      modifies this`jobId
      ensures jobId == payload
    {
      jobId := payload;
    }

    method SetJobTitle(payload: string)
      modifies this`jobTitle
      ensures jobTitle == payload
    {
      jobTitle := payload;
    }
  }

  /** The three setters touch disjoint fields, so two equal states stay equal in either order. */
  method SettersCommute<Q>(a: InterviewQuestionsState<Q>, b: InterviewQuestionsState<Q>,
                           questions: seq<Q>, jobId: string, jobTitle: string)
    requires a != b && a.Value() == b.Value()
    modifies a, b
    ensures a.Value() == b.Value() == Fields(questions, jobId, jobTitle)
  {
    a.SetQuestions(questions);
    a.SetJobId(jobId);
    a.SetJobTitle(jobTitle);
    b.SetJobTitle(jobTitle);
    b.SetJobId(jobId);
    b.SetQuestions(questions);
  }
}
