/**
 * The `jobMatched` store slice (src/store/jobMatched.js): the matched-job
 * list of the last "Find Jobs" request.
 */
module JobMatchedSlice {
  import opened JsRuntime
  import opened Entities

  class JobMatchedState {
    var matchedJobs: seq<Job>

    /** The initial state: no matched jobs. */
    constructor ()
      ensures matchedJobs == []
    {
      matchedJobs := [];
    }

    /** `setJobMatched`: replaces the list wholesale with `action.payload || []`, whatever it held before. */
    method SetJobMatched(payload: Option<seq<Job>>)
      modifies this
      ensures matchedJobs == OrEmpty(payload)
    {
      matchedJobs := OrEmpty(payload);
    }
  }

  /** Dispatching the same payload twice leaves what dispatching it once leaves. */
  method SetJobMatchedTwice(st: JobMatchedState, payload: Option<seq<Job>>)
    modifies st
    ensures st.matchedJobs == OrEmpty(payload)
  {
    st.SetJobMatched(payload);
    ghost var once := st.matchedJobs;
    st.SetJobMatched(payload);
    assert st.matchedJobs == once;
  }
}
