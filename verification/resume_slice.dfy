/**
 * The `resume` store slice (src/store/resumeSlice.js): the user's resume
 * list and the last-known score and feedback lists.  Each reducer assigns
 * exactly one field.
 */
module ResumeSlice {
  import opened Entities

  /** The slice's state as a value, to compare two states. */
  datatype Fields = Fields(
    resumes: seq<Resume>,
    score: real,
    strengths: seq<string>,
    weaknesses: seq<string>,
    improvements: seq<string>)

  class ResumeState {
    var resumes: seq<Resume>
    var score: real
    var strengths: seq<string>
    var weaknesses: seq<string>
    var improvements: seq<string>

    function Value(): Fields
      reads this
    {
      Fields(resumes, score, strengths, weaknesses, improvements)
    }

    /** The initial state: no resumes, score 0, empty feedback lists. */
    constructor ()
      ensures Value() == Fields([], 0.0, [], [], [])
    {
      resumes, score := [], 0.0;
      strengths, weaknesses, improvements := [], [], [];
    }

    /** `setResumes`: the list is replaced wholesale, nothing merged. */
    method SetResumes(payload: seq<Resume>)
      modifies this`resumes
      ensures resumes == payload
    {
      resumes := payload;
    }

    method SetScore(payload: real)
      modifies this`score
      ensures score == payload
    {
      score := payload;
    }

    method SetStrengths(payload: seq<string>)
      modifies this`strengths
      ensures strengths == payload
    {
      strengths := payload;
    }

    method SetWeaknesses(payload: seq<string>)
      modifies this`weaknesses
      ensures weaknesses == payload
    {
      weaknesses := payload;
    }

    method SetImprovements(payload: seq<string>)
      modifies this`improvements
      ensures improvements == payload
    {
      improvements := payload;
    }
  }

  /** One action of the slice: which reducer runs, with its payload. */
  datatype Action =
    | Resumes(resumes: seq<Resume>)
    | Score(score: real)
    | Strengths(strengths: seq<string>)
    | Weaknesses(weaknesses: seq<string>)
    | Improvements(improvements: seq<string>)

  /** The state after the reducer for `a`: the payload replaces one field. */
  function Reduce(f: Fields, a: Action): Fields {
    match a
    case Resumes(x) => f.(resumes := x)
    case Score(x) => f.(score := x)
    case Strengths(x) => f.(strengths := x)
    case Weaknesses(x) => f.(weaknesses := x)
    case Improvements(x) => f.(improvements := x)
  }

  /** Whether two actions run the same reducer, so write the same field. */
  predicate SameField(a: Action, b: Action) {
    || (a.Resumes? && b.Resumes?) || (a.Score? && b.Score?) || (a.Strengths? && b.Strengths?)
    || (a.Weaknesses? && b.Weaknesses?) || (a.Improvements? && b.Improvements?)
  }

  /** Any two reducers on different fields give the same state in either order. */
  lemma ReduceCommutes(f: Fields, a: Action, b: Action)
    requires !SameField(a, b)
    ensures Reduce(Reduce(f, a), b) == Reduce(Reduce(f, b), a)
  {
  }

  /**
   * Every reducer ignores the previous value of its field: running it twice
   * is running it once, and after a second action on the same field only
   * the second payload is left.
   */
  lemma ReduceOverwrites(f: Fields, a: Action, b: Action)
    ensures Reduce(Reduce(f, a), a) == Reduce(f, a)
    ensures SameField(a, b) ==> Reduce(Reduce(f, a), b) == Reduce(f, b)
  {
  }

  /** Dispatches `a` to its setter. */
  method Dispatch(st: ResumeState, a: Action)
    modifies st
    ensures st.Value() == Reduce(old(st.Value()), a)
  {
    match a {
      case Resumes(x) => st.SetResumes(x);
      case Score(x) => st.SetScore(x);
      case Strengths(x) => st.SetStrengths(x);
      case Weaknesses(x) => st.SetWeaknesses(x);
      case Improvements(x) => st.SetImprovements(x);
    }
  }

  /** Dispatching the same action twice leaves what dispatching it once leaves. */
  method DispatchTwice(st: ResumeState, a: Action)
    modifies st
    ensures st.Value() == Reduce(old(st.Value()), a)
  {
    ghost var f := st.Value();
    Dispatch(st, a);
    Dispatch(st, a);
    ReduceOverwrites(f, a, a);
  }

  /** Two equal stores stay equal when two actions on different fields run in opposite orders. */
  method SettersCommute(s1: ResumeState, s2: ResumeState, a: Action, b: Action)
    requires s1 != s2 && s1.Value() == s2.Value() && !SameField(a, b)
    modifies s1, s2
    ensures s1.Value() == s2.Value() == Reduce(Reduce(old(s1.Value()), a), b)
  {
    ghost var f := s1.Value();
    Dispatch(s1, a);
    Dispatch(s1, b);
    Dispatch(s2, b);
    Dispatch(s2, a);
    ReduceCommutes(f, a, b);
  }
}
