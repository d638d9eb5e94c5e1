/**
 * The small part of the JavaScript runtime the front end leans on:
 * nullable values, awaited remote calls, `Array.prototype.slice`
 * and `String.prototype.trim`.
 */
module JsRuntime {

  /** A value that may be `null` or `undefined` (both are `None` here). */
  datatype Option<+T> = None | Some(value: T) {
    /** `x ?? d` and, for values that are never falsy, `x || d`. */
    function GetOr(default: T): T {
      match this
      case Some(v) => v
      case None => default
    }
  }

  /** What an awaited remote call yields: a resolved value, or a rejection (a throw at the `await`). */
  datatype Outcome<+T> = Resolved(value: T) | Rejected

  /** `list || []` on a list that may be absent: an array is truthy even when empty, so only absence gives []. */
  function OrEmpty<T>(l: Option<seq<T>>): (r: seq<T>)
    ensures l.Some? ==> r == l.value
    ensures l.None? ==> r == []
  {
    l.GetOr([])
  }

  /**
   * Normalising is idempotent, and it gives the empty list only for an
   * absent or an empty list: a present list is never replaced.
   */
  lemma OrEmptyNormalises<T>(l: Option<seq<T>>)
    ensures OrEmpty(Some(OrEmpty(l))) == OrEmpty(l)
    ensures OrEmpty(l) == [] <==> l == None || l == Some([])
  {
  }

  // ---------------------------------------------------------------------------
  // Array.prototype.slice(start, end)
  // ---------------------------------------------------------------------------

  /** Normalises a relative index: negative counts from the end, then clamp to [0, len]. */
  function Clamp(rel: int, len: nat): (k: nat)
    ensures k <= len
    ensures 0 <= rel ==> k == if rel < len then rel else len
    ensures rel < 0 ==> k == if len + rel < 0 then 0 else len + rel
  {
    if rel < 0 then (if len + rel < 0 then 0 else len + rel)
    else if rel < len then rel
    else len
  }

  /** `s.slice(start, end)`: a fresh sequence, the source is not changed. */
  function Slice<T>(s: seq<T>, start: int, end: int): seq<T>
  {
    var from, to := Clamp(start, |s|), Clamp(end, |s|);
    if from < to then s[from..to] else []
  }

  function Min(a: int, b: int): int { if a < b then a else b }

  /**
   * A negative start counts back from the end: `s.slice(-k, n)` is the last
   * `k` elements, and a start before the beginning gives the whole list
   * (`-0` is `0`, so `k` is positive here).
   */
  lemma SliceFromEnd<T>(s: seq<T>, k: int)
    requires 0 < k
    ensures k <= |s| ==> Slice(s, -k, |s|) == s[|s| - k..]
    ensures k > |s| ==> Slice(s, -k, |s|) == s
  {
  }

  /** Whatever the bounds, a slice is a contiguous window of the list and never fails. */
  lemma {:induction false} SliceIsWindow<T>(s: seq<T>, start: int, end: int)
    ensures exists lo, hi :: 0 <= lo <= hi <= |s| && Slice(s, start, end) == s[lo..hi]
  {
    var from, to := Clamp(start, |s|), Clamp(end, |s|);
    if from < to {
      assert Slice(s, start, end) == s[from..to];
    } else {
      assert Slice(s, start, end) == s[from..from];
    }
  }

  /** With non-negative bounds, a slice is the window [start, end) cut at the length. */
  lemma SliceWindow<T>(s: seq<T>, start: int, end: int)
    requires 0 <= start && 0 <= end
    ensures var from, to := Min(start, |s|), Min(end, |s|);
            Slice(s, start, end) == if from < to then s[from..to] else []
    ensures |Slice(s, start, end)| <= if end - start < 0 then 0 else end - start
  {
  }

  // ---------------------------------------------------------------------------
  // String.prototype.trim
  // ---------------------------------------------------------------------------

  /** WhiteSpace and LineTerminator code points of ECMA-262: what `trim` strips. */
  predicate IsWhiteSpace(c: char) {
    || c == '\t' || c == '\U{000B}' || c == '\U{000C}' || c == ' '
    || c == '\U{00A0}' || c == '\U{FEFF}'
    || c == '\n' || c == '\r' || c == '\U{2028}' || c == '\U{2029}'
    // the remaining Unicode "Space_Separator" code points
    || c == '\U{1680}' || ('\U{2000}' <= c <= '\U{200A}')
    || c == '\U{202F}' || c == '\U{205F}' || c == '\U{3000}'
  }

  /** Drops leading white space; the result is a suffix of `s`. */
  function TrimStart(s: string): (r: string)
    ensures |r| <= |s| && r == s[|s| - |r|..]
    ensures r == [] || !IsWhiteSpace(r[0])
    ensures forall i :: 0 <= i < |s| - |r| ==> IsWhiteSpace(s[i])
  {
    if s != [] && IsWhiteSpace(s[0]) then TrimStart(s[1..]) else s
  }

  /** Drops trailing white space; the result is a prefix of `s`. */
  function TrimEnd(s: string): (r: string)
    ensures |r| <= |s| && r == s[..|r|]
    ensures r == [] || !IsWhiteSpace(r[|r| - 1])
    ensures forall i :: |r| <= i < |s| ==> IsWhiteSpace(s[i])
  {
    if s != [] && IsWhiteSpace(s[|s| - 1]) then TrimEnd(s[..|s| - 1]) else s
  }

  /** `s.trim()`. */
  function Trim(s: string): string {
    TrimEnd(TrimStart(s))
  }

  /** `!s.trim()` holds exactly when every character of `s` is white space. */
  lemma {:induction false} TrimEmptyIffBlank(s: string)
    ensures Trim(s) == [] <==> forall i :: 0 <= i < |s| ==> IsWhiteSpace(s[i])
  {
    var t := TrimStart(s);
    if Trim(s) == [] {
      forall i | 0 <= i < |s| ensures IsWhiteSpace(s[i]) {
        if i >= |s| - |t| {
          assert s[i] == t[i - (|s| - |t|)];
        }
      }
    } else {
      var r := Trim(s);
      assert !IsWhiteSpace(r[0]);
      assert r[0] == t[0] == s[|s| - |t|];
    }
  }
}
