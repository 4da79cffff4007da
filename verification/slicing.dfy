/** Python's one-sided slice `a[start:]`, used by `predict` (`preds[:, -decode_len:]`)
    and by `Net.forward` (`x[:, -encode_len:, :]`). */
module Slicing {

  /** The position at which Python starts `a[start:]` on a list of `len`
      elements: a negative start counts from the end, and the result is
      clamped into [0, len]. */
  function SliceStart(len: nat, start: int): (i: nat)
    ensures i <= len
  {
    if start < 0 then
      if start + len < 0 then 0 else start + len
    else if start > len then len
    else start
  }

  /** `a[start:]`; whatever the start, the result is a suffix of `a`. */
  function SliceFrom<T>(a: seq<T>, start: int): (r: seq<T>)
    ensures |r| <= |a|
    ensures r == a[|a| - |r|..]
  {
    a[SliceStart(|a|, start)..]
  }

  /** What `a[-d:]` keeps, case by case: `-0` is `0`, so d == 0 keeps the
      whole list; 0 < d <= |a| keeps exactly the last d entries; a d beyond
      the length keeps everything; a negative d (a positive start) drops the
      first -d entries. */
  lemma NegatedStartSlice<T>(a: seq<T>, d: int)
    ensures d == 0 ==> SliceFrom(a, -d) == a
    ensures 0 < d <= |a| ==> |SliceFrom(a, -d)| == d && SliceFrom(a, -d) == a[|a| - d..]
    ensures d > |a| ==> SliceFrom(a, -d) == a
    ensures d < 0 ==> |SliceFrom(a, -d)| == if -d <= |a| then |a| + d else 0
  {
  }
}
