/**
 * `util.Truncate`: normalise white space, then cut to `maxLen` bytes with a
 * trailing "..." when the normalised text is too long. The history store's
 * `truncateTitle` is the same function, character for character.
 */
module Truncate {
  import opened Strings

  const Ellipsis: string := "..."

  /**
   * Go slices `s[:maxLen-3]`, which panics when `maxLen < 3`; the
   * precondition asks for `maxLen >= 3` only when the cut actually happens.
   */
  function Truncate(s: string, maxLen: int): (r: string)
    requires |Normalize(s)| <= maxLen || maxLen >= 3
    ensures Normalized(r)
    ensures |r| <= maxLen
    ensures |Normalize(s)| <= maxLen <==> r == Normalize(s)
    ensures |Normalize(s)| > maxLen ==>
      |r| == maxLen && r[..maxLen - 3] <= Normalize(s) && r[maxLen - 3..] == Ellipsis
    ensures AllSpace(s) && maxLen >= 0 ==> r == ""
  {
    var n := Normalize(s);
    if |n| <= maxLen then n
    else
      EllipsisKeepsNormalForm(n, maxLen - 3);
      n[..maxLen - 3] + Ellipsis
  }

  /** Cutting a normal string anywhere and appending "..." leaves it normal. */
  lemma EllipsisKeepsNormalForm(t: string, k: nat)
    requires Normalized(t) && k <= |t|
    ensures Normalized(t[..k] + Ellipsis)
  {
    var r := t[..k] + Ellipsis;
    forall i | 0 <= i < |r| && IsSpace(r[i]) ensures r[i] == ' ' {
      if i < k { assert r[i] == t[i]; }
    }
    forall i | 0 < i < |r| && r[i] == ' ' ensures r[i - 1] != ' ' {
      if i < k { assert r[i] == t[i] && r[i - 1] == t[i - 1]; }
    }
    if k > 0 { assert r[0] == t[0]; }
  }

  /** Truncating twice with the same bound is truncating once. */
  lemma TruncateIdempotent(s: string, maxLen: int)
    requires maxLen >= 3
    ensures Truncate(Truncate(s, maxLen), maxLen) == Truncate(s, maxLen)
  {
    NormalizedFixpoint(Truncate(s, maxLen));
  }
}
