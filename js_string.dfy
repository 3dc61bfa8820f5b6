/** The JavaScript string built-ins that the route hook relies on, over `string`
    (a `seq<char>`; JavaScript indexes UTF-16 code units, this model indexes chars). */
module JsString {

  /** `pat` occurs in `s` starting at position `k`. */
  predicate OccursAt(s: string, pat: string, k: nat)
  {
    k + |pat| <= |s| && s[k..k + |pat|] == pat
  }

  /** `k` is the position of the first occurrence of `pat` in `s`. */
  predicate IsFirstOccurrence(s: string, pat: string, k: nat)
  {
    OccursAt(s, pat, k) && forall j: nat :: j < k ==> !OccursAt(s, pat, j)
  }

  /** The left-to-right search behind `s.indexOf(pat, from)`: the first position
      at or after `from` where `pat` occurs, or -1 when there is none. */
  function IndexFrom(s: string, pat: string, from: nat): (r: int)
    requires from <= |s|
    decreases |s| - from
    ensures r == -1 || (from <= r && OccursAt(s, pat, r))
    ensures r == -1 ==> forall k: nat :: from <= k ==> !OccursAt(s, pat, k)
    ensures r != -1 ==> forall k: nat :: from <= k < r ==> !OccursAt(s, pat, k)
  {
    if from + |pat| > |s| then -1
    else if s[from..from + |pat|] == pat then from
    else IndexFrom(s, pat, from + 1)
  }

  /** `s.indexOf(pat)`: the first occurrence of `pat` in `s`, or -1.
      An empty `pat` is found at 0, as in JavaScript. */
  function IndexOf(s: string, pat: string): (r: int)
    ensures r == -1 <==> forall k: nat :: !OccursAt(s, pat, k)
    ensures r != -1 ==> 0 <= r && IsFirstOccurrence(s, pat, r)
  {
    IndexFrom(s, pat, 0)
  }

  /** `s.includes(pat)`. */
  function Includes(s: string, pat: string): (b: bool)
    ensures b <==> exists k: nat :: OccursAt(s, pat, k)
  {
    IndexOf(s, pat) != -1
  }

  /** `s.startsWith(prefix)`. */
  predicate StartsWith(s: string, prefix: string)
  {
    prefix <= s
  }

  /** `s.replace(pat, '')` with a string pattern: only the FIRST occurrence of
      `pat` is cut out; `s` is returned as it is when `pat` does not occur. */
  function RemoveFirst(s: string, pat: string): (r: string)
    ensures (forall k: nat :: !OccursAt(s, pat, k)) ==> r == s
    ensures forall k: nat :: IsFirstOccurrence(s, pat, k) ==> r == s[..k] + s[k + |pat|..]
    ensures |r| == |s| || |r| == |s| - |pat|
  {
    var i := IndexOf(s, pat);
    if i == -1 then s
    else
      s[..i] + s[i + |pat|..]
  }

  /** `s.substring(start)` with one argument: `start` is clamped to `0..|s|`
      and the rest of `s` from there is returned. */
  function Substring(s: string, start: int): (r: string)
    ensures start <= 0 ==> r == s
    ensures |s| <= start ==> r == []
    ensures 0 < start < |s| ==> r == s[start..]
  {
    if start <= 0 then s
    else if |s| <= start then []
    else s[start..]
  }
}
