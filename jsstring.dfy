/**
 * The few JavaScript string operations the retry layer uses: a prefix test,
 * `String.prototype.indexOf` and `String.prototype.replace` with a string
 * (not a regular expression) as the pattern, and the conversion of an
 * absent value to a string.
 */
module JsString {
  import opened Wrappers

  /** `s` begins with `prefix` (what the anchored pattern `/^prefix/` tests). */
  predicate StartsWith(s: string, prefix: string) {
    |prefix| <= |s| && s[..|prefix|] == prefix
  }

  /** `pat` occurs in `s` starting at index `i`. */
  predicate OccursAt(s: string, pat: string, i: nat) {
    i + |pat| <= |s| && s[i..i + |pat|] == pat
  }

  /** `s.indexOf(pat)`: the first index at which `pat` occurs, or `None` for -1. */
  function IndexOf(s: string, pat: string): (r: Option<nat>)
    ensures r.Some? ==> OccursAt(s, pat, r.value)
    ensures r.Some? ==> forall j: nat :: j < r.value ==> !OccursAt(s, pat, j)
    ensures r.None? ==> forall j: nat :: !OccursAt(s, pat, j)
    decreases |s|
  {
    if StartsWith(s, pat) then
      Some(0)
    else if s == [] then
      None
    else
      OccursInTail(s, pat);
      match IndexOf(s[1..], pat)
      case None => None
      case Some(i) => Some(i + 1)
  }

  /** An occurrence past the first character of `s` is an occurrence in `s[1..]`, shifted by one. */
  lemma OccursInTail(s: string, pat: string)
    requires s != [] && !StartsWith(s, pat)
    ensures !OccursAt(s, pat, 0)
    ensures forall j: nat :: 0 < j ==> (OccursAt(s, pat, j) <==> OccursAt(s[1..], pat, j - 1))
  {
  }

  /** `s.replace(pat, rep)` for a string `pat`: only the first occurrence is replaced. */
  function ReplaceFirst(s: string, pat: string, rep: string): (r: string)
    ensures (forall j: nat :: !OccursAt(s, pat, j)) ==> r == s
    ensures forall i: nat :: OccursAt(s, pat, i) && (forall j: nat :: j < i ==> !OccursAt(s, pat, j)) ==>
      i + |pat| <= |s| && r == s[..i] + rep + s[i + |pat|..]
  {
    match IndexOf(s, pat)
    case None => s
    case Some(i) => s[..i] + rep + s[i + |pat|..]
  }

  /** `String(v)` for a value that is a string or `undefined`. */
  function ToJsString(v: Option<string>): (r: string)
    ensures v.Some? ==> r == v.value
    ensures v.None? ==> r == "undefined"
  {
    v.GetOr("undefined")
  }

  /** Occurrence at the front: `indexOf` of a prefix is 0, whatever follows it. */
  lemma IndexOfPrefix(prefix: string, rest: string)
    ensures IndexOf(prefix + rest, prefix) == Some(0)
  {
  }

  /** Replacing a prefix by the empty string leaves what followed it. */
  lemma ReplaceFirstPrefix(prefix: string, rest: string)
    ensures ReplaceFirst(prefix + rest, prefix, "") == rest
  {
  }
}
