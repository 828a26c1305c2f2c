/** String operations from the JavaScript standard library that the handlers use. */
module Text {
  import opened Wrappers

  /** `pat` occurs in `s` starting at index `i`. */
  predicate OccursAt(s: string, pat: string, i: int) {
    0 <= i && i + |pat| <= |s| && s[i..i + |pat|] == pat
  }

  /** The first index at or after `from` where `pat` occurs. */
  function IndexOfFrom(s: string, pat: string, from: nat): (r: Option<nat>)
    requires from <= |s|
    ensures r.Some? ==> from <= r.value && OccursAt(s, pat, r.value)
    ensures r.Some? ==> forall j :: from <= j < r.value ==> !OccursAt(s, pat, j)
    ensures r.None? ==> forall j :: from <= j <= |s| ==> !OccursAt(s, pat, j)
    decreases |s| - from
  {
    if OccursAt(s, pat, from) then Some(from)
    else if from == |s| then None
    else IndexOfFrom(s, pat, from + 1)
  }

  /** `s.indexOf(pat)`, with -1 written as `None`. */
  function IndexOf(s: string, pat: string): (r: Option<nat>)
    ensures r.Some? ==> OccursAt(s, pat, r.value)
    ensures r.Some? ==> forall j :: 0 <= j < r.value ==> !OccursAt(s, pat, j)
    ensures r.None? ==> forall j :: 0 <= j <= |s| ==> !OccursAt(s, pat, j)
  {
    IndexOfFrom(s, pat, 0)
  }

  /**
   * `s.replace(pat, rep)` with a string pattern: only the FIRST occurrence is
   * replaced, and a string without `pat` is returned as it is. (`rep` is
   * taken literally; the handlers only pass replacements without `$`.)
   */
  function ReplaceFirst(s: string, pat: string, rep: string): (r: string)
    ensures IndexOf(s, pat).None? ==> r == s
    ensures IndexOf(s, pat).Some? ==>
              var i := IndexOf(s, pat).value;
              |r| == |s| - |pat| + |rep| && r[..i] == s[..i] && OccursAt(r, rep, i)
              && r[i + |rep|..] == s[i + |pat|..]
  {
    match IndexOf(s, pat)
    case None => s
    case Some(i) =>
      var r := s[..i] + rep + s[i + |pat|..];
      assert r[i..i + |rep|] == rep;
      r
  }

  /** Replacing the first `pat` by `rep` loses nothing: putting `pat` back restores `s`. */
  lemma ReplaceFirstUndo(s: string, pat: string, rep: string)
    requires IndexOf(s, pat).Some?
    ensures var i := IndexOf(s, pat).value;
            var r := ReplaceFirst(s, pat, rep);
            i + |rep| <= |r| && r[..i] + pat + r[i + |rep|..] == s
  {
    var i := IndexOf(s, pat).value;
    var r := ReplaceFirst(s, pat, rep);
    assert s[i..i + |pat|] == pat;
    assert s == s[..i] + s[i..i + |pat|] + s[i + |pat|..];
    assert r[..i] == s[..i] && r[i + |rep|..] == s[i + |pat|..];
  }

  /** An occurrence at or after `|p|` in `p + t` is an occurrence in `t`, shifted by `|p|`. */
  lemma OccursAfterPrefix(p: string, t: string, pat: string, j: int)
    requires |p| <= j
    ensures OccursAt(p + t, pat, j) <==> OccursAt(t, pat, j - |p|)
  {
    if j + |pat| <= |p + t| {
      assert (p + t)[j..j + |pat|] == t[j - |p|..j - |p| + |pat|];
    }
  }

  /** Without an occurrence in `t` or inside `p`, there is none in `p + t`. */
  lemma NoOccurrenceAfterPrefix(p: string, t: string, pat: string)
    requires forall k :: 0 <= k < |p| ==> !OccursAt(p + t, pat, k)
    requires IndexOf(t, pat).None?
    ensures IndexOf(p + t, pat).None?
  {
    forall j | 0 <= j <= |p + t|
      ensures !OccursAt(p + t, pat, j)
    {
      if |p| <= j {
        OccursAfterPrefix(p, t, pat, j);
      }
    }
  }

  /** Without an occurrence inside `p`, the first one in `p + t` is the first one in `t`, shifted. */
  lemma FirstOccurrenceAfterPrefix(p: string, t: string, pat: string, i: nat)
    requires forall k :: 0 <= k < |p| ==> !OccursAt(p + t, pat, k)
    requires IndexOf(t, pat) == Some(i)
    ensures IndexOf(p + t, pat) == Some(|p| + i)
  {
    OccursAfterPrefix(p, t, pat, |p| + i);
    var m := IndexOf(p + t, pat).value;
    OccursAfterPrefix(p, t, pat, m);
  }

  /** Where no occurrence starts inside `p`, the first occurrence in `p + t` is the first one in `t`, shifted by `|p|`. */
  lemma IndexOfAfter(p: string, t: string, pat: string)
    requires forall k :: 0 <= k < |p| ==> !OccursAt(p + t, pat, k)
    ensures IndexOf(p + t, pat) == match IndexOf(t, pat) case None => None case Some(i) => Some(|p| + i)
  {
    match IndexOf(t, pat)
    case None => NoOccurrenceAfterPrefix(p, t, pat);
    case Some(i) => FirstOccurrenceAfterPrefix(p, t, pat, i);
  }

  /** `s.startsWith(prefix)`. */
  predicate StartsWith(s: string, prefix: string) {
    prefix <= s
  }

  predicate IsDigit(c: char) {
    '0' <= c <= '9'
  }

  /** The decimal digit for `d`. */
  function Digit(d: nat): (c: char)
    requires d < 10
    ensures IsDigit(c) && c as int - '0' as int == d
  {
    ('0' as int + d) as char
  }

  /** Template-literal conversion of a non-negative integer: its decimal digits. */
  function DecimalString(n: nat): (s: string)
    ensures |s| > 0 && forall k :: 0 <= k < |s| ==> IsDigit(s[k])
    decreases n
  {
    if n < 10 then [Digit(n)] else DecimalString(n / 10) + [Digit(n % 10)]
  }

  /** The value of a string of decimal digits. */
  function DecimalValue(s: string): nat
    requires forall k :: 0 <= k < |s| ==> IsDigit(s[k])
  {
    if |s| == 0 then 0
    else
      assert IsDigit(s[|s| - 1]);
      10 * DecimalValue(s[..|s| - 1]) + (s[|s| - 1] as int - '0' as int)
  }

  /** Reading the digits of `n` back gives `n`: distinct times give distinct strings. */
  lemma {:induction false} DecimalRoundTrip(n: nat)
    ensures DecimalValue(DecimalString(n)) == n
    decreases n
  {
    var s := DecimalString(n);
    if n >= 10 {
      DecimalRoundTrip(n / 10);
      assert s[..|s| - 1] == DecimalString(n / 10);
    }
  }
}
