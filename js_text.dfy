/**
 * The JavaScript string built-ins that the minting component relies on:
 * `substring`, `indexOf`, `replace` with a string pattern and an empty
 * replacement, and the rendering of an integer in a template literal.
 * A JavaScript string is a sequence of UTF-16 code units; here it is a `string`.
 */
module JsText {

  /** How `substring` treats an index: clamped into `[0, n]`. */
  function Clamp(i: int, n: nat): nat
  {
    if i < 0 then 0 else if i > n then n else i
  }

  /**
   * `s.substring(start, end)`: both indices are clamped to the string and,
   * when the first ends up after the second, they are swapped.
   */
  function Substring(s: string, start: int, end: int): (r: string)
    ensures |r| == if Clamp(start, |s|) <= Clamp(end, |s|) then Clamp(end, |s|) - Clamp(start, |s|)
                   else Clamp(start, |s|) - Clamp(end, |s|)
    ensures 0 <= start <= end <= |s| ==> r == s[start..end]
    ensures end <= 0 && start >= |s| ==> r == s
  {
    var a, b := Clamp(start, |s|), Clamp(end, |s|);
    if a <= b then s[a..b] else s[b..a]
  }

  /** `s.substring(start)`: from `start`, clamped, to the end of the string. */
  function SubstringFrom(s: string, start: int): (r: string)
    ensures 0 <= start <= |s| ==> r == s[start..]
    ensures start <= 0 ==> r == s
    ensures start >= |s| ==> r == []
  {
    Substring(s, start, |s|)
  }

  lemma SubstringSymmetric(s: string, a: int, b: int)
    ensures Substring(s, a, b) == Substring(s, b, a)
  {
  }

  /** `pat` occurs in `s` starting at index `i`. */
  predicate OccursAt(s: string, pat: string, i: int)
  {
    0 <= i && i + |pat| <= |s| && s[i..i + |pat|] == pat
  }

  /** The search behind `indexOf`, started at position `k`. */
  function IndexFrom(s: string, pat: string, k: nat): (r: int)
    ensures r == -1 || (k <= r && OccursAt(s, pat, r))
    ensures forall j :: k <= j && (r == -1 || j < r) ==> !OccursAt(s, pat, j)
    decreases |s| - k
  {
    if k + |pat| > |s| then -1
    else if s[k..k + |pat|] == pat then k
    else IndexFrom(s, pat, k + 1)
  }

  /** `s.indexOf(pat)`: the first index at which `pat` occurs, or -1 when it does not occur. */
  function IndexOf(s: string, pat: string): (r: int)
    ensures r == -1 || OccursAt(s, pat, r)
    ensures forall j :: (r == -1 || j < r) ==> !OccursAt(s, pat, j)
  {
    IndexFrom(s, pat, 0)
  }

  /**
   * `s.replace(pat, '')` with a string pattern: removes the FIRST occurrence
   * of `pat`, wherever it is, and leaves the string alone when there is none.
   */
  function RemoveFirst(s: string, pat: string): (r: string)
    ensures IndexOf(s, pat) == -1 ==> r == s
    ensures IndexOf(s, pat) >= 0 ==>
              |r| == |s| - |pat| &&
              r[..IndexOf(s, pat)] + pat + r[IndexOf(s, pat)..] == s
  {
    var i := IndexOf(s, pat);
    if i < 0 then s else s[..i] + s[i + |pat|..]
  }

  /** With no occurrence of `pat` in `s`, removing it changes nothing. */
  lemma RemoveFirstAbsent(s: string, pat: string)
    requires forall i :: !OccursAt(s, pat, i)
    ensures RemoveFirst(s, pat) == s
  {
  }

  /** A leading `pat` is exactly what is removed. */
  lemma RemoveFirstPrefix(pat: string, t: string)
    ensures RemoveFirst(pat + t, pat) == t
  {
  }

  /** When `pat` occurs in `s`, removing it shortens `s` by exactly `|pat|`. */
  lemma RemoveFirstShortens(s: string, pat: string, i: int)
    requires OccursAt(s, pat, i)
    ensures |RemoveFirst(s, pat)| == |s| - |pat|
    ensures IndexOf(s, pat) <= i
  {
  }

  predicate IsDigit(c: char)
  {
    '0' <= c <= '9'
  }

  predicate AllDigits(s: string)
  {
    forall i :: 0 <= i < |s| ==> IsDigit(s[i])
  }

  function DigitChar(d: nat): (c: char)
    requires d < 10
    ensures IsDigit(c)
  {
    ('0' as int + d) as char
  }

  function DigitValue(c: char): nat
    requires IsDigit(c)
  {
    c as int - '0' as int
  }

  /** The decimal digits of `n`, most significant first, as `String(n)` gives them for a safe integer. */
  function DecimalString(n: nat): (r: string)
    ensures |r| >= 1 && AllDigits(r)
    ensures r[0] == '0' ==> n == 0
  {
    if n < 10 then [DigitChar(n)] else DecimalString(n / 10) + [DigitChar(n % 10)]
  }

  /** The value of a string of decimal digits. */
  function DecimalValue(s: string): nat
    requires AllDigits(s)
  {
    if s == [] then 0 else 10 * DecimalValue(s[..|s| - 1]) + DigitValue(s[|s| - 1])
  }

  /** Reading back the digits of `n` gives `n`: the rendering loses nothing. */
  lemma {:induction false} DecimalRoundTrip(n: nat)
    ensures DecimalValue(DecimalString(n)) == n
  {
    if n >= 10 {
      DecimalRoundTrip(n / 10);
      var a := DecimalString(n / 10);
      var s := a + [DigitChar(n % 10)];
      assert DecimalString(n) == s;
      assert s[..|s| - 1] == a;
    }
  }

  /** How an integer is rendered in a template literal: `${n}`. */
  function NumberString(n: int): (r: string)
    ensures n >= 0 ==> |r| >= 1 && AllDigits(r) && (r[0] == '0' ==> n == 0) && DecimalValue(r) == n
    ensures n < 0 ==> |r| >= 2 && r[0] == '-' && AllDigits(r[1..]) && r[1] != '0' && DecimalValue(r[1..]) == -n
  {
    DecimalRoundTrip(if n < 0 then -n else n);
    if n < 0 then "-" + DecimalString(-n) else DecimalString(n)
  }
}
