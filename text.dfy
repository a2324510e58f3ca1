/**
  String helpers the report script takes from Python's `str`: `strip()` with no
  argument and the slice `s[:10]` that cuts the date out of an ISO-8601 stamp.
 */
module Text {

  /** A line of a text file as Python iterates it: its '\n' is kept. */
  type Line = string

  /** Python's `str.isspace()` for a single character. */
  predicate IsSpace(c: char)
  {
    ('\t' <= c <= '\r') || ('\U{1c}' <= c <= ' ') ||
    c == '\U{85}' || c == '\U{a0}' || c == '\U{1680}' ||
    ('\U{2000}' <= c <= '\U{200a}') || c == '\U{2028}' || c == '\U{2029}' ||
    c == '\U{202f}' || c == '\U{205f}' || c == '\U{3000}'
  }

  /** End of the run of whitespace in `s` that starts at index `i`. */
  function SpacesFrom(s: string, i: nat): (k: nat)
    requires i <= |s|
    ensures i <= k <= |s|
    ensures forall x :: i <= x < k ==> IsSpace(s[x])
    ensures k < |s| ==> !IsSpace(s[k])
    decreases |s| - i
  {
    if i == |s| || !IsSpace(s[i]) then i else SpacesFrom(s, i + 1)
  }

  /** Start of the run of whitespace in `s` that ends just before index `j`. */
  function SpacesTo(s: string, j: nat): (k: nat)
    requires j <= |s|
    ensures k <= j
    ensures forall x :: k <= x < j ==> IsSpace(s[x])
    ensures k > 0 ==> !IsSpace(s[k - 1])
  {
    if j == 0 || !IsSpace(s[j - 1]) then j else SpacesTo(s, j - 1)
  }

  /** Number of whitespace characters at the front of `s`. */
  function LeadingSpaces(s: string): nat
  {
    SpacesFrom(s, 0)
  }

  /** Index where the whitespace at the back of `s` begins. */
  function TrailingStart(s: string): nat
  {
    SpacesTo(s, |s|)
  }

  /** `s.strip()`: `s` without its leading and trailing whitespace. */
  function Strip(s: string): string
  {
    var a := LeadingSpaces(s);
    if a == |s| then [] else s[a..TrailingStart(s)]
  }

  /**
    What `strip()` keeps: a slice of `s` that neither starts nor ends with
    whitespace, obtained by removing only whitespace from both ends.
   */
  lemma StripSpec(s: string)
    ensures var r := Strip(s); var i := LeadingSpaces(s);
      i + |r| <= |s| && r == s[i..i + |r|] &&
      (r == [] || (!IsSpace(r[0]) && !IsSpace(r[|r| - 1]))) &&
      (forall j :: 0 <= j < i ==> IsSpace(s[j])) &&
      (forall j :: i + |r| <= j < |s| ==> IsSpace(s[j]))
  {
    var a := LeadingSpaces(s);
    if a < |s| {
      var b := TrailingStart(s);
      assert !IsSpace(s[a]);
      assert a < b;
      var r := s[a..b];
      assert r[0] == s[a] && r[|r| - 1] == s[b - 1];
    }
  }

  /** Characters that Python's slice `s[:10]` keeps. */
  const DatePartLength: nat := 10

  /** `s[:10]`: the first ten characters, or all of `s` when it is shorter. */
  function DatePart(s: string): (r: string)
    ensures |r| == if |s| < DatePartLength then |s| else DatePartLength
    ensures r <= s
  {
    if |s| <= DatePartLength then s else s[..DatePartLength]
  }

  /** A ten-character date followed by any time suffix slices back to the date. */
  lemma DatePartOfStamp(d: string, suffix: string)
    requires |d| == DatePartLength
    ensures DatePart(d + suffix) == d
  {
    if suffix != [] {
      assert (d + suffix)[..DatePartLength] == d;
    }
  }
}
