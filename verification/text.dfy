/** String.prototype.trim as the server applies it to the submitted phone number.
    Strings are sequences of Unicode scalar values; trim strips the ECMAScript
    WhiteSpace and LineTerminator code points from both ends. */
module Text {

  /** The code points ECMAScript's trim removes: WhiteSpace (TAB, VT, FF, SP, NBSP,
      ZWNBSP and the Space_Separator category) and LineTerminator (LF, CR, LS, PS). */
  predicate IsWhitespace(c: char) {
    || c == '\t' || c == '\n' || c == '\U{B}' || c == '\U{C}' || c == '\r' || c == ' '
    || c == '\U{A0}' || c == '\U{1680}' || ('\U{2000}' <= c <= '\U{200A}')
    || c == '\U{2028}' || c == '\U{2029}' || c == '\U{202F}' || c == '\U{205F}'
    || c == '\U{3000}' || c == '\U{FEFF}'
  }

  /** Every character of `s` at positions `lo` up to (not including) `hi` is whitespace. */
  predicate SpaceBetween(s: string, lo: int, hi: int)
    requires 0 <= lo && hi <= |s|
  {
    forall i :: lo <= i < hi ==> IsWhitespace(s[i])
  }

  predicate AllWhitespace(s: string) {
    SpaceBetween(s, 0, |s|)
  }

  /** The first position at or after `from` that does not hold whitespace,
      or `|s|` if there is none. */
  function SkipForward(s: string, from: nat): (k: nat)
    requires from <= |s|
    ensures from <= k <= |s|
    ensures SpaceBetween(s, from, k)
    ensures k < |s| ==> !IsWhitespace(s[k])
    decreases |s| - from
  {
    if from == |s| || !IsWhitespace(s[from]) then from else SkipForward(s, from + 1)
  }

  /** The position just after the last non-whitespace character in
      `s[floor..upto]`, or `floor` if there is none. */
  function SkipBackward(s: string, floor: nat, upto: nat): (k: nat)
    requires floor <= upto <= |s|
    ensures floor <= k <= upto
    ensures SpaceBetween(s, k, upto)
    ensures k > floor ==> !IsWhitespace(s[k - 1])
    decreases upto
  {
    if upto == floor || !IsWhitespace(s[upto - 1]) then upto else SkipBackward(s, floor, upto - 1)
  }

  /** `r` is `s` with its whitespace margins removed: `r` occurs in `s` at some
      offset, only whitespace surrounds it, and `r` neither starts nor ends
      with whitespace. */
  ghost predicate IsTrimOf(s: string, r: string) {
    && (|r| > 0 ==> !IsWhitespace(r[0]) && !IsWhitespace(r[|r| - 1]))
    && exists k :: 0 <= k <= |s| - |r| && Margins(s, k, |r|) && s[k..k + |r|] == r
  }

  /** The characters of `s` before offset `k` and from `k + n` on are all whitespace. */
  ghost predicate Margins(s: string, k: int, n: int)
    requires 0 <= k <= k + n <= |s|
  {
    SpaceBetween(s, 0, k) && SpaceBetween(s, k + n, |s|)
  }

  function Trim(s: string): (r: string)
    ensures IsTrimOf(s, r)
  {
    var lo := SkipForward(s, 0);
    var hi := SkipBackward(s, lo, |s|);
    assert Margins(s, lo, hi - lo);
    s[lo..hi]
  }

  /** The trimmed form is unique: any string that is a trim of `s` is `Trim(s)`. */
  lemma TrimUnique(s: string, r: string)
    requires IsTrimOf(s, r)
    ensures r == Trim(s)
  {
  }

  /** Trimming leaves nothing exactly when the input is all whitespace. */
  lemma TrimEmptyIff(s: string)
    ensures Trim(s) == [] <==> AllWhitespace(s)
  {
  }

  /** Trimming an already trimmed string changes nothing. */
  lemma TrimIdempotent(s: string)
    ensures Trim(Trim(s)) == Trim(s)
  {
  }
}
