/** JavaScript string behaviour used by the forms and the chat input:
    the whitespace class shared by `String.prototype.trim` and the regular
    expression escape `\s`, and `trim` itself. */
module JsText {

  /** The WhiteSpace and LineTerminator code points of ECMAScript, which
      both `trim` and `\s` recognise. */
  predicate IsSpace(c: char) {
    c == '\t' || c == '\n' || c == '\U{B}' || c == '\U{C}' || c == '\r' || c == ' '
    || c == '\U{A0}' || c == '\U{1680}' || ('\U{2000}' <= c <= '\U{200A}')
    || c == '\U{2028}' || c == '\U{2029}' || c == '\U{202F}' || c == '\U{205F}'
    || c == '\U{3000}' || c == '\U{FEFF}'
  }

  /** Every character of `s` is whitespace (this includes the empty string). */
  predicate IsBlank(s: string) {
    forall i | 0 <= i < |s| :: IsSpace(s[i])
  }

  /** The index of the first non-whitespace character at or after `i`,
      or `|s|` when there is none. */
  function SkipSpaces(s: string, i: nat): (n: nat)
    requires i <= |s|
    ensures i <= n <= |s|
    ensures forall k | i <= k < n :: IsSpace(s[k])
    ensures n < |s| ==> !IsSpace(s[n])
    decreases |s| - i
  {
    if i < |s| && IsSpace(s[i]) then SkipSpaces(s, i + 1) else i
  }

  /** The end of `s[lo..j]` once its trailing whitespace is dropped. */
  function SkipSpacesBack(s: string, lo: nat, j: nat): (n: nat)
    requires lo <= j <= |s|
    ensures lo <= n <= j
    ensures forall k | n <= k < j :: IsSpace(s[k])
    ensures n > lo ==> !IsSpace(s[n - 1])
    decreases j
  {
    if j > lo && IsSpace(s[j - 1]) then SkipSpacesBack(s, lo, j - 1) else j
  }

  /** `r` is the slice of `s` that starts at `lo`. */
  predicate SliceAt(r: string, s: string, lo: int) {
    0 <= lo <= |s| - |r| && r == s[lo..lo + |r|]
  }

  /** `r` is the slice of `s` at `lo` with only whitespace around it. */
  predicate TrimmedAt(r: string, s: string, lo: int) {
    SliceAt(r, s, lo) && IsBlank(s[..lo]) && IsBlank(s[lo + |r|..])
  }

  /** `s.trim()`: a slice of `s` that neither starts nor ends with
      whitespace, that is empty exactly when `s` is blank, and around which
      only whitespace was removed. */
  function Trim(s: string): (r: string)
    ensures r == [] <==> IsBlank(s)
    ensures r != [] ==> !IsSpace(r[0]) && !IsSpace(r[|r| - 1])
    ensures exists lo :: TrimmedAt(r, s, lo)
  {
    var lo := SkipSpaces(s, 0);
    var hi := SkipSpacesBack(s, lo, |s|);
    assert IsBlank(s[..lo]) by {
      forall k | 0 <= k < lo
        ensures IsSpace(s[..lo][k])
      {
        assert s[..lo][k] == s[k];
      }
    }
    assert IsBlank(s[hi..]) by {
      forall k | 0 <= k < |s| - hi
        ensures IsSpace(s[hi..][k])
      {
        assert s[hi..][k] == s[hi + k];
      }
    }
    assert TrimmedAt(s[lo..hi], s, lo);
    assert hi == lo ==> IsBlank(s) by {
      if hi == lo {
        // A non-space at `lo` would have stopped the backward scan above it.
        assert lo == |s|;
        assert s[..lo] == s;
      }
    }
    s[lo..hi]
  }

  /** Trimming a second time changes nothing. */
  lemma {:induction false} TrimIdempotent(s: string)
    ensures Trim(Trim(s)) == Trim(s)
  {
    var r := Trim(s);
    if r != [] {
      assert SkipSpaces(r, 0) == 0;
      assert SkipSpacesBack(r, 0, |r|) == |r|;
      assert r[0..|r|] == r;
    }
  }

  /** Upper-cases the ASCII letters a-z and leaves every other character. */
  function ToUpperAscii(s: string): (r: string)
    ensures |r| == |s|
    ensures forall i | 0 <= i < |s| ::
      r[i] == (if 'a' <= s[i] <= 'z' then (s[i] as int - 32) as char else s[i])
  {
    seq(|s|, i requires 0 <= i < |s| =>
      if 'a' <= s[i] <= 'z' then (s[i] as int - 32) as char else s[i])
  }
}
