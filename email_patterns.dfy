/** The two e-mail regular expressions of the forms, each written the way
    the expression reads (a split of the input into the pieces the pattern
    matches) and described a second time by the shape of the strings it
    accepts; a lemma proves that the two agree. */
module EmailPatterns {
  import opened JsText

  /** A character that `[^\s@]` accepts. */
  predicate AddressChar(c: char) {
    !IsSpace(c) && c != '@'
  }

  /** `s[lo..hi]` is a non-empty run of `[^\s@]`. */
  predicate AddressRun(s: string, lo: int, hi: int) {
    0 <= lo < hi <= |s| && forall k | lo <= k < hi :: AddressChar(s[k])
  }

  /** `s[lo..hi]` is a non-empty run of `\S`. */
  predicate NonSpaceRun(s: string, lo: int, hi: int) {
    0 <= lo < hi <= |s| && forall k | lo <= k < hi :: !IsSpace(s[k])
  }

  /** `^[^\s@]+@[^\s@]+\.[^\s@]+$` matches `s` with its `@` at `at` and its
      literal `.` at `dot`. */
  predicate StrictSplit(s: string, at: int, dot: int) {
    0 < at && at + 1 < dot && dot + 1 < |s|
    && s[at] == '@' && s[dot] == '.'
    && AddressRun(s, 0, at) && AddressRun(s, at + 1, dot) && AddressRun(s, dot + 1, |s|)
  }

  /** `/^[^\s@]+@[^\s@]+\.[^\s@]+$/.test(s)` (sign-up forms). */
  predicate MatchesStrictEmail(s: string) {
    exists at, dot | 0 <= at < dot < |s| :: StrictSplit(s, at, dot)
  }

  /** `s[at]` is the only `@` of `s`. */
  predicate OnlyAtSign(s: string, at: int) {
    0 <= at < |s| && s[at] == '@' && forall k | 0 <= k < |s| && k != at :: s[k] != '@'
  }

  /** The strings the strict pattern accepts, by shape: no whitespace,
      exactly one `@` and not in front, and a `.` after it that is neither
      the first character of the domain nor the last of the string. */
  ghost predicate WellFormedAddress(s: string) {
    (forall k | 0 <= k < |s| :: !IsSpace(s[k]))
    && exists at | 0 < at < |s| :: OnlyAtSign(s, at)
         && exists dot | at + 1 < dot < |s| - 1 :: s[dot] == '.'
  }

  lemma {:induction false} StrictEmailIff(s: string)
    ensures MatchesStrictEmail(s) <==> WellFormedAddress(s)
  {
    if MatchesStrictEmail(s) {
      var at, dot :| 0 <= at < dot < |s| && StrictSplit(s, at, dot);
      forall k | 0 <= k < |s| ensures !IsSpace(s[k]) && (k != at ==> s[k] != '@') {
        if k < at { assert AddressChar(s[k]); }
        else if at < k < dot { assert AddressChar(s[k]); }
        else if dot < k { assert AddressChar(s[k]); }
      }
      assert OnlyAtSign(s, at);
    }
    if WellFormedAddress(s) {
      var at :| 0 < at < |s| && OnlyAtSign(s, at) && exists dot | at + 1 < dot < |s| - 1 :: s[dot] == '.';
      var dot :| at + 1 < dot < |s| - 1 && s[dot] == '.';
      assert StrictSplit(s, at, dot);
    }
  }

  /** `\S+@\S+\.\S+` matches the substring `s[lo..hi]` with its `@` at `at`
      and its literal `.` at `dot`. */
  predicate LooseSplit(s: string, lo: int, at: int, dot: int, hi: int) {
    0 <= lo < at && at + 1 < dot && dot + 1 < hi <= |s|
    && s[at] == '@' && s[dot] == '.'
    && NonSpaceRun(s, lo, at) && NonSpaceRun(s, at + 1, dot) && NonSpaceRun(s, dot + 1, hi)
  }

  /** `/\S+@\S+\.\S+/.test(s)` (reset-password forms): the pattern is not
      anchored, so any substring may match. */
  predicate ContainsLooseEmail(s: string) {
    exists lo, at, dot, hi | 0 <= lo < at < dot < hi <= |s| :: LooseSplit(s, lo, at, dot, hi)
  }

  /** An `@` at `at` and a `.` at `dot`, with at least one character before
      the `@`, between the two and after the `.`, all of them
      non-whitespace. */
  predicate LooseCore(s: string, at: int, dot: int) {
    0 < at && at + 1 < dot && dot + 1 < |s|
    && s[at] == '@' && s[dot] == '.' && NonSpaceRun(s, at - 1, dot + 2)
  }

  /** The strings the loose pattern accepts, by shape. */
  ghost predicate HasLooseAddress(s: string) {
    exists at, dot :: LooseCore(s, at, dot)
  }

  lemma {:induction false} LooseEmailIff(s: string)
    ensures ContainsLooseEmail(s) <==> HasLooseAddress(s)
  {
    if ContainsLooseEmail(s) {
      var lo, at, dot, hi :| 0 <= lo < at < dot < hi <= |s| && LooseSplit(s, lo, at, dot, hi);
      forall k | at - 1 <= k < dot + 2 ensures !IsSpace(s[k]) {
        if k < at { assert NonSpaceRun(s, lo, at); }
        else if at < k < dot { assert NonSpaceRun(s, at + 1, dot); }
        else if dot < k { assert NonSpaceRun(s, dot + 1, hi); }
      }
      assert LooseCore(s, at, dot);
    }
    if HasLooseAddress(s) {
      var at, dot :| LooseCore(s, at, dot);
      assert LooseSplit(s, at - 1, at, dot, dot + 2);
    }
  }

  /** Every address the sign-up pattern accepts passes the reset pattern. */
  lemma {:induction false} StrictImpliesLoose(s: string)
    ensures MatchesStrictEmail(s) ==> ContainsLooseEmail(s)
  {
    if MatchesStrictEmail(s) {
      var at, dot :| 0 <= at < dot < |s| && StrictSplit(s, at, dot);
      assert LooseSplit(s, 0, at, dot, |s|);
    }
  }

  /** The reset pattern is weaker: a second `@` and leading text separated
      by a space are both accepted by it and refused by the sign-up
      pattern. */
  lemma LooseAcceptsWhatStrictRefuses()
    ensures ContainsLooseEmail("a@b@c.d") && !MatchesStrictEmail("a@b@c.d")
    ensures ContainsLooseEmail("x y@b.c") && !MatchesStrictEmail("x y@b.c")
  {
    assert LooseSplit("a@b@c.d", 2, 3, 5, 7);
    StrictEmailIff("a@b@c.d");
    assert !OnlyAtSign("a@b@c.d", 1) by { assert "a@b@c.d"[3] == '@'; }
    assert !OnlyAtSign("a@b@c.d", 3) by { assert "a@b@c.d"[1] == '@'; }
    assert LooseSplit("x y@b.c", 2, 3, 5, 7);
    StrictEmailIff("x y@b.c");
    assert IsSpace("x y@b.c"[1]);
  }
}
