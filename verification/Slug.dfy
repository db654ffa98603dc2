/**
 The dashboard's slug generator against the API's slug pattern
 [a-z0-9]+(-[a-z0-9]+)*. Lower-casing and white space are the platform's and come in
 as functions.
 */
module Slug {
  predicate Word(c: char) {
    'a' <= c <= 'z' || '0' <= c <= '9'
  }

  // ---- the validator: a reader of the pattern ----

  /** The rest of a slug once a word character has been read. */
  predicate MatchesAfterWord(s: string) {
    s == [] || (Word(s[0]) && MatchesAfterWord(s[1..])) || (s[0] == '-' && MatchesFromWord(s[1..]))
  }

  /** A slug, or the rest of one after a hyphen: a word character has to come. */
  predicate MatchesFromWord(s: string) {
    s != [] && Word(s[0]) && MatchesAfterWord(s[1..])
  }

  // ---- the generator ----

  function TrimStart(s: string, space: char -> bool): string {
    if s != [] && space(s[0]) then TrimStart(s[1..], space) else s
  }

  function TrimEnd(s: string, space: char -> bool): string {
    if s != [] && space(s[|s| - 1]) then TrimEnd(s[..|s| - 1], space) else s
  }

  function LowerAll(s: string, lower: char -> string): string {
    if s == [] then [] else lower(s[0]) + LowerAll(s[1..], lower)
  }

  /** Every maximal run of other characters becomes one hyphen. */
  function Hyphenate(s: string): string {
    if s == [] then []
    else if Word(s[0]) then [s[0]] + Hyphenate(s[1..])
    else if |s| > 1 && !Word(s[1]) then Hyphenate(s[1..])
    else "-" + Hyphenate(s[1..])
  }

  predicate Hyphen(c: char) {
    c == '-'
  }

  function Slugify(name: string, space: char -> bool, lower: char -> string): string {
    var trimmed := TrimEnd(TrimStart(name, space), space);
    TrimEnd(TrimStart(Hyphenate(LowerAll(trimmed, lower)), Hyphen), Hyphen)
  }

  // ---- hyphens stand alone ----

  /** Only word characters and hyphens, and no two hyphens in a row. */
  predicate Single(s: string) {
    && (forall i | 0 <= i < |s| :: 'a' <= s[i] <= 'z' || '0' <= s[i] <= '9' || s[i] == '-')
    && (forall i | 0 <= i < |s| - 1 :: Word(s[i]) || Word(s[i + 1]))
  }

  lemma {:induction false} HyphenateSingle(s: string)
    ensures Single(Hyphenate(s))
    ensures Hyphenate(s) != [] && Hyphenate(s)[0] == '-' ==> !Word(s[0])
  {
    if s != [] {
      HyphenateSingle(s[1..]);
      var rest := Hyphenate(s[1..]);
      var r := Hyphenate(s);
      if Word(s[0]) || !(|s| > 1 && !Word(s[1])) {
        assert r[1..] == rest;
        forall i | 0 <= i < |r| - 1 ensures Word(r[i]) || Word(r[i + 1]) {
          if i > 0 {
            assert r[i] == rest[i - 1] && r[i + 1] == rest[i];
          }
        }
      }
    }
  }

  lemma {:induction false} TrimKeepsSingle(s: string)
    requires Single(s)
    ensures var r := TrimEnd(TrimStart(s, Hyphen), Hyphen);
            Single(r) && (r != [] ==> Word(r[0]) && Word(r[|r| - 1]))
  {
    StartTrimmed(s);
    EndTrimmed(TrimStart(s, Hyphen));
  }

  lemma {:induction false} StartTrimmed(s: string)
    requires Single(s)
    ensures var r := TrimStart(s, Hyphen); Single(r) && (r != [] ==> Word(r[0]))
  {
    if s != [] && Hyphen(s[0]) {
      StartTrimmed(s[1..]);
    }
  }

  lemma {:induction false} EndTrimmed(s: string)
    requires Single(s) && (s != [] ==> Word(s[0]))
    ensures var r := TrimEnd(s, Hyphen); Single(r) && (r != [] ==> Word(r[0]) && Word(r[|r| - 1]))
    decreases |s|
  {
    if s != [] && Hyphen(s[|s| - 1]) {
      EndTrimmed(s[..|s| - 1]);
    }
  }

  /** Lone hyphens strictly inside: exactly what the pattern accepts. */
  lemma {:induction false} PatternExactly(s: string)
    ensures MatchesFromWord(s) <==> s != [] && Single(s) && Word(s[0]) && Word(s[|s| - 1])
    decreases |s|, 1
  {
    if s != [] {
      AfterWordExactly(s[1..]);
      SingleStep(s);
    }
  }

  lemma {:induction false} AfterWordExactly(s: string)
    ensures MatchesAfterWord(s) <==> s == [] || (Single(s) && Word(s[|s| - 1]))
    decreases |s|, 0
  {
    if s != [] {
      SingleStep(s);
      if Word(s[0]) {
        AfterWordExactly(s[1..]);
      } else if s[0] == '-' {
        PatternExactly(s[1..]);
      }
    }
  }

  lemma SingleStep(s: string)
    requires s != []
    ensures Single(s) <==> (Word(s[0]) || s[0] == '-') && Single(s[1..])
                           && (|s| > 1 ==> Word(s[0]) || Word(s[1]))
  {
    var rest := s[1..];
    if Single(s) {
      forall i | 0 <= i < |rest| ensures Word(rest[i]) || rest[i] == '-' {
        assert rest[i] == s[i + 1];
      }
      forall i | 0 <= i < |rest| - 1 ensures Word(rest[i]) || Word(rest[i + 1]) {
        assert rest[i] == s[i + 1] && rest[i + 1] == s[i + 2];
      }
    }
    if (Word(s[0]) || s[0] == '-') && Single(rest) && (|s| > 1 ==> Word(s[0]) || Word(s[1])) {
      forall i | 0 <= i < |s| ensures Word(s[i]) || s[i] == '-' {
        assert i > 0 ==> s[i] == rest[i - 1];
      }
      forall i | 0 <= i < |s| - 1 ensures Word(s[i]) || Word(s[i + 1]) {
        assert i > 0 ==> s[i] == rest[i - 1] && s[i + 1] == rest[i];
      }
    }
  }

  /** Whatever the name, the generated slug is empty or one the API accepts. */
  lemma SlugIsValid(name: string, space: char -> bool, lower: char -> string)
    ensures var slug := Slugify(name, space, lower); slug == [] || MatchesFromWord(slug)
  {
    var trimmed := TrimEnd(TrimStart(name, space), space);
    HyphenateSingle(LowerAll(trimmed, lower));
    TrimKeepsSingle(Hyphenate(LowerAll(trimmed, lower)));
    PatternExactly(Slugify(name, space, lower));
  }

  // ---- what a slug keeps of the name ----

  /** The word characters of a string, in order. */
  function Letters(s: string): string {
    if s == [] then [] else if Word(s[0]) then [s[0]] + Letters(s[1..]) else Letters(s[1..])
  }

  lemma {:induction false} LettersSplit(a: string, b: string)
    ensures Letters(a + b) == Letters(a) + Letters(b)
  {
    if a == [] {
      assert a + b == b;
    } else {
      LettersSplit(a[1..], b);
      var rest, tail := Letters(a[1..]), Letters(b);
      assert Letters(a + b) == (if Word(a[0]) then [a[0]] + (rest + tail) else rest + tail) by {
        assert (a + b)[1..] == a[1..] + b;
      }
    }
  }

  lemma {:induction false} HyphenateKeepsLetters(s: string)
    ensures Letters(Hyphenate(s)) == Letters(s)
  {
    if s != [] {
      HyphenateKeepsLetters(s[1..]);
      var rest := Hyphenate(s[1..]);
      assert ([s[0]] + rest)[1..] == rest && ("-" + rest)[1..] == rest;
    }
  }

  lemma {:induction false} TrimStartKeepsLetters(s: string, p: char -> bool)
    requires forall c | p(c) :: !Word(c)
    ensures Letters(TrimStart(s, p)) == Letters(s)
  {
    if s != [] && p(s[0]) {
      TrimStartKeepsLetters(s[1..], p);
    }
  }

  lemma {:induction false} TrimEndKeepsLetters(s: string, p: char -> bool)
    requires forall c | p(c) :: !Word(c)
    ensures Letters(TrimEnd(s, p)) == Letters(s)
    decreases |s|
  {
    if s != [] && p(s[|s| - 1]) {
      var n := |s| - 1;
      TrimEndKeepsLetters(s[..n], p);
      LettersSplit(s[..n], [s[n]]);
      assert s == s[..n] + [s[n]];
    }
  }

  /** Lower-casing and trimming commute, as white space has no letters. */
  lemma {:induction false} TrimThenLower(s: string, space: char -> bool, lower: char -> string)
    requires forall c | space(c) :: Letters(lower(c)) == []
    ensures Letters(LowerAll(TrimStart(s, space), lower)) == Letters(LowerAll(s, lower))
  {
    if s != [] && space(s[0]) {
      TrimThenLower(s[1..], space, lower);
      LettersSplit(lower(s[0]), LowerAll(s[1..], lower));
    }
  }

  lemma {:induction false} LowerSplit(a: string, b: string, lower: char -> string)
    ensures LowerAll(a + b, lower) == LowerAll(a, lower) + LowerAll(b, lower)
  {
    if a == [] {
      assert a + b == b;
    } else {
      LowerSplit(a[1..], b, lower);
      assert LowerAll(a + b, lower) == lower(a[0]) + (LowerAll(a[1..], lower) + LowerAll(b, lower)) by {
        assert (a + b)[1..] == a[1..] + b;
      }
    }
  }

  lemma {:induction false} TrimEndThenLower(s: string, space: char -> bool, lower: char -> string)
    requires forall c | space(c) :: Letters(lower(c)) == []
    ensures Letters(LowerAll(TrimEnd(s, space), lower)) == Letters(LowerAll(s, lower))
    decreases |s|
  {
    if s != [] && space(s[|s| - 1]) {
      var n := |s| - 1;
      TrimEndThenLower(s[..n], space, lower);
      assert s == s[..n] + [s[n]];
      LowerSplit(s[..n], [s[n]], lower);
      assert LowerAll([s[n]], lower) == lower(s[n]) + LowerAll([], lower) == lower(s[n]);
      LettersSplit(LowerAll(s[..n], lower), lower(s[n]));
    }
  }

  /** The slug has exactly the letters and digits of the lower-cased name, in order. */
  lemma {:induction false} SlugKeepsLetters(name: string, space: char -> bool, lower: char -> string)
    requires forall c | space(c) :: Letters(lower(c)) == []
    ensures Letters(Slugify(name, space, lower)) == Letters(LowerAll(name, lower))
  {
    var trimmed := TrimEnd(TrimStart(name, space), space);
    TrimThenLower(name, space, lower);
    TrimEndThenLower(TrimStart(name, space), space, lower);
    var hyphened := Hyphenate(LowerAll(trimmed, lower));
    HyphenateKeepsLetters(LowerAll(trimmed, lower));
    TrimStartKeepsLetters(hyphened, Hyphen);
    TrimEndKeepsLetters(TrimStart(hyphened, Hyphen), Hyphen);
  }

  /** And words stay apart: what stands between two of them becomes one hyphen. */
  lemma WordsStayApart(a: string, gap: string, b: string)
    requires a != [] && Word(a[|a| - 1]) && b != [] && Word(b[0])
    requires gap != [] && forall i | 0 <= i < |gap| :: !Word(gap[i])
    ensures Hyphenate(a + gap + b) == Hyphenate(a) + "-" + Hyphenate(b)
  {
    GapIsHyphen(gap, b);
    HyphenateAppend(a, gap + b);
    assert a + gap + b == a + (gap + b);
    Joined(Hyphenate(a), "-", Hyphenate(b));
  }

  lemma Joined(a: string, b: string, c: string)
    ensures a + b + c == a + (b + c)
  {
  }

  lemma {:induction false} HyphenateAppend(a: string, rest: string)
    requires a != [] && Word(a[|a| - 1])
    ensures Hyphenate(a + rest) == Hyphenate(a) + Hyphenate(rest)
    decreases |a|
  {
    if |a| == 1 {
      assert (a + rest)[1..] == rest && a[1..] == [];
    } else {
      HyphenateAppend(a[1..], rest);
      var c := a[0];
      var head := if Word(c) then [c] else if Word(a[1]) then "-" else [];
      HyphenateCons(a, head);
      HyphenateCons(a + rest, head);
      assert (a + rest)[1..] == a[1..] + rest;
      Joined(head, Hyphenate(a[1..]), Hyphenate(rest));
    }
  }

  /** What the first of several characters adds. */
  lemma HyphenateCons(s: string, head: string)
    requires |s| > 1 && head == if Word(s[0]) then [s[0]] else if Word(s[1]) then "-" else []
    ensures Hyphenate(s) == head + Hyphenate(s[1..])
  {
  }

  lemma {:induction false} GapIsHyphen(gap: string, b: string)
    requires b != [] && Word(b[0])
    requires gap != [] && forall i | 0 <= i < |gap| :: !Word(gap[i])
    ensures Hyphenate(gap + b) == "-" + Hyphenate(b)
    decreases |gap|
  {
    var s := gap + b;
    assert s[1..] == gap[1..] + b;
    if |gap| == 1 {
      assert gap[1..] + b == b;
    } else {
      assert s[1] == gap[1];
      GapIsHyphen(gap[1..], b);
    }
  }

  // ---- accepted slugs are fixed points ----

  /** Slug characters are their own lower case and are not white space. */
  ghost predicate Ordinary(space: char -> bool, lower: char -> string) {
    forall c | Word(c) || c == '-' :: !space(c) && lower(c) == [c]
  }

  lemma {:induction false} LowerFixes(s: string, space: char -> bool, lower: char -> string)
    requires Ordinary(space, lower) && Single(s)
    ensures LowerAll(s, lower) == s
  {
    if s != [] {
      SingleStep(s);
      LowerFixes(s[1..], space, lower);
    }
  }

  lemma {:induction false} HyphenateFixes(s: string)
    requires Single(s)
    ensures Hyphenate(s) == s
  {
    if s != [] {
      SingleStep(s);
      HyphenateFixes(s[1..]);
    }
  }

  /** A slug the API accepts is left as it is, so generating is idempotent. */
  lemma {:induction false} ValidSlugIsFixed(s: string, space: char -> bool, lower: char -> string)
    requires Ordinary(space, lower) && MatchesFromWord(s)
    ensures Slugify(s, space, lower) == s
  {
    PatternExactly(s);
    LowerFixes(s, space, lower);
    HyphenateFixes(s);
  }
}
