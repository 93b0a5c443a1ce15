/**
 Blog slugs: NormalizeSlug as it is computed, what it computes, and the pattern it is
 meant to satisfy. Text is a sequence of runes. The Unicode tables beyond ASCII are the
 parameters `fold` (lower case) and `blank` (white space).
 */
module Slug {
  import opened Prelude

  type Word = string

  predicate Alphanumeric(c: char) {
    'a' <= c <= 'z' || '0' <= c <= '9'
  }

  predicate SlugChar(c: char) {
    Alphanumeric(c) || c == '-'
  }

  function Lower(c: char, fold: char -> char): char {
    if 'A' <= c <= 'Z' then c - 'A' + 'a'
    else if c as int < 128 then c
    else fold(c)
  }

  predicate Space(c: char, blank: char -> bool) {
    if c as int < 128 then c == ' ' || 9 <= c as int <= 13 else blank(c)
  }

  function Lowered(s: string, fold: char -> char): (r: string)
    ensures |r| == |s| && forall i :: 0 <= i < |s| ==> r[i] == Lower(s[i], fold)
  {
    if s == "" then "" else [Lower(s[0], fold)] + Lowered(s[1..], fold)
  }

  /** strings.ReplaceAll for one rune. */
  function ReplaceRune(s: string, from: char, to: char): (r: string)
    ensures |r| == |s|
  {
    if s == "" then "" else [if s[0] == from then to else s[0]] + ReplaceRune(s[1..], from, to)
  }

  function TrimLeft(s: string, cut: char -> bool): string {
    if s != "" && cut(s[0]) then TrimLeft(s[1..], cut) else s
  }

  function TrimRight(s: string, cut: char -> bool): string {
    if s != "" && cut(s[|s| - 1]) then TrimRight(s[..|s| - 1], cut) else s
  }

  function Trim(s: string, cut: char -> bool): string {
    TrimRight(TrimLeft(s, cut), cut)
  }

  predicate HasDouble(s: string) {
    exists i :: 0 <= i < |s| - 1 && s[i] == '-' && s[i + 1] == '-'
  }

  /** strings.ReplaceAll(s, "--", "-"): matches from the left, never overlapping. */
  function ReplaceDoubles(s: string): string {
    if |s| < 2 then s
    else if s[0] == '-' && s[1] == '-' then "-" + ReplaceDoubles(s[2..])
    else [s[0]] + ReplaceDoubles(s[1..])
  }

  /** Puts c in front, unless that would double a hyphen. */
  function Prepend(c: char, s: string): string {
    if c == '-' && s != "" && s[0] == '-' then s else [c] + s
  }

  /** Every run of hyphens becomes one hyphen, in one pass. */
  function Collapse(s: string): (r: string)
    ensures s == "" <==> r == ""
    ensures s != "" ==> r[0] == s[0]
  {
    if s == "" then "" else Prepend(s[0], Collapse(s[1..]))
  }

  predicate HyphenFree(words: seq<Word>) {
    forall i :: 0 <= i < |words| ==> words[i] != "" && '-' !in words[i]
  }

  /** The maximal hyphen-free stretches. */
  function Words(s: string): (r: seq<Word>)
    ensures HyphenFree(r)
    ensures s != "" && s[0] != '-' ==> r != [] && r[0] != "" && r[0][0] == s[0]
  {
    if s == "" then []
    else if s[0] == '-' then Words(s[1..])
    else if |s| == 1 || s[1] == '-' then [[s[0]]] + Words(s[1..])
    else var rest := Words(s[1..]); [[s[0]] + rest[0]] + rest[1..]
  }

  function Join(words: seq<Word>): string {
    if words == [] then ""
    else if |words| == 1 then words[0]
    else words[0] + "-" + Join(words[1..])
  }

  // ---- The pattern ----

  predicate AlphanumericWord(w: Word) {
    w != "" && forall c :: c in w ==> Alphanumeric(c)
  }

  predicate AlphanumericWords(words: seq<Word>) {
    forall i :: 0 <= i < |words| ==> AlphanumericWord(words[i])
  }

  /** ^[a-z0-9]+(?:-[a-z0-9]+)*$ */
  ghost predicate MatchesSlugRegex(s: string) {
    exists words :: words != [] && AlphanumericWords(words) && s == Join(words)
  }

  lemma {:induction false} WordsOfWord(w: Word, rest: string)
    requires w != "" && '-' !in w
    requires rest == "" || rest[0] == '-'
    ensures Words(w + rest) == [w] + Words(rest)
  {
    assert (w + rest)[1..] == w[1..] + rest;
    if |w| == 1 {
      assert w == [w[0]] && w[1..] + rest == rest;
      assert rest == "" ==> w + rest == w;
    } else {
      assert w[1] in w;
      WordsOfWord(w[1..], rest);
      assert [w[0]] + w[1..] == w;
    }
  }

  /** Splitting undoes joining. */
  lemma {:induction false} WordsOfJoin(words: seq<Word>)
    requires HyphenFree(words)
    ensures Words(Join(words)) == words
  {
    if |words| == 1 {
      WordsOfWord(words[0], "");
      assert words[0] + "" == words[0];
    } else if words != [] {
      var rest := "-" + Join(words[1..]);
      assert Join(words) == words[0] + rest;
      WordsOfWord(words[0], rest);
      assert rest[1..] == Join(words[1..]);
      WordsOfJoin(words[1..]);
    }
  }

  /** The pattern read locally: slug characters only, no hyphen first, last or doubled. */
  predicate LocallySlug(s: string) {
    s != "" && (forall c :: c in s ==> SlugChar(c)) && s[0] != '-' && s[|s| - 1] != '-' && !HasDouble(s)
  }

  lemma {:induction false} JoinIsLocallySlug(words: seq<Word>)
    requires words != [] && AlphanumericWords(words)
    ensures LocallySlug(Join(words))
  {
    var w := words[0];
    assert AlphanumericWord(w) && w[0] in w && w[|w| - 1] in w;
    assert forall i :: 0 <= i < |w| ==> w[i] in w;
    if |words| > 1 {
      var s, rest := Join(words), Join(words[1..]);
      JoinIsLocallySlug(words[1..]);
      assert s == w + "-" + rest;
      forall c | c in s ensures SlugChar(c) {
        assert c in w || c == '-' || c in rest;
      }
      forall i | 0 <= i < |s| - 1 ensures !(s[i] == '-' && s[i + 1] == '-') {
        if i < |w| {
          assert s[i] == w[i];
        } else {
          assert s[i + 1] == rest[i - |w|];
          assert i > |w| ==> s[i] == rest[i - |w| - 1];
        }
      }
    }
  }

  lemma {:induction false} LocallySlugCollapses(s: string)
    requires !HasDouble(s)
    ensures Collapse(s) == s
  {
    if |s| > 0 {
      forall i | 0 <= i < |s[1..]| - 1 ensures !(s[1..][i] == '-' && s[1..][i + 1] == '-') {
        assert s[1..][i] == s[i + 1] && s[1..][i + 1] == s[i + 2];
      }
      LocallySlugCollapses(s[1..]);
      assert [s[0]] + s[1..] == s;
    }
  }

  // ---- The replacement loop ----

  lemma {:induction false} ReplaceDoublesShrinks(s: string)
    ensures |ReplaceDoubles(s)| <= |s|
    ensures HasDouble(s) ==> |ReplaceDoubles(s)| < |s|
  {
    if |s| >= 2 {
      if s[0] == '-' && s[1] == '-' {
        ReplaceDoublesShrinks(s[2..]);
      } else {
        ReplaceDoublesShrinks(s[1..]);
        if i :| 0 <= i < |s| - 1 && s[i] == '-' && s[i + 1] == '-' {
          assert s[1..][i - 1] == '-' && s[1..][i] == '-';
        }
      }
    }
  }

  lemma {:induction false} ReplaceDoublesKeepsCollapse(s: string)
    ensures Collapse(ReplaceDoubles(s)) == Collapse(s)
  {
    if |s| >= 2 {
      if s[0] == '-' && s[1] == '-' {
        var t := ReplaceDoubles(s[2..]);
        assert s[1..][1..] == s[2..];
        ReplaceDoublesKeepsCollapse(s[2..]);
        assert ("-" + t)[1..] == t;
      } else {
        var t := ReplaceDoubles(s[1..]);
        ReplaceDoublesKeepsCollapse(s[1..]);
        assert ([s[0]] + t)[1..] == t;
      }
    }
  }

  // ---- What the last two steps leave ----

  predicate Hyphen(c: char) {
    c == '-'
  }

  function Mark(here: bool): string {
    if here then "-" else ""
  }

  lemma {:induction false} JoinEnds(words: seq<Word>)
    requires words != [] && HyphenFree(words)
    ensures Join(words) != "" && Join(words)[0] == words[0][0] != '-' && Join(words)[|Join(words)| - 1] != '-'
  {
    var w := words[0];
    assert w[0] in w && w[|w| - 1] in w;
    if |words| > 1 {
      JoinEnds(words[1..]);
    }
  }

  lemma WordsStep(c: char, t: string)
    requires c != '-'
    ensures t != "" && t[0] != '-' ==> Words(t) != [] && Words([c] + t) == [[c] + Words(t)[0]] + Words(t)[1..]
    ensures !(t != "" && t[0] != '-') ==> Words([c] + t) == [[c]] + Words(t)
  {
    assert ([c] + t)[1..] == t;
  }

  /** How a rune other than a hyphen in front changes the joined words. */
  lemma JoinWordsStep(c: char, t: string)
    requires c != '-'
    ensures Join(Words([c] + t)) == [c] + Mark(t != "" && t[0] == '-' && Words(t) != []) + Join(Words(t))
  {
  }

  /** Text without a hyphen at either end or doubled is its own words, joined. */
  lemma {:induction false} TidyIsJoined(s: string)
    requires !HasDouble(s) && (s != "" ==> s[0] != '-' && s[|s| - 1] != '-')
    ensures Join(Words(s)) == s
  {
    if s != "" {
      var t := s[1..];
      assert s == [s[0]] + t;
      JoinWordsStep(s[0], t);
      if t != "" && t[0] == '-' {
        var v := t[1..];
        assert t == "-" + v && Words(t) == Words(v);
        NoDoubleInside(s, 2);
        assert v != "" && v[0] != '-';
        TidyIsJoined(v);
      } else {
        NoDoubleInside(s, 1);
        TidyIsJoined(t);
      }
    }
  }

  lemma NoDoubleInside(s: string, from: nat)
    requires !HasDouble(s) && from <= |s|
    ensures !HasDouble(s[from..])
  {
  }

  /** Collapsing keeps the words and leaves no double hyphen. */
  lemma {:induction false} CollapseKeepsWords(s: string)
    ensures Words(Collapse(s)) == Words(s) && !HasDouble(Collapse(s))
  {
    if s != "" {
      var t, u := s[1..], Collapse(s[1..]);
      CollapseKeepsWords(t);
      assert s == [s[0]] + t;
      assert ([s[0]] + u)[1..] == u;
      if s[0] != '-' {
        WordsStep(s[0], t);
        WordsStep(s[0], u);
      }
      PrependAddsNoDouble(s[0], u);
    }
  }

  lemma PrependAddsNoDouble(c: char, u: string)
    requires !HasDouble(u)
    ensures !HasDouble(Prepend(c, u))
  {
  }

  lemma {:induction false} TrimLeftKeepsWords(s: string)
    requires !HasDouble(s)
    ensures var t := TrimLeft(s, Hyphen);
            Words(t) == Words(s) && !HasDouble(t) && (t != "" ==> t[0] != '-')
  {
  }

  lemma {:induction false} TrimRightKeepsWords(s: string)
    requires !HasDouble(s) && (s != "" ==> s[0] != '-')
    ensures var t := TrimRight(s, Hyphen);
            Words(t) == Words(s) && !HasDouble(t) && (t != "" ==> t[0] != '-' && t[|t| - 1] != '-')
  {
    if s != "" && s[|s| - 1] == '-' {
      var t := s[..|s| - 1];
      assert s == t + "-";
      WordsBeforeHyphen(t);
      forall i | 0 <= i < |t| - 1 ensures !(t[i] == '-' && t[i + 1] == '-') {
        assert t[i] == s[i] && t[i + 1] == s[i + 1];
      }
      TrimRightKeepsWords(t);
    }
  }

  /** Collapsing and trimming together leave the words, joined by single hyphens. */
  lemma TrimCollapseIsJoin(s: string)
    ensures Trim(Collapse(s), Hyphen) == Join(Words(s))
  {
    CollapseKeepsWords(s);
    TrimLeftKeepsWords(Collapse(s));
    TrimRightKeepsWords(TrimLeft(Collapse(s), Hyphen));
    TidyIsJoined(Trim(Collapse(s), Hyphen));
  }

  // ---- The first steps ----

  function Kept(s: string): string {
    Select(ReplaceRune(ReplaceRune(s, ' ', '-'), '_', '-'), SlugChar)
  }

  lemma {:induction false} ReplaceRuneAppend(a: string, b: string, from: char, to: char)
    ensures ReplaceRune(a + b, from, to) == ReplaceRune(a, from, to) + ReplaceRune(b, from, to)
  {
    if a == "" {
      assert a + b == b;
    } else {
      assert (a + b)[1..] == a[1..] + b;
      ReplaceRuneAppend(a[1..], b, from, to);
    }
  }

  lemma KeptAppend(a: string, b: string)
    ensures Kept(a + b) == Kept(a) + Kept(b)
  {
    ReplaceRuneAppend(a, b, ' ', '-');
    ReplaceRuneAppend(ReplaceRune(a, ' ', '-'), ReplaceRune(b, ' ', '-'), '_', '-');
    SelectAppend(ReplaceRune(ReplaceRune(a, ' ', '-'), '_', '-'), ReplaceRune(ReplaceRune(b, ' ', '-'), '_', '-'), SlugChar);
  }

  lemma KeptOne(c: char)
    ensures Kept([c]) == if c == ' ' || c == '_' then "-" else if SlugChar(c) then [c] else ""
  {
  }

  lemma {:induction false} WordsBeforeHyphen(s: string)
    ensures Words(s + "-") == Words(s)
  {
    if s == "" {
      assert s + "-" == "-" && "-"[1..] == "";
    } else {
      assert (s + "-")[1..] == s[1..] + "-";
      WordsBeforeHyphen(s[1..]);
    }
  }

  /** A space at either end adds no word. */
  lemma SpaceAddsNoWord(c: char, s: string, blank: char -> bool)
    requires Space(c, blank)
    ensures Words(Kept([c] + s)) == Words(Kept(s)) == Words(Kept(s + [c]))
  {
    KeptAppend([c], s);
    KeptAppend(s, [c]);
    KeptOne(c);
    if c == ' ' {
      assert ("-" + Kept(s))[1..] == Kept(s);
      WordsBeforeHyphen(Kept(s));
    } else {
      assert "" + Kept(s) == Kept(s) == Kept(s) + "";
    }
  }

  lemma {:induction false} TrimLeftAddsNoWord(s: string, blank: char -> bool)
    ensures Words(Kept(TrimLeft(s, c => Space(c, blank)))) == Words(Kept(s))
  {
    if s != "" && Space(s[0], blank) {
      TrimLeftAddsNoWord(s[1..], blank);
      SpaceAddsNoWord(s[0], s[1..], blank);
      assert s == [s[0]] + s[1..];
    }
  }

  lemma {:induction false} TrimRightAddsNoWord(s: string, blank: char -> bool)
    ensures Words(Kept(TrimRight(s, c => Space(c, blank)))) == Words(Kept(s))
  {
    if s != "" && Space(s[|s| - 1], blank) {
      TrimRightAddsNoWord(s[..|s| - 1], blank);
      SpaceAddsNoWord(s[|s| - 1], s[..|s| - 1], blank);
      assert s == s[..|s| - 1] + [s[|s| - 1]];
    }
  }

  /** TrimSpace makes no difference: the hyphens and dropped runes it saves go later anyway. */
  lemma TrimSpaceIsRedundant(s: string, blank: char -> bool)
    ensures Words(Kept(Trim(s, c => Space(c, blank)))) == Words(Kept(s))
  {
    TrimLeftAddsNoWord(s, blank);
    TrimRightAddsNoWord(TrimLeft(s, c => Space(c, blank)), blank);
  }

  // ---- NormalizeSlug ----

  method KeepSlugRunes(s: string) returns (built: string)
    ensures built == Select(s, SlugChar)
  {
    built := "";
    for i := 0 to |s|
      invariant built == Select(s[..i], SlugChar)
    {
      assert s[..i + 1] == s[..i] + [s[i]];
      SelectAppend(s[..i], [s[i]], SlugChar);
      if SlugChar(s[i]) {
        built := built + [s[i]];
      }
    }
    assert s[..|s|] == s;
  }

  /** The replacement loop ends, and has then done what one pass does. */
  method CollapseHyphens(s: string) returns (r: string)
    ensures r == Collapse(s) && !HasDouble(r)
  {
    r := s;
    while HasDouble(r)
      invariant Collapse(r) == Collapse(s)
      decreases |r|
    {
      ReplaceDoublesShrinks(r);
      ReplaceDoublesKeepsCollapse(r);
      r := ReplaceDoubles(r);
    }
    LocallySlugCollapses(r);
  }

  /** The alphanumeric words of the text, joined by single hyphens. */
  function SlugOf(s: string, fold: char -> char): string {
    Join(Words(Kept(Lowered(s, fold))))
  }

  method NormalizeSlug(s: string, fold: char -> char, blank: char -> bool) returns (r: string)
    ensures r == SlugOf(s, fold)
  {
    r := Lowered(s, fold);
    TrimSpaceIsRedundant(r, blank);
    r := Trim(r, c => Space(c, blank));
    r := ReplaceRune(r, ' ', '-');
    r := ReplaceRune(r, '_', '-');
    r := KeepSlugRunes(r);
    TrimCollapseIsJoin(r);
    r := CollapseHyphens(r);
    r := Trim(r, Hyphen);
  }

  // ---- What normalisation promises ----

  lemma {:induction false} WordsKeepRunes(s: string)
    ensures Select(Join(Words(s)), Alphanumeric) == Select(s, Alphanumeric)
  {
    if s != "" {
      var t := s[1..];
      WordsKeepRunes(t);
      assert s == [s[0]] + t;
      SelectAppend([s[0]], t, Alphanumeric);
      if s[0] != '-' {
        JoinWordsStep(s[0], t);
        var mark := Mark(t != "" && t[0] == '-' && Words(t) != []);
        SelectAppend([s[0]] + mark, Join(Words(t)), Alphanumeric);
        SelectAppend([s[0]], mark, Alphanumeric);
      }
    }
  }

  lemma {:induction false} WordsAreAlphanumeric(s: string)
    requires forall c :: c in s ==> SlugChar(c)
    ensures AlphanumericWords(Words(s))
  {
    if s != "" {
      assert s[0] in s;
      WordsAreAlphanumeric(s[1..]);
    }
  }

  lemma {:induction false} KeptKeepsRunes(s: string)
    ensures Select(Kept(s), Alphanumeric) == Select(s, Alphanumeric)
  {
    if s != "" {
      KeptKeepsRunes(s[1..]);
      KeptAppend([s[0]], s[1..]);
      KeptOne(s[0]);
      assert s == [s[0]] + s[1..];
      SelectAppend(Kept([s[0]]), Kept(s[1..]), Alphanumeric);
      SelectAppend([s[0]], s[1..], Alphanumeric);
    }
  }

  /** The letters and digits of the lowered text survive, all of them and in order. */
  lemma SlugKeepsLettersAndDigits(s: string, fold: char -> char)
    ensures Select(SlugOf(s, fold), Alphanumeric) == Select(Lowered(s, fold), Alphanumeric)
  {
    WordsKeepRunes(Kept(Lowered(s, fold)));
    KeptKeepsRunes(Lowered(s, fold));
  }

  /** A text matches the pattern exactly when it is locally well formed. */
  lemma PatternIsLocal(s: string)
    ensures MatchesSlugRegex(s) <==> LocallySlug(s)
  {
    if words: seq<Word> :| words != [] && AlphanumericWords(words) && s == Join(words) {
      JoinIsLocallySlug(words);
    }
    if LocallySlug(s) {
      TidyIsJoined(s);
      WordsAreAlphanumeric(s);
      assert Words(s) != [] by { assert Join([]) == ""; }
    }
  }

  /** The result is a valid slug, unless the text lowers to no letter or digit: then it is empty. */
  lemma SlugIsValidOrEmpty(s: string, fold: char -> char)
    ensures MatchesSlugRegex(SlugOf(s, fold)) || SlugOf(s, fold) == ""
    ensures MatchesSlugRegex(SlugOf(s, fold)) <==> exists c :: c in Lowered(s, fold) && Alphanumeric(c)
  {
    var kept := Kept(Lowered(s, fold));
    var words := Words(kept);
    WordsAreAlphanumeric(kept);
    SlugKeepsLettersAndDigits(s, fold);
    if words == [] {
      assert SlugOf(s, fold) == "";
      forall c | c in Lowered(s, fold) ensures !Alphanumeric(c) {
        SelectMembers(Lowered(s, fold), Alphanumeric);
      }
      assert !LocallySlug("");
      PatternIsLocal("");
    } else {
      var c := words[0][0];
      assert AlphanumericWord(words[0]) && c in words[0];
      assert Join(words)[0] == c && Alphanumeric(c) by { JoinEnds(words); }
      assert Select(SlugOf(s, fold), Alphanumeric) != [];
      var x := Select(Lowered(s, fold), Alphanumeric)[0];
      SelectMembers(Lowered(s, fold), Alphanumeric);
    }
  }

  lemma {:induction false} SlugCharsSurvive(s: string, fold: char -> char)
    requires forall c :: c in s ==> SlugChar(c)
    ensures Kept(Lowered(s, fold)) == s
  {
    if s != "" {
      assert s[0] in s;
      assert s == [s[0]] + s[1..];
      SlugCharsSurvive(s[1..], fold);
      KeptAppend([s[0]], Lowered(s[1..], fold));
      KeptOne(s[0]);
    }
  }

  /** Valid slugs, and no other texts but the empty one, are left as they are. */
  lemma SlugFixpoints(s: string, fold: char -> char)
    ensures SlugOf(s, fold) == s <==> s == "" || MatchesSlugRegex(s)
  {
    SlugIsValidOrEmpty(s, fold);
    if MatchesSlugRegex(s) {
      PatternIsLocal(s);
      var words: seq<Word> :| words != [] && AlphanumericWords(words) && s == Join(words);
      forall i | 0 <= i < |words| ensures words[i] != "" && '-' !in words[i] {
        assert AlphanumericWord(words[i]);
      }
      SlugCharsSurvive(s, fold);
      WordsOfJoin(words);
    }
  }

  /** Normalising twice is normalising once, whatever the Unicode tables say. */
  lemma SlugIsIdempotent(s: string, fold: char -> char, later: char -> char)
    ensures SlugOf(SlugOf(s, fold), later) == SlugOf(s, fold)
  {
    SlugIsValidOrEmpty(s, fold);
    SlugFixpoints(SlugOf(s, fold), later);
  }
}
