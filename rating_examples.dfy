/** What the rating extractor of the finalize step returns for some final texts: a
    labelled rating, one of the "out of ten" forms, the last standalone number, and no
    rating at all.  Each text is a constant and each step of the extraction a lemma. */
module RatingExamples {
  import opened Wrappers
  import opened Text
  import opened RatingExtractor

  /** A character that is not a letter is the lower case of itself only. */
  lemma SymbolAbsent(t: string, c: char)
    requires c !in t
    requires !('a' <= c <= 'z') && c != '\U{E7}' && c != '\U{E3}'
    ensures forall j :: 0 <= j < |t| ==> LowerChar(t[j]) != c
  {
    forall j | 0 <= j < |t|
      ensures LowerChar(t[j]) != c
    {
      assert t[j] in t;
    }
  }

  /** A lower-case ASCII letter is the lower case of itself and of its capital only. */
  lemma LetterAbsent(t: string, c: char, upper: char)
    requires 'a' <= c <= 'z' && upper as int == c as int - 32 && c !in t && upper !in t
    ensures forall j :: 0 <= j < |t| ==> LowerChar(t[j]) != c
  {
    forall j | 0 <= j < |t|
      ensures LowerChar(t[j]) != c
    {
      assert t[j] in t;
    }
  }

  /** The literal at index `k` of `p` holds `c` at index `n`. */
  lemma NeedsAt(p: Pattern, k: nat, c: char, n: nat)
    requires k < |p| && p[k].Word? && n < |p[k].w| && p[k].w[n] == c
    ensures Needs(p, c)
  {
    assert c in p[k].w;
  }

  /** A pattern that matches at the start of the text gives its group there. */
  lemma MatchAtStart(p: Pattern, t: string, g: string)
    requires MatchAt(p, t, 0) == Some(g)
    ensures Group(p, t) == Some(g)
  {
  }

  /** A pattern with no match passes the choice on to the next one. */
  lemma Unmatched(ps: seq<Pattern>, t: string, k: nat)
    requires k < |ps| && Group(ps[k], t).None?
    ensures FirstLabelled(ps, t, k) == FirstLabelled(ps, t, k + 1)
  {
  }

  /** A text without a colon holds none of the four labels. */
  lemma NoLabel(t: string)
    requires ':' !in t
    ensures forall m :: 0 <= m < 4 ==> Group(Patterns[m], t).None?
  {
    SymbolAbsent(t, ':');
    forall m | 0 <= m < 4
      ensures Group(Patterns[m], t).None?
    {
      NeedsAt(Patterns[m], 0, ':', |Patterns[m][0].w| - 1);
      AbsentChar(Patterns[m], t, ':');
    }
  }

  /** A text without a `v` holds no "avaliação:". */
  lemma NoAvaliacao(t: string)
    requires 'v' !in t && 'V' !in t
    ensures Group(Patterns[0], t).None?
  {
    LetterAbsent(t, 'v', 'V');
    NeedsAt(Patterns[0], 0, 'v', 1);
    AbsentChar(Patterns[0], t, 'v');
  }

  /** A text without an `r` holds no "rating:". */
  lemma NoRatingLabel(t: string)
    requires 'r' !in t && 'R' !in t
    ensures Group(Patterns[1], t).None?
  {
    LetterAbsent(t, 'r', 'R');
    NeedsAt(Patterns[1], 0, 'r', 0);
    AbsentChar(Patterns[1], t, 'r');
  }

  /** A text without a slash holds no `(\d+)/10`. */
  lemma NoFraction(t: string)
    requires '/' !in t
    ensures Group(Patterns[4], t).None?
  {
    SymbolAbsent(t, '/');
    NeedsAt(Patterns[4], 1, '/', 0);
    AbsentChar(Patterns[4], t, '/');
  }

  /** A text without a `d` holds no `(\d+)\s*de\s*10`. */
  lemma NoDe(t: string)
    requires 'd' !in t && 'D' !in t
    ensures Group(Patterns[5], t).None?
  {
    LetterAbsent(t, 'd', 'D');
    NeedsAt(Patterns[5], 2, 'd', 0);
    AbsentChar(Patterns[5], t, 'd');
  }

  /** A text without the digit 1 holds neither "de 10" nor "out of 10". */
  lemma NoTen(t: string)
    requires '1' !in t
    ensures Group(Patterns[5], t).None? && Group(Patterns[6], t).None?
  {
    SymbolAbsent(t, '1');
    NeedsAt(Patterns[5], 4, '1', 0);
    AbsentChar(Patterns[5], t, '1');
    NeedsAt(Patterns[6], 6, '1', 0);
    AbsentChar(Patterns[6], t, '1');
  }

  /** A text with none of the patterns gets no labelled rating. */
  lemma Unlabelled(t: string)
    requires ':' !in t && '/' !in t && '1' !in t
    ensures Labelled(t) == 0
  {
    NoLabel(t);
    NoFraction(t);
    NoTen(t);
    SkipUnmatched(Patterns, t, 0, |Patterns|);
  }

  /** A text without digits has no token, so the fallback finds nothing. */
  lemma NoTokens(t: string)
    requires forall j :: 0 <= j < |t| ==> !IsDigit(t[j])
    ensures LastStandalone(t) == 0
  {
    RightmostSkip(t, 0, |t|, |t|);
    LastIsRightmost(t);
  }

  // --- "Avaliação: 7": the first label.

  const Avaliacao: string := "Avalia\U{E7}\U{E3}o: 7"

  lemma AvaliacaoLabelTail()
    ensures WordAt(Avaliacao, 5, "a\U{E7}\U{E3}o:")
  {
    assert WordAt(Avaliacao, 8, "o:");
  }

  lemma AvaliacaoLabel()
    ensures WordAt(Avaliacao, 0, "avalia\U{E7}\U{E3}o:")
  {
    AvaliacaoLabelTail();
    assert "avalia\U{E7}\U{E3}o:"[5..] == "a\U{E7}\U{E3}o:";
    assert WordAt(Avaliacao, 3, "lia\U{E7}\U{E3}o:");
  }

  lemma AvaliacaoAfterLabel()
    ensures MatchFrom([Spaces, Number], Avaliacao, 10, []) == Some("7")
  {
    assert SkipSpaces(Avaliacao, 11) == 11;
    assert MatchFrom([Spaces, Number], Avaliacao, 10, []) == MatchFrom([Number], Avaliacao, 11, []);
    assert SkipDigits(Avaliacao, 12) == 12;
    assert Avaliacao[11..12] == "7";
  }

  lemma AvaliacaoGroup()
    ensures Group(Patterns[0], Avaliacao) == Some("7")
  {
    var p := [Word("avalia\U{E7}\U{E3}o:"), Spaces, Number];
    AvaliacaoLabel();
    assert p[1..] == [Spaces, Number];
    assert MatchAt(p, Avaliacao, 0) == MatchFrom([Spaces, Number], Avaliacao, 10, []);
    AvaliacaoAfterLabel();
    assert Patterns[0] == p;
    MatchAtStart(Patterns[0], Avaliacao, "7");
  }

  /** A labelled rating is taken from the first label pattern. */
  lemma AvaliacaoSeven()
    ensures Rating(Avaliacao) == 7
  {
    AvaliacaoGroup();
    assert DigitsValue("7") == 7 by { assert "7"[..0] == []; }
    assert FirstLabelled(Patterns, Avaliacao, 0) == Some(7);
  }

  // --- "8/10": the fraction.

  const Fraction: string := "8/10"

  lemma FractionGroup()
    ensures Group(Patterns[4], Fraction) == Some("8")
  {
    assert SkipDigits(Fraction, 0) == 1 && Fraction[0..1] == "8";
    assert WordAt(Fraction, 1, "/10");
    assert Patterns[4] == [Number, Word("/10")] && Patterns[4][1..] == [Word("/10")];
    assert MatchAt(Patterns[4], Fraction, 0) == Some("8");
    MatchAtStart(Patterns[4], Fraction, "8");
  }

  /** `(\d+)/10` gives the numerator. */
  lemma FractionEight()
    ensures Rating(Fraction) == 8
  {
    NoLabel(Fraction);
    FractionGroup();
    Unmatched(Patterns, Fraction, 0);
    Unmatched(Patterns, Fraction, 1);
    Unmatched(Patterns, Fraction, 2);
    Unmatched(Patterns, Fraction, 3);
    assert DigitsValue("8") == 8 by { assert "8"[..0] == []; }
    assert FirstLabelled(Patterns, Fraction, 4) == Some(8);
  }

  // --- "no numbers here": nothing at all.

  const NoDigits: string := "no numbers here"

  lemma NoDigitsHasNoDigit()
    ensures forall j :: 0 <= j < |NoDigits| ==> !IsDigit(NoDigits[j])
  {
    forall j | 0 <= j < |NoDigits|
      ensures !IsDigit(NoDigits[j])
    {
      assert NoDigits[j] in NoDigits;
    }
  }

  /** Neither a pattern nor a standalone number: the rating is 0. */
  lemma NoDigitsZero()
    ensures Rating(NoDigits) == 0
  {
    Unlabelled(NoDigits);
    NoDigitsHasNoDigit();
    NoTokens(NoDigits);
  }

  // --- "values are 2 and 5": the last standalone number.

  const TwoAndFive: string := "values are 2 and 5"

  lemma TwoAndFiveLast()
    ensures Rightmost(TwoAndFive, 0, |TwoAndFive|) == Some(Token(5, 18))
  {
    assert TokenAt(TwoAndFive, 17) == Some(Token(5, 18));
  }

  /** Without a pattern, the last standalone number of the text is the rating. */
  lemma TwoAndFiveFive()
    ensures Rating(TwoAndFive) == 5
  {
    Unlabelled(TwoAndFive);
    TwoAndFiveLast();
    Fallback(TwoAndFive);
  }

  // --- "Nota: 42": a labelled value above 10.

  const Nota: string := "Nota: 42"

  /** Neither "avaliação:" nor "rating:" occurs in it. */
  lemma NotaUnlabelled()
    ensures Group(Patterns[0], Nota).None? && Group(Patterns[1], Nota).None?
  {
    assert 'v' !in Nota && 'V' !in Nota;
    NoAvaliacao(Nota);
    assert 'r' !in Nota && 'R' !in Nota;
    NoRatingLabel(Nota);
  }

  lemma NotaAfterLabel()
    ensures MatchFrom([Spaces, Number], Nota, 5, []) == Some("42")
  {
    assert SkipSpaces(Nota, 6) == 6;
    assert MatchFrom([Spaces, Number], Nota, 5, []) == MatchFrom([Number], Nota, 6, []);
    assert SkipDigits(Nota, 8) == 8;
    assert Nota[6..8] == "42";
  }

  lemma NotaGroup()
    ensures Group(Patterns[2], Nota) == Some("42")
  {
    var p := [Word("nota:"), Spaces, Number];
    assert WordAt(Nota, 0, "nota:");
    assert p[1..] == [Spaces, Number];
    assert MatchAt(p, Nota, 0) == MatchFrom([Spaces, Number], Nota, 5, []);
    NotaAfterLabel();
    assert Patterns[2] == p;
    MatchAtStart(Patterns[2], Nota, "42");
  }

  /** The value of a labelled match is not clamped to 10. */
  lemma NotaFortyTwo()
    ensures Rating(Nota) == 42
  {
    NotaUnlabelled();
    NotaGroup();
    Unmatched(Patterns, Nota, 0);
    Unmatched(Patterns, Nota, 1);
    assert DigitsValue("42") == 42 by { DigitsValueExamples(); }
    assert FirstLabelled(Patterns, Nota, 2) == Some(42);
  }

  // --- "mentions 3 things, final score 9 out of 10": the leftmost "out of 10".

  const MentionsHead: string := "mentions "
  const MentionsMiddle: string := " things, final score "
  const MentionsEnd: string := "9 out of 10"
  const Mentions: string := MentionsHead + "3" + MentionsMiddle + MentionsEnd

  /** A pattern that starts with the group matches only where a digit is. */
  lemma NeedsDigit(p: Pattern, t: string, m: nat)
    requires p != [] && p[0] == Number && m <= |t| && (m == |t| || !IsDigit(t[m]))
    ensures MatchAt(p, t, m).None?
  {
  }

  /** The only digit before position 31 is the 3 at position 9. */
  lemma MentionsDigits()
    ensures |Mentions| == 42
    ensures forall j :: 0 <= j < 31 && j != 9 ==> !IsDigit(Mentions[j])
  {
    forall j | 0 <= j < 31 && j != 9
      ensures !IsDigit(Mentions[j])
    {
      if j < 9 {
        assert Mentions[j] == MentionsHead[j] && MentionsHead[j] in MentionsHead;
      } else {
        assert Mentions[j] == MentionsMiddle[j - 10] && MentionsMiddle[j - 10] in MentionsMiddle;
      }
    }
  }

  /** The 3 is followed by "things", not by "out". */
  lemma MentionsThree()
    ensures MatchAt(Patterns[6], Mentions, 9).None?
  {
    var p := [Number, Spaces, Word("out"), Spaces, Word("of"), Spaces, Word("10")];
    assert Patterns[6] == p;
    assert Mentions[9] == '3' && Mentions[10] == ' ' && Mentions[11] == 't';
    assert SkipDigits(Mentions, 10) == 10;
    assert SkipSpaces(Mentions, 11) == 11;
    assert !WordAt(Mentions, 11, "out");
    assert MatchAt(p, Mentions, 9) == MatchFrom(p[1..], Mentions, 10, "3");
    assert p[1..][1..] == p[2..];
  }

  lemma EndRest()
    ensures MatchFrom([Spaces, Word("of"), Spaces, Word("10")], MentionsEnd, 5, "9") == Some("9")
  {
    assert SkipSpaces(MentionsEnd, 6) == 6 && WordAt(MentionsEnd, 6, "of");
    assert SkipSpaces(MentionsEnd, 9) == 9 && WordAt(MentionsEnd, 9, "10");
    assert [Spaces, Word("of"), Spaces, Word("10")][1..] == [Word("of"), Spaces, Word("10")];
    assert [Word("of"), Spaces, Word("10")][1..] == [Spaces, Word("10")];
  }

  lemma EndAfterNine()
    ensures MatchFrom([Spaces, Word("out"), Spaces, Word("of"), Spaces, Word("10")], MentionsEnd, 1, "9")
      == Some("9")
  {
    var q := [Spaces, Word("out"), Spaces, Word("of"), Spaces, Word("10")];
    assert SkipSpaces(MentionsEnd, 2) == 2 && WordAt(MentionsEnd, 2, "out");
    assert q[1..] == [Word("out")] + q[2..];
    assert q[2..] == [Spaces, Word("of"), Spaces, Word("10")];
    EndRest();
  }

  lemma EndMatch()
    ensures MatchAt(Patterns[6], MentionsEnd, 0) == Some("9")
  {
    var p := [Number, Spaces, Word("out"), Spaces, Word("of"), Spaces, Word("10")];
    assert Patterns[6] == p;
    assert SkipDigits(MentionsEnd, 1) == 1 && MentionsEnd[0..1] == "9";
    assert p[1..] == [Spaces, Word("out"), Spaces, Word("of"), Spaces, Word("10")];
    EndAfterNine();
  }

  /** No "out of 10" starts before position 31. */
  lemma MentionsSearch()
    ensures SearchFrom(Patterns[6], Mentions, 0) == SearchFrom(Patterns[6], Mentions, 31)
  {
    MentionsDigits();
    MentionsThree();
    forall m | 0 <= m < 31
      ensures MatchAt(Patterns[6], Mentions, m).None?
    {
      if m != 9 {
        NeedsDigit(Patterns[6], Mentions, m);
      }
    }
    SearchSkip(Patterns[6], Mentions, 0, 31);
  }

  /** A match at the start of `b` is a match at the end of `a` in `a + b`. */
  lemma ShiftedMatch(p: Pattern, a: string, b: string, g: string)
    requires MatchAt(p, b, 0) == Some(g)
    ensures MatchAt(p, a + b, |a|) == Some(g)
  {
    MatchFromShift(p, a, b, 0, []);
  }

  /** At position 31 the match is the one in the last eleven characters. */
  lemma MentionsNineMatch()
    ensures MatchAt(Patterns[6], Mentions, 31) == Some("9")
  {
    EndMatch();
    ShiftedMatch(Patterns[6], MentionsHead + "3" + MentionsMiddle, MentionsEnd, "9");
    assert |MentionsHead + "3" + MentionsMiddle| == 31;
  }

  lemma MentionsGroup()
    ensures Group(Patterns[6], Mentions) == Some("9")
  {
    MentionsSearch();
    MentionsNineMatch();
    MentionsDigits();
  }

  /** A character in neither piece is not in their concatenation. */
  lemma AbsentConcat(a: string, b: string, c: char)
    requires c !in a && c !in b
    ensures c !in a + b
  {
  }

  lemma AbsentFromMentions(c: char)
    requires c !in MentionsHead && c != '3' && c !in MentionsMiddle && c !in MentionsEnd
    ensures c !in Mentions
  {
    AbsentConcat(MentionsHead, "3", c);
    AbsentConcat(MentionsHead + "3", MentionsMiddle, c);
    AbsentConcat(MentionsHead + "3" + MentionsMiddle, MentionsEnd, c);
  }

  lemma MentionsNoLabel()
    ensures forall m :: 0 <= m < 4 ==> Group(Patterns[m], Mentions).None?
  {
    AbsentFromMentions(':');
    NoLabel(Mentions);
  }

  lemma MentionsNoFraction()
    ensures Group(Patterns[4], Mentions).None?
  {
    AbsentFromMentions('/');
    NoFraction(Mentions);
  }

  lemma MentionsHasNoD()
    ensures 'd' !in Mentions && 'D' !in Mentions
  {
    AbsentFromMentions('d');
    AbsentFromMentions('D');
  }

  lemma MentionsNoDe()
    ensures Group(Patterns[5], Mentions).None?
  {
    MentionsHasNoD();
    NoDe(Mentions);
  }

  /** The first "out of 10" decides, not the earlier standalone 3. */
  lemma MentionsNine()
    ensures Rating(Mentions) == 9
  {
    MentionsNoLabel();
    MentionsNoFraction();
    MentionsNoDe();
    MentionsGroup();
    Unmatched(Patterns, Mentions, 0);
    Unmatched(Patterns, Mentions, 1);
    Unmatched(Patterns, Mentions, 2);
    Unmatched(Patterns, Mentions, 3);
    Unmatched(Patterns, Mentions, 4);
    Unmatched(Patterns, Mentions, 5);
    assert DigitsValue("9") == 9 by { assert "9"[..0] == []; }
    assert FirstLabelled(Patterns, Mentions, 6) == Some(9);
  }
}
