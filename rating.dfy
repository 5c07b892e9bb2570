/** The rating extractor of the finalize step (nodes.py:155-176): seven labelled patterns
    tried in a fixed order, the first that matches anywhere in the text giving the rating,
    and, when that yields nothing or 0, the last standalone token 1..10 of the text.

    The patterns are regular expressions searched with `re.IGNORECASE`.  Each is a chain
    of literal words, runs of whitespace `\s*` and one captured digit run `(\d+)`, and in
    every one of them a `\s*` is followed by something whitespace cannot match, and a
    `(\d+)` ends the pattern or is followed by something a digit cannot match (a literal
    that starts with a non-digit, possibly after a `\s*`).  For
    such patterns giving back a character that a repetition took never lets the rest of
    the pattern match, so the greedy left-to-right matcher below finds exactly the match
    of a backtracking engine (module `Backtracking` proves it). */
module RatingExtractor {
  import opened Wrappers
  import opened Text

  /** One element of a pattern. */
  datatype Piece =
    | Word(w: string)   // a literal, kept in lower case and compared ignoring case
    | Spaces            // \s*
    | Number            // (\d+), the captured group

  type Pattern = seq<Piece>

  /** The seven patterns of nodes.py:155-163, in the order they are tried. */
  const Patterns: seq<Pattern> := [
    [Word("avalia\U{E7}\U{E3}o:"), Spaces, Number],
    [Word("rating:"), Spaces, Number],
    [Word("nota:"), Spaces, Number],
    [Word("score:"), Spaces, Number],
    [Number, Word("/10")],
    [Number, Spaces, Word("de"), Spaces, Word("10")],
    [Number, Spaces, Word("out"), Spaces, Word("of"), Spaces, Word("10")]
  ]

  /** The literal `w` (lower case) occurs at position `i` of `t`, ignoring case. */
  predicate WordAt(t: string, i: nat, w: string)
    decreases |w|
  {
    w == [] || (i < |t| && LowerChar(t[i]) == w[0] && WordAt(t, i + 1, w[1..]))
  }

  lemma {:induction false} WordAtFits(t: string, i: nat, w: string)
    requires i <= |t| && WordAt(t, i, w)
    ensures i + |w| <= |t|
    decreases |w|
  {
    if w != [] {
      WordAtFits(t, i + 1, w[1..]);
    }
  }

  /** Ignoring case, `w` occurs at `i` exactly when every one of its characters does. */
  lemma {:induction false} WordAtIff(t: string, i: nat, w: string)
    requires i <= |t|
    ensures WordAt(t, i, w) <==>
      i + |w| <= |t| && forall m :: 0 <= m < |w| ==> LowerChar(t[i + m]) == w[m]
    decreases |w|
  {
    if w != [] && i < |t| {
      WordAtIff(t, i + 1, w[1..]);
      if WordAt(t, i, w) {
        forall m | 0 <= m < |w|
          ensures LowerChar(t[i + m]) == w[m]
        {
          if m > 0 {
            assert LowerChar(t[i + 1 + (m - 1)]) == w[1..][m - 1];
          }
        }
        assert i + |w| <= |t|;
      }
      if i + |w| <= |t| && forall m :: 0 <= m < |w| ==> LowerChar(t[i + m]) == w[m] {
        assert LowerChar(t[i + 0]) == w[0];
        forall m | 0 <= m < |w[1..]|
          ensures LowerChar(t[i + 1 + m]) == w[1..][m]
        {
          assert LowerChar(t[i + (m + 1)]) == w[m + 1];
        }
        assert WordAt(t, i + 1, w[1..]);
        assert WordAt(t, i, w);
      }
    }
  }

  /** Matches the rest `p` of a pattern at position `i`; `cap` is what the group captured
      so far.  The result is the captured digit run, or None when there is no match. */
  function MatchFrom(p: Pattern, t: string, i: nat, cap: string): (r: Option<string>)
    requires i <= |t|
    requires AllDigits(cap)
    ensures r.Some? ==> AllDigits(r.value)
    ensures r.Some? && Number in p ==> r.value != []
    ensures r.Some? && Number !in p ==> r.value == cap
    decreases |p|
  {
    if p == [] then Some(cap)
    else match p[0]
      case Word(w) =>
        assert p == [p[0]] + p[1..];
        if WordAt(t, i, w) then
          WordAtFits(t, i, w);
          MatchFrom(p[1..], t, i + |w|, cap)
        else None
      case Spaces =>
        assert p == [p[0]] + p[1..];
        MatchFrom(p[1..], t, SkipSpaces(t, i), cap)
      case Number =>
        var j := SkipDigits(t, i);
        if j == i then None
        else
          MatchFrom(p[1..], t, j, t[i..j])
  }

  /** The group captured by a match of `p` that starts exactly at position `i`. */
  function MatchAt(p: Pattern, t: string, i: nat): Option<string>
    requires i <= |t|
  {
    MatchFrom(p, t, i, [])
  }

  /** Text placed in front does not change whether a literal occurs after it. */
  lemma {:induction false} WordAtShift(a: string, b: string, i: nat, w: string)
    requires i <= |b|
    ensures WordAt(a + b, |a| + i, w) == WordAt(b, i, w)
    decreases |w|
  {
    if w != [] && i < |b| {
      assert (a + b)[|a| + i] == b[i];
      WordAtShift(a, b, i + 1, w[1..]);
    }
  }

  lemma {:induction false} SkipSpacesShift(a: string, b: string, i: nat)
    requires i <= |b|
    ensures SkipSpaces(a + b, |a| + i) == |a| + SkipSpaces(b, i)
    decreases |b| - i
  {
    if i < |b| {
      assert (a + b)[|a| + i] == b[i];
      SkipSpacesShift(a, b, i + 1);
    }
  }

  lemma {:induction false} SkipDigitsShift(a: string, b: string, i: nat)
    requires i <= |b|
    ensures SkipDigits(a + b, |a| + i) == |a| + SkipDigits(b, i)
    decreases |b| - i
  {
    if i < |b| {
      assert (a + b)[|a| + i] == b[i];
      SkipDigitsShift(a, b, i + 1);
    }
  }

  lemma SliceShift(a: string, b: string, i: nat, j: nat)
    requires i <= j <= |b|
    ensures (a + b)[|a| + i..|a| + j] == b[i..j]
  {
    assert forall k :: 0 <= k < j - i ==> (a + b)[|a| + i..|a| + j][k] == b[i..j][k];
  }

  /** A match looks only forward: whether `p` matches at a position, and what it captures,
      depends only on the text from that position on. */
  lemma {:induction false} MatchFromShift(p: Pattern, a: string, b: string, i: nat, cap: string)
    requires i <= |b| && AllDigits(cap)
    ensures MatchFrom(p, a + b, |a| + i, cap) == MatchFrom(p, b, i, cap)
    decreases |p|, 1
  {
    if p != [] {
      match p[0]
      case Word(w) =>
        WordAtShift(a, b, i, w);
        if WordAt(b, i, w) {
          WordAtFits(b, i, w);
          MatchFromShift(p[1..], a, b, i + |w|, cap);
        }
      case Spaces =>
        SkipSpacesShift(a, b, i);
        MatchFromShift(p[1..], a, b, SkipSpaces(b, i), cap);
      case Number =>
        NumberShift(p, a, b, i, cap);
    }
  }

  lemma {:induction false} NumberShift(p: Pattern, a: string, b: string, i: nat, cap: string)
    requires p != [] && p[0] == Number && i <= |b| && AllDigits(cap)
    ensures MatchFrom(p, a + b, |a| + i, cap) == MatchFrom(p, b, i, cap)
    decreases |p|, 0
  {
    SkipDigitsShift(a, b, i);
    var j := SkipDigits(b, i);
    if j != i {
      SliceShift(a, b, i, j);
      MatchFromShift(p[1..], a, b, j, b[i..j]);
      assert MatchFrom(p, a + b, |a| + i, cap) == MatchFrom(p[1..], a + b, |a| + j, b[i..j]);
    }
  }

  /** A label pattern `lit\s*(\d+)` matches at `i` exactly when the literal `lit` is there,
      ignoring case, and digits follow it after any whitespace; the group is the whole run
      of those digits. */
  lemma LabelMatch(lit: string, t: string, i: nat)
    requires i <= |t|
    ensures MatchAt([Word(lit), Spaces, Number], t, i).Some? <==>
      WordAt(t, i, lit) && i + |lit| <= |t| &&
      SkipDigits(t, SkipSpaces(t, i + |lit|)) > SkipSpaces(t, i + |lit|)
    ensures MatchAt([Word(lit), Spaces, Number], t, i).Some? ==>
      var k := SkipSpaces(t, i + |lit|);
      MatchAt([Word(lit), Spaces, Number], t, i).value == t[k..SkipDigits(t, k)]
  {
    var p := [Word(lit), Spaces, Number];
    assert p[1..] == [Spaces, Number] && p[1..][1..] == [Number];
    if WordAt(t, i, lit) {
      WordAtFits(t, i, lit);
      var k := SkipSpaces(t, i + |lit|);
      assert MatchAt(p, t, i) == MatchFrom([Spaces, Number], t, i + |lit|, []);
      assert MatchFrom([Spaces, Number], t, i + |lit|, []) == MatchFrom([Number], t, k, []);
    }
  }

  /** `re.search` from position `i` on: the leftmost position at or after `i` where `p`
      matches. */
  function SearchFrom(p: Pattern, t: string, i: nat): (r: Option<nat>)
    ensures r.Some? ==> i <= r.value <= |t| && MatchAt(p, t, r.value).Some?
    ensures r.Some? ==> forall j :: i <= j < r.value ==> MatchAt(p, t, j).None?
    ensures r.None? ==> forall j :: i <= j <= |t| ==> MatchAt(p, t, j).None?
    decreases |t| + 1 - i
  {
    if i > |t| then None
    else if MatchAt(p, t, i).Some? then Some(i)
    else SearchFrom(p, t, i + 1)
  }

  /** `re.search(p, t, re.IGNORECASE)` followed by `.group(1)`. */
  function Group(p: Pattern, t: string): (r: Option<string>)
    ensures r.Some? ==> AllDigits(r.value)
  {
    match SearchFrom(p, t, 0)
    case None => None
    case Some(j) => MatchAt(p, t, j)
  }

  /** `int(...)` of the group of the first pattern of `ps`, from index `k` on, that
      matches. */
  function FirstLabelled(ps: seq<Pattern>, t: string, k: nat): Option<nat>
    decreases |ps| - k
  {
    if k >= |ps| then None
    else match Group(ps[k], t)
      case Some(ds) => Some(DigitsValue(ds))
      case None => FirstLabelled(ps, t, k + 1)
  }

  /** What the pattern loop of nodes.py:165-170 leaves in `rating`. */
  function Labelled(t: string): nat {
    FirstLabelled(Patterns, t, 0).GetOr(0)
  }

  /** One standalone token of `\b([1-9]|10)\b` found at a position, and where it ends. */
  datatype Token = Token(value: nat, end: nat)

  /** The token of `\b([1-9]|10)\b` matching at position `i`, if any.  The alternatives are
      tried in order: a single digit 1..9, then "10". */
  function TokenAt(t: string, i: nat): (r: Option<Token>)
    requires i < |t|
    ensures r.Some? ==> 1 <= r.value.value <= 10 && i < r.value.end <= |t|
    ensures r.Some? ==> forall j :: i <= j < r.value.end ==> IsDigit(t[j])
  {
    if i > 0 && IsWord(t[i - 1]) then None
    else if '1' <= t[i] <= '9' && (i + 1 == |t| || !IsWord(t[i + 1])) then
      Some(Token(t[i] as int - '0' as int, i + 1))
    else if i + 1 < |t| && t[i] == '1' && t[i + 1] == '0' && (i + 2 == |t| || !IsWord(t[i + 2])) then
      Some(Token(10, i + 2))
    else None
  }

  /** `\b` before a digit at `i`: no word character precedes it. */
  predicate NoWordBefore(t: string, i: nat) {
    i == 0 || (i <= |t| && !IsWord(t[i - 1]))
  }

  /** `\b` after a digit that ends at `e`: no word character follows it. */
  predicate NoWordAfter(t: string, e: nat) {
    e >= |t| || !IsWord(t[e])
  }

  /** The texts the group `([1-9]|10)` can match. */
  predicate IsTokenText(s: string) {
    (|s| == 1 && '1' <= s[0] <= '9') || s == "10"
  }

  /** A token found at `i` is the text `1`..`9` or `10` between two word boundaries, and
      its value is what `int()` makes of that text. */
  lemma TokenAtSound(t: string, i: nat)
    requires i < |t| && TokenAt(t, i).Some?
    ensures NoWordBefore(t, i) && NoWordAfter(t, TokenAt(t, i).value.end)
    ensures IsTokenText(t[i..TokenAt(t, i).value.end])
    ensures TokenAt(t, i).value.value == DigitsValue(t[i..TokenAt(t, i).value.end])
  {
    var e := TokenAt(t, i).value.end;
    if e == i + 1 {
      assert t[i..e] == [t[i]];
      assert t[i..e][..0] == [];
    } else {
      assert t[i..e] == "10";
      DigitsValueExamples();
      assert "10"[..1] == "1" && "1"[..0] == [];
    }
  }

  /** Conversely, the text `1`..`9` or `10` between two word boundaries is found as a
      token at its start, with its value and its end. */
  lemma TokenAtComplete(t: string, i: nat, e: nat)
    requires i < e <= |t|
    requires NoWordBefore(t, i) && NoWordAfter(t, e) && IsTokenText(t[i..e])
    ensures TokenAt(t, i) == Some(Token(DigitsValue(t[i..e]), e))
  {
    if e == i + 1 {
      assert t[i] == t[i..e][0];
      assert t[i..e] == [t[i]];
      assert t[i..e][..0] == [];
    } else {
      assert t[i..e] == "10" && e == i + 2;
      assert t[i] == t[i..e][0] && t[i + 1] == t[i..e][1];
      assert "10"[..1] == "1" && "1"[..0] == [];
    }
  }

  /** `re.findall(r'\b([1-9]|10)\b', t)` from position `i` on, converted with `int`:
      scanning left to right, resuming after each match. */
  function Standalone(t: string, i: nat): (r: seq<nat>)
    ensures forall k :: 0 <= k < |r| ==> 1 <= r[k] <= 10
    decreases |t| - i
  {
    if i >= |t| then []
    else match TokenAt(t, i)
      case Some(tok) => [tok.value] + Standalone(t, tok.end)
      case None => Standalone(t, i + 1)
  }

  /** The rating nodes.py:165-176 computes from the final text. */
  function Rating(t: string): nat {
    var labelled := Labelled(t);
    if labelled != 0 then labelled else LastStandalone(t)
  }

  /** The fallback of nodes.py:172-176: the last element of the `findall` result, or 0
      when it is empty. */
  function LastStandalone(t: string): nat {
    var numbers := Standalone(t, 0);
    if numbers == [] then 0 else numbers[|numbers| - 1]
  }

  /** The pattern loop of nodes.py:165-170 over the list `ps`: try each in order and stop
      at the first that matches, with `int()` of its group. */
  method ScanPatterns(ps: seq<Pattern>, t: string) returns (rating: nat)
    ensures rating == FirstLabelled(ps, t, 0).GetOr(0)
  {
    rating := 0;
    var k := 0;
    while k < |ps|
      invariant 0 <= k <= |ps|
      invariant forall m :: 0 <= m < k ==> Group(ps[m], t).None?
    {
      var m := Group(ps[k], t);
      if m.Some? {
        SkipUnmatched(ps, t, 0, k);
        return DigitsValue(m.value);
      }
      k := k + 1;
    }
    SkipUnmatched(ps, t, 0, k);
  }

  /** The extractor as the source runs it: the pattern loop with its early exit, then the
      fallback scan of nodes.py:172-176. */
  method ExtractRating(t: string) returns (rating: int)
    ensures rating == Rating(t)
  {
    rating := ScanPatterns(Patterns, t);
    if rating == 0 {
      var numbers := Standalone(t, 0);
      if |numbers| > 0 {
        rating := numbers[|numbers| - 1];
      }
    }
  }

  /** Skipping the patterns before `j` that do not match leaves the first match unchanged. */
  lemma {:induction false} SkipUnmatched(ps: seq<Pattern>, t: string, i: nat, j: nat)
    requires i <= j <= |ps|
    requires forall m :: i <= m < j ==> Group(ps[m], t).None?
    ensures FirstLabelled(ps, t, i) == FirstLabelled(ps, t, j)
    decreases j - i
  {
    if i < j {
      SkipUnmatched(ps, t, i + 1, j);
    }
  }

  /** The first pattern in list order that matches anywhere ends the pattern loop, whatever
      the later patterns would find and wherever they occur in the text.  Its value is the
      rating; when it captured 0 the later patterns are still not tried, and the rating is
      the fallback's. */
  lemma FirstPatternWins(t: string, j: nat, ds: string)
    requires j < |Patterns|
    requires forall m :: 0 <= m < j ==> Group(Patterns[m], t).None?
    requires Group(Patterns[j], t) == Some(ds)
    ensures Labelled(t) == DigitsValue(ds)
    ensures DigitsValue(ds) != 0 ==> Rating(t) == DigitsValue(ds)
    ensures DigitsValue(ds) == 0 ==> Rating(t) == LastStandalone(t)
  {
    SkipUnmatched(Patterns, t, 0, j);
  }

  /** When no pattern matches, or the match captured 0, the rating is the last standalone
      token 1..10 of the text, and 0 when there is none. */
  lemma Fallback(t: string)
    ensures Labelled(t) == 0 && Rightmost(t, 0, |t|).None? ==> Rating(t) == 0
    ensures Labelled(t) == 0 && Rightmost(t, 0, |t|).Some? ==>
      Rating(t) == Rightmost(t, 0, |t|).value.value
  {
    LastIsRightmost(t);
  }

  /** The last element of the scan is the token at the rightmost position holding one. */
  lemma LastIsRightmost(t: string)
    ensures Rightmost(t, 0, |t|).None? ==> LastStandalone(t) == 0
    ensures Rightmost(t, 0, |t|).Some? ==> LastStandalone(t) == Rightmost(t, 0, |t|).value.value
  {
    StandaloneLast(t, 0);
  }

  /** The scan resumes after a token without losing one: no token starts inside a token. */
  lemma NoTokenInside(t: string, i: nat, j: nat)
    requires i < |t| && TokenAt(t, i).Some?
    requires i < j < TokenAt(t, i).value.end
    ensures TokenAt(t, j).None?
  {
    assert IsDigit(t[j - 1]);
  }

  /** The token at the rightmost position in [i, n) that holds one: an independent
      description of "the last standalone token". */
  function Rightmost(t: string, i: nat, n: nat): Option<Token>
    requires n <= |t|
    decreases n
  {
    if n <= i then None
    else if TokenAt(t, n - 1).Some? then TokenAt(t, n - 1)
    else Rightmost(t, i, n - 1)
  }

  /** Looking from `i` is looking from `i + 1`, falling back on the token at `i`. */
  lemma {:induction false} RightmostStep(t: string, i: nat, n: nat)
    requires i < n <= |t|
    ensures Rightmost(t, i, n) ==
      if Rightmost(t, i + 1, n).Some? then Rightmost(t, i + 1, n) else TokenAt(t, i)
    decreases n
  {
    if i < n - 1 && TokenAt(t, n - 1).None? {
      RightmostStep(t, i, n - 1);
    }
  }

  /** Positions without a token can be skipped when looking for the rightmost one. */
  lemma {:induction false} RightmostSkip(t: string, i: nat, j: nat, n: nat)
    requires i <= j <= n <= |t|
    requires forall m :: i <= m < j ==> TokenAt(t, m).None?
    ensures Rightmost(t, i, n) == Rightmost(t, j, n)
    decreases j - i
  {
    if i < j {
      RightmostStep(t, i, n);
      RightmostSkip(t, i + 1, j, n);
    }
  }

  /** `findall` misses no token: the scan from `i` is empty exactly when no position from
      `i` on holds a token, and otherwise its last element is the rightmost token. */
  lemma {:induction false} StandaloneLast(t: string, i: nat)
    requires i <= |t|
    ensures Standalone(t, i) == [] <==> Rightmost(t, i, |t|).None?
    ensures Standalone(t, i) != [] ==>
      Standalone(t, i)[|Standalone(t, i)| - 1] == Rightmost(t, i, |t|).value.value
    decreases |t| - i
  {
    if i < |t| {
      RightmostStep(t, i, |t|);
      match TokenAt(t, i)
      case None =>
        StandaloneLast(t, i + 1);
      case Some(tok) =>
        StandaloneLast(t, tok.end);
        forall m | i + 1 <= m < tok.end
          ensures TokenAt(t, m).None?
        {
          NoTokenInside(t, i, m);
        }
        RightmostSkip(t, i + 1, tok.end, |t|);
        var rest := Standalone(t, tok.end);
        assert Standalone(t, i) == [tok.value] + rest;
    }
  }

  /** Every rating the extractor produces is a non-negative integer: 0 when nothing was
      found, a standalone 1..10 from the fallback, or the value of a labelled match, which
      is not clamped to 10. */
  lemma RatingCases(t: string)
    ensures Rating(t) == Labelled(t) || (Labelled(t) == 0 && Rating(t) <= 10)
    ensures Labelled(t) != 0 ==> Rating(t) == Labelled(t)
  {
  }

  /** Ignoring case, a literal occurs in the lower-cased text where it occurs in the text. */
  lemma {:induction false} WordAtLower(t: string, i: nat, w: string)
    ensures WordAt(Lower(t), i, w) == WordAt(t, i, w)
    decreases |w|
  {
    if w != [] && i < |t| {
      LowerCharKeepsClasses(t[i]);
      WordAtLower(t, i + 1, w[1..]);
    }
  }

  /** A pattern matches the lower-cased text at `i` exactly as it matches the text, with
      the same captured digits. */
  lemma {:induction false} MatchFromLower(p: Pattern, t: string, i: nat, cap: string)
    requires i <= |t| && AllDigits(cap)
    ensures MatchFrom(p, Lower(t), i, cap) == MatchFrom(p, t, i, cap)
    decreases |p|
  {
    if p != [] {
      match p[0]
      case Word(w) =>
        WordAtLower(t, i, w);
        if WordAt(t, i, w) {
          WordAtFits(t, i, w);
          MatchFromLower(p[1..], t, i + |w|, cap);
        }
      case Spaces =>
        SkipSpacesLower(t, i);
        MatchFromLower(p[1..], t, SkipSpaces(t, i), cap);
      case Number =>
        SkipDigitsLower(t, i);
        var j := SkipDigits(t, i);
        if j != i {
          MatchFromLower(p[1..], t, j, t[i..j]);
        }
    }
  }

  lemma {:induction false} SearchFromLower(p: Pattern, t: string, i: nat)
    ensures SearchFrom(p, Lower(t), i) == SearchFrom(p, t, i)
    decreases |t| + 1 - i
  {
    if i <= |t| {
      MatchFromLower(p, t, i, []);
      SearchFromLower(p, t, i + 1);
    }
  }

  /** Each pattern finds the same group in the lower-cased text: the labels are compared
      ignoring case. */
  lemma GroupLower(p: Pattern, t: string)
    ensures Group(p, Lower(t)) == Group(p, t)
  {
    SearchFromLower(p, t, 0);
    match SearchFrom(p, t, 0)
    case None =>
    case Some(j) => MatchFromLower(p, t, j, []);
  }

  lemma {:induction false} FirstLabelledLower(ps: seq<Pattern>, t: string, k: nat)
    ensures FirstLabelled(ps, Lower(t), k) == FirstLabelled(ps, t, k)
    decreases |ps| - k
  {
    if k < |ps| {
      GroupLower(ps[k], t);
      FirstLabelledLower(ps, t, k + 1);
    }
  }

  lemma TokenAtLower(t: string, i: nat)
    requires i < |t|
    ensures TokenAt(Lower(t), i) == TokenAt(t, i)
  {
    LowerCharKeepsClasses(t[i]);
    if i > 0 {
      LowerCharKeepsClasses(t[i - 1]);
    }
    if i + 1 < |t| {
      LowerCharKeepsClasses(t[i + 1]);
    }
    if i + 2 < |t| {
      LowerCharKeepsClasses(t[i + 2]);
    }
  }

  lemma {:induction false} StandaloneLower(t: string, i: nat)
    ensures Standalone(Lower(t), i) == Standalone(t, i)
    decreases |t| - i
  {
    if i < |t| {
      TokenAtLower(t, i);
      match TokenAt(t, i)
      case Some(tok) => StandaloneLower(t, tok.end);
      case None => StandaloneLower(t, i + 1);
    }
  }

  /** The rating does not depend on the letter case of the final text. */
  lemma RatingIgnoresCase(t: string)
    ensures Rating(Lower(t)) == Rating(t)
  {
    FirstLabelledLower(Patterns, t, 0);
    StandaloneLower(t, 0);
  }

  /** A character that some literal of `p` needs. */
  predicate Needs(p: Pattern, c: char) {
    exists k :: 0 <= k < |p| && p[k].Word? && c in p[k].w
  }

  lemma {:induction false} WordNeedsChar(t: string, i: nat, w: string, c: char)
    requires c in w
    requires forall j :: 0 <= j < |t| ==> LowerChar(t[j]) != c
    ensures !WordAt(t, i, w)
    decreases |w|
  {
    if w[0] != c {
      WordNeedsChar(t, i + 1, w[1..], c);
    }
  }

  lemma {:induction false} MatchNeedsChar(p: Pattern, t: string, i: nat, cap: string, c: char)
    requires i <= |t| && AllDigits(cap)
    requires Needs(p, c)
    requires forall j :: 0 <= j < |t| ==> LowerChar(t[j]) != c
    ensures MatchFrom(p, t, i, cap).None?
    decreases |p|
  {
    var k :| 0 <= k < |p| && p[k].Word? && c in p[k].w;
    if k == 0 {
      WordNeedsChar(t, i, p[0].w, c);
    } else {
      assert p[1..][k - 1] == p[k];
      match p[0]
      case Word(w) =>
        if WordAt(t, i, w) {
          WordAtFits(t, i, w);
          MatchNeedsChar(p[1..], t, i + |w|, cap, c);
        }
      case Spaces =>
        MatchNeedsChar(p[1..], t, SkipSpaces(t, i), cap, c);
      case Number =>
        var j := SkipDigits(t, i);
        if j != i {
          MatchNeedsChar(p[1..], t, j, t[i..j], c);
        }
    }
  }

  /** A pattern one of whose literals needs a character that the text does not contain,
      in either case, is found nowhere in it. */
  lemma AbsentChar(p: Pattern, t: string, c: char)
    requires Needs(p, c)
    requires forall j :: 0 <= j < |t| ==> LowerChar(t[j]) != c
    ensures Group(p, t).None?
  {
    forall i | 0 <= i <= |t|
      ensures MatchAt(p, t, i).None?
    {
      MatchNeedsChar(p, t, i, [], c);
    }
  }

  /** Positions where the pattern does not match can be skipped by the search. */
  lemma {:induction false} SearchSkip(p: Pattern, t: string, i: nat, j: nat)
    requires i <= j <= |t|
    requires forall m :: i <= m < j ==> MatchAt(p, t, m).None?
    ensures SearchFrom(p, t, i) == SearchFrom(p, t, j)
    decreases j - i
  {
    if i < j {
      SearchSkip(p, t, i + 1, j);
    }
  }
}
