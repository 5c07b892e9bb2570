/** A reference semantics for the extractor's patterns: the backtracking search of a
    regular expression engine such as Python's `re`.  A `\s*` or `(\d+)` first takes the
    longest run it can and, when the rest of the pattern then fails, gives back one
    character at a time; `re.search` tries every start position from the left.  This is
    defined independently of the greedy matcher `RatingExtractor.MatchFrom`, and the
    lemmas below prove that the two agree on every pattern the extractor uses. */
module Backtracking {
  import opened Wrappers
  import opened Text
  import opened RatingExtractor

  /** Matches `p` at position `i` the way a backtracking engine does, trying the
      alternatives of each repetition in priority order; `cap` is what the group holds. */
  function Backtrack(p: Pattern, t: string, i: nat, cap: string): (r: Option<string>)
    requires i <= |t| && AllDigits(cap)
    ensures r.Some? ==> AllDigits(r.value)
    decreases |p|, 1, 0
  {
    if p == [] then Some(cap)
    else match p[0]
      case Word(w) =>
        if WordAt(t, i, w) then
          WordAtFits(t, i, w);
          Backtrack(p[1..], t, i + |w|, cap)
        else None
      case Spaces => TrySpaces(p, t, i, SkipSpaces(t, i), cap)
      case Number => TryDigits(p, t, i, SkipDigits(t, i))
  }

  /** `\s*` (the head of `p`) has taken the whitespace from `i` to `j`: the rest of the
      pattern is tried after it, and then after ever shorter runs, down to the empty one. */
  function TrySpaces(p: Pattern, t: string, i: nat, j: nat, cap: string): (r: Option<string>)
    requires p != [] && i <= j <= |t| && AllDigits(cap)
    ensures r.Some? ==> AllDigits(r.value)
    decreases |p|, 0, j
  {
    match Backtrack(p[1..], t, j, cap)
    case Some(g) => Some(g)
    case None => if j == i then None else TrySpaces(p, t, i, j - 1, cap)
  }

  /** `(\d+)` (the head of `p`) has taken the digits from `i` to `j`: the rest is tried
      with that run captured, and then with ever shorter runs, down to one digit. */
  function TryDigits(p: Pattern, t: string, i: nat, j: nat): (r: Option<string>)
    requires p != [] && i <= j <= |t|
    requires forall k :: i <= k < j ==> IsDigit(t[k])
    ensures r.Some? ==> AllDigits(r.value)
    decreases |p|, 0, j
  {
    if j == i then None
    else
      assert AllDigits(t[i..j]);
      match Backtrack(p[1..], t, j, t[i..j])
      case Some(g) => Some(g)
      case None => TryDigits(p, t, i, j - 1)
  }

  /** `re.search` followed by `.group(1)`: the group of the match at the leftmost start
      position at or after `i` where the pattern matches. */
  function Search(p: Pattern, t: string, i: nat): Option<string>
    decreases |t| + 1 - i
  {
    if i > |t| then None
    else match Backtrack(p, t, i, [])
      case Some(g) => Some(g)
      case None => Search(p, t, i + 1)
  }

  /** The pattern must start with something whitespace cannot match. */
  predicate StartsNonSpace(q: Pattern) {
    q != [] && (q[0] == Number || (q[0].Word? && q[0].w != [] && !IsSpace(q[0].w[0])))
  }

  /** The pattern must start with something a digit cannot match. */
  predicate StartsNonDigit(q: Pattern)
    decreases |q|
  {
    q != [] &&
    ((q[0].Word? && q[0].w != [] && !IsDigit(q[0].w[0])) ||
     (q[0] == Spaces && StartsNonDigit(q[1..])))
  }

  /** Every `\s*` is followed by something whitespace cannot match, and every `(\d+)`
      ends the pattern or is followed by something a digit cannot match: giving back part
      of a run can then never let the rest of the pattern succeed. */
  predicate GreedySafe(p: Pattern)
    decreases |p|
  {
    p == [] ||
    (GreedySafe(p[1..]) &&
     (p[0] == Spaces ==> StartsNonSpace(p[1..])) &&
     (p[0] == Number ==> p[1..] == [] || StartsNonDigit(p[1..])))
  }

  /** A label followed by `\s*(\d+)`: the shape of the first four patterns. */
  lemma LabelIsGreedySafe(w: string)
    ensures GreedySafe([Word(w), Spaces, Number])
  {
    assert [Word(w), Spaces, Number][1..] == [Spaces, Number];
    assert [Spaces, Number][1..] == [Number];
  }

  /** `(\d+)/10`, `(\d+)\s*de\s*10` and `(\d+)\s*out\s*of\s*10`: the last three. */
  lemma SlashIsGreedySafe()
    ensures GreedySafe([Number, Word("/10")])
  {
    assert [Number, Word("/10")][1..] == [Word("/10")];
  }

  lemma DeIsGreedySafe()
    ensures GreedySafe([Number, Spaces, Word("de"), Spaces, Word("10")])
  {
    assert GreedySafe([Spaces, Word("10")]);
    assert GreedySafe([Word("de"), Spaces, Word("10")]);
    assert GreedySafe([Spaces, Word("de"), Spaces, Word("10")]);
  }

  lemma OutOfIsGreedySafe()
    ensures GreedySafe([Number, Spaces, Word("out"), Spaces, Word("of"), Spaces, Word("10")])
  {
    assert GreedySafe([Spaces, Word("10")]);
    assert GreedySafe([Word("of"), Spaces, Word("10")]);
    assert GreedySafe([Spaces, Word("of"), Spaces, Word("10")]);
    assert GreedySafe([Word("out"), Spaces, Word("of"), Spaces, Word("10")]);
    assert GreedySafe([Spaces, Word("out"), Spaces, Word("of"), Spaces, Word("10")]);
  }

  /** Every pattern of the extractor is greedy-safe. */
  lemma PatternIsGreedySafe(k: nat)
    requires k < |Patterns|
    ensures GreedySafe(Patterns[k])
  {
    if k < 4 {
      LabelIsGreedySafe(Patterns[k][0].w);
    } else if k == 4 {
      SlashIsGreedySafe();
    } else if k == 5 {
      DeIsGreedySafe();
    } else {
      OutOfIsGreedySafe();
    }
  }

  /** A pattern that starts with something whitespace cannot match fails on whitespace. */
  lemma NotOnSpace(q: Pattern, t: string, j: nat, cap: string)
    requires StartsNonSpace(q) && j < |t| && IsSpace(t[j]) && AllDigits(cap)
    ensures Backtrack(q, t, j, cap).None?
  {
    LowerCharKeepsClasses(t[j]);
  }

  /** A pattern that starts with something a digit cannot match fails on a digit. */
  lemma {:induction false} NotOnDigit(q: Pattern, t: string, j: nat, cap: string)
    requires StartsNonDigit(q) && j < |t| && IsDigit(t[j]) && AllDigits(cap)
    ensures Backtrack(q, t, j, cap).None?
    decreases |q|
  {
    LowerCharKeepsClasses(t[j]);
    if q[0] == Spaces {
      NotOnDigit(q[1..], t, j, cap);
      assert SkipSpaces(t, j) == j;
    }
  }

  /** Giving back whitespace never helps: trying the shorter runs adds no match. */
  lemma {:induction false} SpacesTakeAll(p: Pattern, t: string, i: nat, j: nat, cap: string)
    requires p != [] && StartsNonSpace(p[1..]) && i <= j <= |t| && AllDigits(cap)
    requires forall k :: i <= k < j ==> IsSpace(t[k])
    ensures TrySpaces(p, t, i, j, cap) == Backtrack(p[1..], t, j, cap)
    decreases j
  {
    if Backtrack(p[1..], t, j, cap).None? && j > i {
      NotOnSpace(p[1..], t, j - 1, cap);
      SpacesTakeAll(p, t, i, j - 1, cap);
    }
  }

  /** Giving back digits never helps: the whole run is captured or there is no match. */
  lemma {:induction false} DigitsTakeAll(p: Pattern, t: string, i: nat, j: nat)
    requires p != [] && i < j <= |t|
    requires p[1..] == [] || StartsNonDigit(p[1..])
    requires forall k :: i <= k < j ==> IsDigit(t[k])
    ensures AllDigits(t[i..j])
    ensures TryDigits(p, t, i, j) == Backtrack(p[1..], t, j, t[i..j])
    decreases j
  {
    assert AllDigits(t[i..j]);
    if Backtrack(p[1..], t, j, t[i..j]).None? && j - 1 > i {
      assert p[1..] != [];
      assert AllDigits(t[i..j - 1]);
      NotOnDigit(p[1..], t, j - 1, t[i..j - 1]);
      DigitsTakeAll(p, t, i, j - 1);
    }
  }

  /** On a greedy-safe pattern the greedy matcher finds what the backtracking engine
      finds, at every position and with every group captured so far. */
  lemma {:induction false} GreedyIsBacktracking(p: Pattern, t: string, i: nat, cap: string)
    requires GreedySafe(p) && i <= |t| && AllDigits(cap)
    ensures MatchFrom(p, t, i, cap) == Backtrack(p, t, i, cap)
    decreases |p|
  {
    if p != [] {
      match p[0]
      case Word(w) =>
        if WordAt(t, i, w) {
          WordAtFits(t, i, w);
          GreedyIsBacktracking(p[1..], t, i + |w|, cap);
        }
      case Spaces =>
        var m := SkipSpaces(t, i);
        SpacesTakeAll(p, t, i, m, cap);
        GreedyIsBacktracking(p[1..], t, m, cap);
      case Number =>
        var m := SkipDigits(t, i);
        if m != i {
          DigitsTakeAll(p, t, i, m);
          GreedyIsBacktracking(p[1..], t, m, t[i..m]);
        }
    }
  }

  lemma {:induction false} SearchAgrees(p: Pattern, t: string, i: nat)
    requires GreedySafe(p)
    ensures Search(p, t, i) ==
      match SearchFrom(p, t, i)
      case None => None
      case Some(j) => MatchAt(p, t, j)
    decreases |t| + 1 - i
  {
    if i <= |t| {
      GreedyIsBacktracking(p, t, i, []);
      SearchAgrees(p, t, i + 1);
    }
  }

  /** Each of the seven patterns finds, in any text, the group that `re.search` with a
      backtracking engine finds. */
  lemma GroupIsSearch(k: nat, t: string)
    requires k < |Patterns|
    ensures Group(Patterns[k], t) == Search(Patterns[k], t, 0)
  {
    PatternIsGreedySafe(k);
    SearchAgrees(Patterns[k], t, 0);
  }
}
