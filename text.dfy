/** The few operations on Python `str` values that the pipeline uses: `startswith`,
    substring membership `in`, `lower()`, `strip()`, `', '.join(...)`, and the character
    classes `\s`, `\d` and word characters of the `re` module.  Characters outside
    ASCII are treated as ordinary non-space, non-digit, non-word characters, except that
    case folding also knows the two non-ASCII letters of the label "Avaliação". */
module Text {

  /** `s.startswith(prefix)` */
  predicate StartsWith(s: string, prefix: string) {
    |prefix| <= |s| && s[..|prefix|] == prefix
  }

  /** `needle in hay` for strings: some position of `hay` starts with `needle`. */
  predicate Contains(hay: string, needle: string)
    decreases |hay|
  {
    StartsWith(hay, needle) || (hay != [] && Contains(hay[1..], needle))
  }

  /** `startswith` compares the prefix character by character. */
  lemma StartsWithIff(s: string, prefix: string)
    ensures StartsWith(s, prefix) <==>
      |prefix| <= |s| && forall k :: 0 <= k < |prefix| ==> s[k] == prefix[k]
  {
    if |prefix| <= |s| {
      assert forall k :: 0 <= k < |prefix| ==> s[..|prefix|][k] == s[k];
    }
  }

  /** The needle occurs in the haystack starting at position `i`. */
  predicate OccursAt(hay: string, needle: string, i: nat) {
    i + |needle| <= |hay| && hay[i..i + |needle|] == needle
  }

  /** `needle in hay` holds exactly when the needle occurs at some position. */
  lemma {:induction false} ContainsIff(hay: string, needle: string)
    ensures Contains(hay, needle) <==> exists i: nat :: OccursAt(hay, needle, i)
    decreases |hay|
  {
    var n := |needle|;
    if Contains(hay, needle) {
      if StartsWith(hay, needle) {
        assert OccursAt(hay, needle, 0);
      } else {
        ContainsIff(hay[1..], needle);
        var i: nat :| OccursAt(hay[1..], needle, i);
        assert hay[1..][i..i + n] == hay[i + 1..i + 1 + n];
        assert OccursAt(hay, needle, i + 1);
      }
    }
    if exists i: nat :: OccursAt(hay, needle, i) {
      var i: nat :| OccursAt(hay, needle, i);
      if i == 0 {
        assert hay[..n] == needle;
      } else {
        assert hay[1..][i - 1..i - 1 + n] == hay[i..i + n];
        assert OccursAt(hay[1..], needle, i - 1);
        ContainsIff(hay[1..], needle);
      }
    }
  }

  /** A needle whose first character never occurs in the haystack is not a substring of it. */
  lemma {:induction false} FirstCharAbsent(hay: string, needle: string)
    requires needle != []
    requires forall i :: 0 <= i < |hay| ==> hay[i] != needle[0]
    ensures !Contains(hay, needle)
    decreases |hay|
  {
    assert !StartsWith(hay, needle) by {
      if |needle| <= |hay| {
        assert hay[..|needle|][0] == hay[0];
      }
    }
    if hay != [] {
      forall i | 0 <= i < |hay[1..]|
        ensures hay[1..][i] != needle[0]
      {
        assert hay[1..][i] == hay[i + 1];
      }
      FirstCharAbsent(hay[1..], needle);
    }
  }

  predicate IsUpper(c: char) {
    'A' <= c <= 'Z'
  }

  /** Lower-case of one character: the ASCII letters, and the capitals Ç and Ã. */
  function LowerChar(c: char): (r: char)
    ensures !IsUpper(r)
    ensures r != '\U{C7}' && r != '\U{C3}'
    ensures IsUpper(c) ==> r as int == c as int + 32
    ensures c == '\U{C7}' ==> r == '\U{E7}'
    ensures c == '\U{C3}' ==> r == '\U{E3}'
    ensures !IsUpper(c) && c != '\U{C7}' && c != '\U{C3}' ==> r == c
  {
    if IsUpper(c) then (c as int + 32) as char
    else if c == '\U{C7}' then '\U{E7}'
    else if c == '\U{C3}' then '\U{E3}'
    else c
  }

  /** `s.lower()` */
  function Lower(s: string): (r: string)
    ensures |r| == |s|
    ensures forall i :: 0 <= i < |s| ==> r[i] == LowerChar(s[i])
  {
    seq(|s|, i requires 0 <= i < |s| => LowerChar(s[i]))
  }

  /** Lower-casing keeps the classes `\s`, `\d` and `\w` and the digits themselves. */
  lemma LowerCharKeepsClasses(c: char)
    ensures LowerChar(LowerChar(c)) == LowerChar(c)
    ensures IsSpace(LowerChar(c)) == IsSpace(c) && IsDigit(LowerChar(c)) == IsDigit(c)
    ensures IsWord(LowerChar(c)) == IsWord(c)
    ensures IsDigit(c) ==> LowerChar(c) == c
  {
  }

  /** The whitespace run at `i` ends at the same place in the lower-cased text. */
  lemma {:induction false} SkipSpacesLower(t: string, i: nat)
    requires i <= |t|
    ensures SkipSpaces(Lower(t), i) == SkipSpaces(t, i)
    decreases |t| - i
  {
    if i < |t| {
      LowerCharKeepsClasses(t[i]);
      if IsSpace(t[i]) {
        SkipSpacesLower(t, i + 1);
      }
    }
  }

  /** The digit run at `i` is the same in the lower-cased text. */
  lemma {:induction false} SkipDigitsLower(t: string, i: nat)
    requires i <= |t|
    ensures SkipDigits(Lower(t), i) == SkipDigits(t, i)
    ensures Lower(t)[i..SkipDigits(t, i)] == t[i..SkipDigits(t, i)]
    decreases |t| - i
  {
    if i < |t| {
      LowerCharKeepsClasses(t[i]);
      if IsDigit(t[i]) {
        SkipDigitsLower(t, i + 1);
        assert Lower(t)[i..SkipDigits(t, i)] == [Lower(t)[i]] + Lower(t)[i + 1..SkipDigits(t, i)];
        assert t[i..SkipDigits(t, i)] == [t[i]] + t[i + 1..SkipDigits(t, i)];
      }
    }
  }

  /** Characters for which Python's `str.isspace()` holds, restricted to ASCII (tab,
      line feed, vertical tab, form feed, carriage return, the four separators 0x1C-0x1F
      and space); they are what both `str.strip()` and the regular expression class `\s`
      skip. */
  predicate IsSpace(c: char) {
    '\t' <= c <= '\r' || '\U{1C}' <= c <= ' '
  }

  /** The regular expression class `\d`, restricted to ASCII. */
  predicate IsDigit(c: char) {
    '0' <= c <= '9'
  }

  predicate AllDigits(s: string) {
    forall k :: 0 <= k < |s| ==> IsDigit(s[k])
  }

  /** Word characters for the regular expression assertion `\b`, restricted to ASCII. */
  predicate IsWord(c: char) {
    IsDigit(c) || 'a' <= c <= 'z' || 'A' <= c <= 'Z' || c == '_'
  }

  /** The end of the run of whitespace that ends at position `j` and does not reach back
      past `lo`. */
  function SpacesBefore(s: string, lo: nat, j: nat): (r: nat)
    requires lo <= j <= |s|
    ensures lo <= r <= j
    ensures forall k :: r <= k < j ==> IsSpace(s[k])
    ensures r == lo || !IsSpace(s[r - 1])
    decreases j
  {
    if lo < j && IsSpace(s[j - 1]) then SpacesBefore(s, lo, j - 1) else j
  }

  /** How many whitespace characters `strip()` removes at the front. */
  function LeadingSpaces(s: string): (n: nat)
    ensures n <= |s|
  {
    SkipSpaces(s, 0)
  }

  /** `s.strip()`: the result is the slice of `s` left once its whitespace at both ends
      is removed, and it neither starts nor ends with whitespace. */
  function Strip(s: string): (r: string)
    ensures LeadingSpaces(s) + |r| <= |s|
    ensures r == s[LeadingSpaces(s)..LeadingSpaces(s) + |r|]
    ensures forall k :: 0 <= k < LeadingSpaces(s) ==> IsSpace(s[k])
    ensures forall k :: LeadingSpaces(s) + |r| <= k < |s| ==> IsSpace(s[k])
    ensures r != [] ==> !IsSpace(r[0]) && !IsSpace(r[|r| - 1])
  {
    var i := SkipSpaces(s, 0);
    s[i..SpacesBefore(s, i, |s|)]
  }

  /** Stripping twice is stripping once. */
  lemma StripIdempotent(s: string)
    ensures Strip(Strip(s)) == Strip(s)
  {
    var r := Strip(s);
    assert LeadingSpaces(r) == 0;
    assert SpacesBefore(r, 0, |r|) == |r|;
  }

  /** `sep.join(xs)` */
  function Join(xs: seq<string>, sep: string): (r: string)
    ensures xs == [] ==> r == []
    ensures |xs| == 1 ==> r == xs[0]
  {
    if xs == [] then []
    else if |xs| == 1 then xs[0]
    else xs[0] + sep + Join(xs[1..], sep)
  }

  /** Appending an element to a non-empty list appends the separator and that element to
      the joined text; with the two base cases this determines `Join` on every list. */
  lemma {:induction false} JoinAppend(xs: seq<string>, x: string, sep: string)
    requires xs != []
    ensures Join(xs + [x], sep) == Join(xs, sep) + sep + x
    decreases |xs|
  {
    if |xs| > 1 {
      assert (xs + [x])[1..] == xs[1..] + [x];
      JoinAppend(xs[1..], x, sep);
    } else {
      assert (xs + [x])[1..] == [x];
    }
  }

  /** The end of the run of `\s` characters that starts at position `i`. */
  function SkipSpaces(t: string, i: nat): (j: nat)
    requires i <= |t|
    ensures i <= j <= |t|
    ensures forall k :: i <= k < j ==> IsSpace(t[k])
    ensures j == |t| || !IsSpace(t[j])
    decreases |t| - i
  {
    if i < |t| && IsSpace(t[i]) then SkipSpaces(t, i + 1) else i
  }

  /** The end of the run of `\d` characters that starts at position `i`. */
  function SkipDigits(t: string, i: nat): (j: nat)
    requires i <= |t|
    ensures i <= j <= |t|
    ensures forall k :: i <= k < j ==> IsDigit(t[k])
    ensures j == |t| || !IsDigit(t[j])
    decreases |t| - i
  {
    if i < |t| && IsDigit(t[i]) then SkipDigits(t, i + 1) else i
  }

  /** `int(ds)` for a string of ASCII digits: leading zeros are allowed and ignored. */
  function DigitsValue(ds: string): (v: nat)
    requires AllDigits(ds)
    ensures ds == [] ==> v == 0
    ensures v == 0 ==> forall k :: 0 <= k < |ds| ==> ds[k] == '0'
    decreases |ds|
  {
    if ds == [] then 0
    else
      var init, last := ds[..|ds| - 1], ds[|ds| - 1];
      assert IsDigit(last);
      DigitsValue(init) * 10 + (last as int - '0' as int)
  }
  /** `int()` neither clamps nor keeps leading zeros: "42" is 42 and "007" is 7. */
  lemma DigitsValueExamples()
    ensures DigitsValue("42") == 42 && DigitsValue("007") == 7
  {
    assert "42"[..1] == "4" && "007"[..2] == "00" && "00"[..1] == "0";
  }

}
