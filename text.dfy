/** The three Python string operations the classifiers rely on:
    `str.strip()`, `str.lower()` and the substring test `needle in text`. */
module Text {

  /** Python's `str.isspace()` on one character: the ASCII whitespace
      characters 9-13 and 32, the separators 28-31, and the Unicode spaces
      and line/paragraph separators. */
  predicate IsSpace(c: char)
  {
    || c == ' '
    || ('\t' <= c <= '\r')
    || ('\U{1C}' <= c <= '\U{1F}')
    || c == '\U{85}' || c == '\U{A0}' || c == '\U{1680}'
    || ('\U{2000}' <= c <= '\U{200A}')
    || c == '\U{2028}' || c == '\U{2029}' || c == '\U{202F}'
    || c == '\U{205F}' || c == '\U{3000}'
  }

  predicate AllSpace(s: string)
  {
    forall i :: 0 <= i < |s| ==> IsSpace(s[i])
  }

  /** The index of the first non-whitespace character of `s` at or after
      `k`, or `|s|` when there is none. */
  function SpaceFrom(s: string, k: nat): (n: nat)
    requires k <= |s|
    ensures k <= n <= |s|
    ensures forall i :: k <= i < n ==> IsSpace(s[i])
    ensures n == |s| || !IsSpace(s[n])
    decreases |s| - k
  {
    if k == |s| || !IsSpace(s[k]) then k else SpaceFrom(s, k + 1)
  }

  /** The index just past the last non-whitespace character of `s` before
      `k`, or 0 when there is none. */
  function SpaceUntil(s: string, k: nat): (n: nat)
    requires k <= |s|
    ensures n <= k
    ensures forall i :: n <= i < k ==> IsSpace(s[i])
    ensures n == 0 || !IsSpace(s[n - 1])
  {
    if k == 0 || !IsSpace(s[k - 1]) then k else SpaceUntil(s, k - 1)
  }

  /** Python's `s.strip()`: `s` without its leading and trailing whitespace.
      The result is the infix of `s` that starts at the first and ends at
      the last non-whitespace character, everything around it being
      whitespace; it is empty exactly when `s` is all whitespace. */
  function Strip(s: string): (r: string)
    ensures SpaceFrom(s, 0) + |r| <= |s|
    ensures r == s[SpaceFrom(s, 0)..SpaceFrom(s, 0) + |r|]
    ensures forall i :: 0 <= i < SpaceFrom(s, 0) ==> IsSpace(s[i])
    ensures forall i :: SpaceFrom(s, 0) + |r| <= i < |s| ==> IsSpace(s[i])
    ensures r == [] || (!IsSpace(r[0]) && !IsSpace(r[|r| - 1]))
    ensures r == [] <==> AllSpace(s)
  {
    var a := SpaceFrom(s, 0);
    if a == |s| then []
    else
      var e := SpaceUntil(s, |s|);
      assert !IsSpace(s[a]);
      s[a..e]
  }

  /** Python's `str.lower()` on one character, as far as the result can
      contain an ASCII character: ASCII capitals become small letters, the
      Kelvin sign U+212A becomes 'k', and the capital I with dot above
      U+0130 becomes 'i' followed by the combining dot U+0307. Every other
      character is kept as it is. */
  function LowerChar(c: char): (r: string)
    ensures |r| >= 1
  {
    if 'A' <= c <= 'Z' then [(c as int + 32) as char]
    else if c == '\U{212A}' then "k"
    else if c == '\U{130}' then "i\U{307}"
    else [c]
  }

  /** Python's `s.lower()`: the lowercase forms of the characters of `s`
      (see `LowerChar`), concatenated in order. */
  function Lower(s: string): (r: string)
  {
    Concat(seq(|s|, i requires 0 <= i < |s| => LowerChar(s[i])))
  }

  /** The strings of `parts` joined end to end. */
  function Concat(parts: seq<string>): string
  {
    if parts == [] then [] else parts[0] + Concat(parts[1..])
  }

  /** Lowering a non-empty string lowers its first character and then the
      rest. */
  lemma LowerCons(s: string)
    requires s != []
    ensures Lower(s) == LowerChar(s[0]) + Lower(s[1..])
  {
    var parts := seq(|s|, i requires 0 <= i < |s| => LowerChar(s[i]));
    assert parts[1..] == seq(|s| - 1, i requires 0 <= i < |s| - 1 => LowerChar(s[1..][i]));
  }

  /** Python's `needle in text` for strings: `needle` occurs in `text` as a
      contiguous substring. */
  predicate Contains(text: string, needle: string)
  {
    exists i :: 0 <= i <= |text| && OccursAt(text, needle, i)
  }

  /** `needle` occurs in `text` starting at index `i`. */
  predicate OccursAt(text: string, needle: string, i: int)
  {
    0 <= i <= |text| - |needle| && text[i..i + |needle|] == needle
  }

  /** Python's `any(p in text for p in needles)`. */
  predicate ContainsAny(text: string, needles: seq<string>)
  {
    exists k :: 0 <= k < |needles| && Contains(text, needles[k])
  }

  /** Stripping is idempotent: a stripped string has no whitespace left at
      either end. */
  lemma StripIdempotent(s: string)
    ensures Strip(Strip(s)) == Strip(s)
  {
    var r := Strip(s);
    if r != [] {
      assert SpaceFrom(r, 0) == 0;
      assert SpaceUntil(r, |r|) == |r|;
      assert r[0..|r|] == r;
    }
  }

  /** On a string without U+0130, lowering keeps the length and works
      position by position. */
  lemma {:induction false} LowerPointwise(s: string)
    requires '\U{130}' !in s
    ensures |Lower(s)| == |s|
    ensures forall i :: 0 <= i < |s| ==> Lower(s)[i] == LowerChar(s[i])[0]
  {
    if s != [] {
      LowerCons(s);
      LowerPointwise(s[1..]);
      forall i | 0 <= i < |s| ensures Lower(s)[i] == LowerChar(s[i])[0] {
        if i > 0 { assert s[1..][i - 1] == s[i]; }
      }
    }
  }

  /** A needle with a character that never occurs in the text does not
      occur in it. */
  lemma AbsentChar(text: string, needle: string, j: nat)
    requires j < |needle| && needle[j] !in text
    ensures !Contains(text, needle)
  {
    forall i | 0 <= i <= |text| - |needle| ensures !OccursAt(text, needle, i) {
      assert text[i..i + |needle|][j] == text[i + j];
    }
  }

  /** A needle with two adjacent characters that never occur side by side
      in the text does not occur in it. */
  lemma AbsentPair(text: string, needle: string, j: nat)
    requires j + 1 < |needle|
    requires forall i :: 0 <= i < |text| - 1 ==> !(text[i] == needle[j] && text[i + 1] == needle[j + 1])
    ensures !Contains(text, needle)
  {
    forall i | 0 <= i <= |text| - |needle| ensures !OccursAt(text, needle, i) {
      assert text[i..i + |needle|][j] == text[i + j];
      assert text[i..i + |needle|][j + 1] == text[i + j + 1];
    }
  }

  /** `c` is a character whose lowercase form starts with `d`, for every
      character other than U+0130. */
  predicate LowersTo(c: char, d: char)
  {
    || c == d
    || ('A' <= c <= 'Z' && c as int + 32 == d as int)
    || (c == '\U{212A}' && d == 'k')
  }

  lemma LowerCharLowersTo(c: char)
    requires c != '\U{130}'
    ensures LowersTo(c, LowerChar(c)[0])
  {
  }

  /** `c` lowers to a string that starts with a character of `ds`, for
      every character other than U+0130. */
  predicate LowersInto(c: char, ds: set<char>)
  {
    || c in ds
    || ('A' <= c <= 'Z' && ((c as int + 32) as char) in ds)
    || (c == '\U{212A}' && 'k' in ds)
  }

  /** No character of `s` is U+0130 or lowers into `ds`. */
  predicate NoneLowersInto(s: string, ds: set<char>)
  {
    forall i :: 0 <= i < |s| ==> s[i] != '\U{130}' && !LowersInto(s[i], ds)
  }

  lemma NoneLowersIntoAppend(x: string, y: string, ds: set<char>)
    requires NoneLowersInto(x, ds) && NoneLowersInto(y, ds)
    ensures NoneLowersInto(x + y, ds)
  {
    forall i | |x| <= i < |x + y| ensures (x + y)[i] == y[i - |x|] {
    }
  }

  /** No character of `ds` occurs in the lowercase form of a string none of
      whose characters lowers into `ds`. */
  lemma {:induction false} LowerAvoids(s: string, ds: set<char>)
    requires NoneLowersInto(s, ds)
    ensures forall d :: d in ds ==> d !in Lower(s)
  {
    if s != [] {
      forall i | 0 <= i < |s| - 1 ensures s[1..][i] == s[i + 1] {
      }
      LowerAvoids(s[1..], ds);
      LowerCons(s);
    }
  }

  /** No character of `s` is U+0130, and no two adjacent characters of `s`
      lower to `a` followed by `b`. */
  predicate NoLowerPair(s: string, a: char, b: char)
  {
    && '\U{130}' !in s
    && forall i :: 0 <= i < |s| - 1 ==> !(LowersTo(s[i], a) && LowersTo(s[i + 1], b))
  }

  /** Two strings without the pair, the first not ending in a character that
      lowers to `a`, joined are without it too. */
  lemma NoLowerPairAppend(x: string, y: string, a: char, b: char)
    requires NoLowerPair(x, a, b) && NoLowerPair(y, a, b)
    requires x == [] || !LowersTo(x[|x| - 1], a)
    ensures NoLowerPair(x + y, a, b)
  {
    forall i | |x| <= i < |x + y| ensures (x + y)[i] == y[i - |x|] {
    }
  }

  /** A string none of whose characters lowers to `a` has no pair starting
      with `a`. */
  lemma NoLowerPairWithout(s: string, a: char, b: char)
    requires NoneLowersInto(s, {a})
    ensures NoLowerPair(s, a, b)
  {
  }

  /** A needle with two adjacent characters that no two adjacent characters
      of `s` lower to does not occur in the lowercase form of `s`. */
  lemma LowerAbsentPair(s: string, needle: string, j: nat)
    requires j + 1 < |needle|
    requires NoLowerPair(s, needle[j], needle[j + 1])
    ensures !Contains(Lower(s), needle)
  {
    LowerPointwise(s);
    forall i | 0 <= i < |s| - 1
      ensures !(Lower(s)[i] == needle[j] && Lower(s)[i + 1] == needle[j + 1])
    {
      LowerCharLowersTo(s[i]);
      LowerCharLowersTo(s[i + 1]);
    }
    AbsentPair(Lower(s), needle, j);
  }
}
