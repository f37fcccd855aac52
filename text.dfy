/**
 * The handful of Python string operations the core relies on: `str.isspace`,
 * `str.strip()`, `str.split()` with no arguments, `str.lower()`, the
 * substring test `a in b`, and the decimal conversions `str(n)` and `int(s)`.
 * Strings are `seq<char>`; `lower` folds ASCII letters only.
 */
module Text {
  import opened Wrappers

  /** The characters Python's `str.isspace()` accepts (and `strip`/`split` remove). */
  predicate IsSpace(c: char) {
    c == ' ' || ('\U{9}' <= c <= '\U{D}') || ('\U{1C}' <= c <= '\U{1F}')
    || c == '\U{85}' || c == '\U{A0}' || c == '\U{1680}'
    || ('\U{2000}' <= c <= '\U{200A}') || c == '\U{2028}' || c == '\U{2029}'
    || c == '\U{202F}' || c == '\U{205F}' || c == '\U{3000}'
  }

  function LowerChar(c: char): char {
    if 'A' <= c <= 'Z' then (c as int + 32) as char else c
  }

  /** `s.lower()`, restricted to ASCII letters. */
  function Lower(s: string): (r: string)
    ensures |r| == |s|
    ensures forall i :: 0 <= i < |s| ==> r[i] == LowerChar(s[i])
  {
    seq(|s|, i requires 0 <= i < |s| => LowerChar(s[i]))
  }

  lemma {:induction false} LowerIdempotent(s: string)
    ensures Lower(Lower(s)) == Lower(s)
  {
    assert forall i :: 0 <= i < |s| ==> LowerChar(LowerChar(s[i])) == LowerChar(s[i]);
  }

  /** The first index at or after `k` that does not hold whitespace (or `|s|`). */
  function SpaceRunEnd(s: string, k: nat): (n: nat)
    requires k <= |s|
    ensures k <= n <= |s|
    ensures forall i :: k <= i < n ==> IsSpace(s[i])
    ensures n == |s| || !IsSpace(s[n])
    decreases |s| - k
  {
    if k == |s| || !IsSpace(s[k]) then k else SpaceRunEnd(s, k + 1)
  }

  /** The first index at or after `k` that holds whitespace (or `|s|`). */
  function WordEnd(s: string, k: nat): (n: nat)
    requires k <= |s|
    ensures k <= n <= |s|
    ensures forall i :: k <= i < n ==> !IsSpace(s[i])
    ensures n == |s| || IsSpace(s[n])
    decreases |s| - k
  {
    if k == |s| || IsSpace(s[k]) then k else WordEnd(s, k + 1)
  }

  /** The start of the whitespace run that ends at `k`, not going below `lo`. */
  function SpaceRunStart(s: string, lo: nat, k: nat): (n: nat)
    requires lo <= k <= |s|
    ensures lo <= n <= k
    ensures forall i :: n <= i < k ==> IsSpace(s[i])
    ensures n == lo || !IsSpace(s[n - 1])
  {
    if k == lo || !IsSpace(s[k - 1]) then k else SpaceRunStart(s, lo, k - 1)
  }

  /** Where `s.strip()` starts and ends in `s`. */
  function StripBounds(s: string): (b: (nat, nat))
    ensures b.0 <= b.1 <= |s|
    ensures forall i :: 0 <= i < b.0 ==> IsSpace(s[i])
    ensures forall i :: b.1 <= i < |s| ==> IsSpace(s[i])
    ensures b.0 == b.1 || (!IsSpace(s[b.0]) && !IsSpace(s[b.1 - 1]))
  {
    var a := SpaceRunEnd(s, 0);
    (a, SpaceRunStart(s, a, |s|))
  }

  /**
   * `s.strip()`: `s` without its leading and trailing whitespace, that is,
   * the slice of `s` whose margins are all whitespace and whose ends are not.
   */
  function Strip(s: string): (r: string)
    ensures exists a, b :: (0 <= a <= b <= |s| && r == s[a..b]
      && (forall k :: 0 <= k < a ==> IsSpace(s[k])) && (forall k :: b <= k < |s| ==> IsSpace(s[k])))
    ensures r == [] || (!IsSpace(r[0]) && !IsSpace(r[|r| - 1]))
  {
    var b := StripBounds(s);
    s[b.0..b.1]
  }

  /** A word of `str.split()`: non-empty and free of whitespace. */
  predicate IsWord(w: string) {
    w != [] && forall i :: 0 <= i < |w| ==> !IsSpace(w[i])
  }

  /** The words of `s[k..]`. */
  function SplitFrom(s: string, k: nat): (words: seq<string>)
    requires k <= |s|
    ensures forall j :: 0 <= j < |words| ==> IsWord(words[j])
    decreases |s| - k
  {
    var a := SpaceRunEnd(s, k);
    if a == |s| then []
    else
      var b := WordEnd(s, a);
      assert IsWord(s[a..b]) by {
        forall i | 0 <= i < b - a ensures !IsSpace(s[a..b][i]) {
          assert s[a..b][i] == s[a + i];
        }
      }
      [s[a..b]] + SplitFrom(s, b)
  }

  /** `s.split()`: the maximal runs of non-whitespace characters, in order. */
  function Split(s: string): (words: seq<string>)
    ensures forall j :: 0 <= j < |words| ==> IsWord(words[j])
  {
    SplitFrom(s, 0)
  }

  /** A run of whitespace (possibly empty) between or around words. */
  predicate IsBlank(g: string) {
    forall i :: 0 <= i < |g| ==> IsSpace(g[i])
  }

  /** `gaps[0] + words[0] + gaps[1] + ... + words[n-1] + gaps[n]`. */
  function Weave(gaps: seq<string>, words: seq<string>): string
    requires |gaps| == |words| + 1
  {
    if words == [] then gaps[0] else gaps[0] + words[0] + Weave(gaps[1..], words[1..])
  }

  /** The gaps around `words` are whitespace, and the ones between two words are not empty. */
  predicate Separates(gaps: seq<string>, words: seq<string>) {
    |gaps| == |words| + 1
    && (forall i :: 0 <= i < |gaps| ==> IsBlank(gaps[i]))
    && (forall i :: 0 < i < |words| ==> gaps[i] != [])
  }

  lemma WeaveCons(g: string, w: string, gaps: seq<string>, words: seq<string>)
    requires |gaps| == |words| + 1
    ensures Weave([g] + gaps, [w] + words) == g + w + Weave(gaps, words)
  {
    assert ([g] + gaps)[1..] == gaps;
    assert ([w] + words)[1..] == words;
  }

  lemma SeparatesCons(g: string, w: string, gaps: seq<string>, words: seq<string>)
    requires IsBlank(g) && Separates(gaps, words)
    requires words != [] ==> gaps[0] != []
    ensures Separates([g] + gaps, [w] + words)
  {
    var gs := [g] + gaps;
    forall i | 0 <= i < |gs| ensures IsBlank(gs[i]) {
      if i > 0 { assert gs[i] == gaps[i - 1]; }
    }
    forall i | 0 < i < |words| + 1 ensures gs[i] != [] {
      assert gs[i] == gaps[i - 1];
    }
  }

  lemma BlankRun(s: string, k: nat)
    requires k <= |s|
    ensures IsBlank(s[k..SpaceRunEnd(s, k)])
  {
    var a := SpaceRunEnd(s, k);
    forall i | 0 <= i < a - k ensures IsSpace(s[k..a][i]) {
      assert s[k..a][i] == s[k + i];
    }
  }

  /** After a word, the next word (if any) is preceded by at least one whitespace character. */
  lemma InnerGap(s: string, b: nat)
    requires b <= |s| && (b == |s| || IsSpace(s[b]))
    ensures SplitFrom(s, b) != [] ==> s[b..SpaceRunEnd(s, b)] != []
  {
    if b < |s| {
      assert SpaceRunEnd(s, b) > b;
    }
  }

  lemma SliceThree(s: string, k: nat, a: nat, b: nat)
    requires k <= a <= b <= |s|
    ensures s[k..] == s[k..a] + s[a..b] + s[b..]
  {
    assert s[k..] == s[k..a] + s[a..];
    assert s[a..] == s[a..b] + s[b..];
  }

  /** The gaps that, woven with the words of `s[k..]`, give back `s[k..]`. */
  lemma {:induction false} SplitFromWeave(s: string, k: nat) returns (gaps: seq<string>)
    requires k <= |s|
    ensures Separates(gaps, SplitFrom(s, k))
    ensures gaps[0] == s[k..SpaceRunEnd(s, k)]
    ensures Weave(gaps, SplitFrom(s, k)) == s[k..]
    decreases |s| - k
  {
    var a := SpaceRunEnd(s, k);
    BlankRun(s, k);
    if a == |s| {
      assert SplitFrom(s, k) == [];
      gaps := [s[k..]];
    } else {
      var b := WordEnd(s, a);
      var rest := SplitFromWeave(s, b);
      var tail := SplitFrom(s, b);
      assert SplitFrom(s, k) == [s[a..b]] + tail;
      InnerGap(s, b);
      var words := [s[a..b]] + tail;
      gaps := [s[k..a]] + rest;
      SeparatesCons(s[k..a], s[a..b], rest, tail);
      WeaveCons(s[k..a], s[a..b], rest, tail);
      SliceThree(s, k, a, b);
    }
  }

  /**
   * `s.split()` takes `s` apart into its words and the whitespace around
   * them, with at least one whitespace character between two words: the
   * words are the maximal non-whitespace runs of `s`, in order.
   */
  lemma SplitDecomposes(s: string)
    ensures exists gaps :: Separates(gaps, Split(s)) && Weave(gaps, Split(s)) == s
  {
    var gaps := SplitFromWeave(s, 0);
    assert s[0..] == s;
    assert Split(s) == SplitFrom(s, 0);
    assert Separates(gaps, Split(s)) && Weave(gaps, Split(s)) == s;
  }

  /** A string that is all whitespace has no words. */
  lemma SplitOfBlank(s: string)
    requires forall i :: 0 <= i < |s| ==> IsSpace(s[i])
    ensures Split(s) == []
  {
  }

  /** `needle` occurs in `hay` starting at position `i`. */
  predicate OccursAt(needle: string, hay: string, i: nat) {
    i + |needle| <= |hay| && hay[i..i + |needle|] == needle
  }

  /** Python's `needle in hay` for two strings, as a left-to-right scan. */
  function Contains(needle: string, hay: string): bool
    decreases |hay|
  {
    if |needle| > |hay| then false
    else if hay[..|needle|] == needle then true
    else Contains(needle, hay[1..])
  }

  /** The scan agrees with the definition: some position holds `needle`. */
  lemma {:induction false} ContainsIff(needle: string, hay: string)
    ensures Contains(needle, hay) <==> exists i: nat :: OccursAt(needle, hay, i)
    decreases |hay|
  {
    if |needle| > |hay| {
    } else if hay[..|needle|] == needle {
      assert OccursAt(needle, hay, 0);
    } else {
      ContainsIff(needle, hay[1..]);
      if Contains(needle, hay[1..]) {
        var i: nat :| OccursAt(needle, hay[1..], i);
        assert hay[1..][i..i + |needle|] == hay[i + 1..i + 1 + |needle|];
        assert OccursAt(needle, hay, i + 1);
      } else {
        forall i: nat | OccursAt(needle, hay, i)
          ensures false
        {
          if i > 0 {
            assert hay[1..][i - 1..i - 1 + |needle|] == hay[i..i + |needle|];
            assert OccursAt(needle, hay[1..], i - 1);
          }
        }
      }
    }
  }

  /** The empty string is in every string (`"" in t` is always true). */
  lemma EmptyInEverything(hay: string)
    ensures Contains("", hay)
  {
  }

  function DigitChar(d: nat): char
    requires d < 10
  {
    ('0' as int + d) as char
  }

  function Digits(n: nat): (r: string)
    ensures r != []
    ensures forall i :: 0 <= i < |r| ==> '0' <= r[i] <= '9'
  {
    if n < 10 then [DigitChar(n)] else Digits(n / 10) + [DigitChar(n % 10)]
  }

  /** `str(n)` for an int. */
  function IntToString(n: int): (r: string)
    ensures r != []
    ensures n < 0 <==> r[0] == '-'
  {
    if n < 0 then "-" + Digits(-n) else Digits(n)
  }

  function DigitValue(c: char): nat
    requires '0' <= c <= '9'
  {
    c as int - '0' as int
  }

  /** The value of a non-empty run of decimal digits. */
  function DigitsValue(s: string): nat
    requires forall i :: 0 <= i < |s| ==> '0' <= s[i] <= '9'
  {
    if s == [] then 0 else 10 * DigitsValue(s[..|s| - 1]) + DigitValue(s[|s| - 1])
  }

  /**
   * `int(s)` for ASCII decimal text: surrounding whitespace and one sign are
   * accepted; anything else is the `ValueError` (None). Python also accepts
   * `_` between digits and non-ASCII decimal digits; those are not modelled.
   */
  function ParseInt(s: string): (r: Option<int>)
  {
    var t := Strip(s);
    if t == [] then None
    else if t[0] == '-' || t[0] == '+' then
      var body := t[1..];
      if AllDigits(body) then
        var v: int := DigitsValue(body);
        Some(if t[0] == '-' then -v else v)
      else None
    else if AllDigits(t) then Some(DigitsValue(t))
    else None
  }

  predicate AllDigits(s: string) {
    s != [] && forall i :: 0 <= i < |s| ==> '0' <= s[i] <= '9'
  }

  lemma {:induction false} DigitsRoundTrip(n: nat)
    ensures DigitsValue(Digits(n)) == n
  {
    if n >= 10 {
      DigitsRoundTrip(n / 10);
      var d := Digits(n / 10) + [DigitChar(n % 10)];
      assert d[..|d| - 1] == Digits(n / 10);
    }
  }

  lemma StripOfWord(s: string)
    requires IsWord(s)
    ensures Strip(s) == s
  {
  }

  lemma DigitsAreWord(d: string)
    requires AllDigits(d)
    ensures IsWord(d) && IsWord("-" + d)
  {
    var s := "-" + d;
    forall i | 0 <= i < |s| ensures !IsSpace(s[i]) {
      if i > 0 { assert s[i] == d[i - 1]; }
    }
  }

  lemma ParsePositive(d: string)
    requires AllDigits(d)
    ensures ParseInt(d) == Some(DigitsValue(d) as int)
  {
    DigitsAreWord(d);
    StripOfWord(d);
    assert d[0] != '-' && d[0] != '+';
  }

  lemma ParseNegative(d: string)
    requires AllDigits(d)
    ensures ParseInt("-" + d) == Some(-(DigitsValue(d) as int))
  {
    var s := "-" + d;
    DigitsAreWord(d);
    StripOfWord(s);
    assert Strip(s)[0] == '-' && Strip(s)[1..] == d;
  }

  /** `int(str(n)) == n`: the two decimal conversions are inverse. */
  lemma IntStringRoundTrip(n: int)
    ensures ParseInt(IntToString(n)) == Some(n)
  {
    var m: nat := if n < 0 then -n else n;
    DigitsRoundTrip(m);
    if n < 0 { ParseNegative(Digits(m)); } else { ParsePositive(Digits(m)); }
  }
}
