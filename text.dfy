/**
 * The few Python string operations the assessment relies on: `str.isspace`,
 * `str.strip()`, `str.split()` (both with no argument), `str.lower()`,
 * `str.upper()`, the substring test `sub in s`, and the decimal rendering of
 * an integer inside an f-string.
 */
module Text {

  /** The characters Python's `str.isspace()` accepts; `strip()` and `split()` cut at exactly these. */
  const Whitespace: set<char> := {
      '\U{9}', '\U{A}', '\U{B}', '\U{C}', '\U{D}', '\U{1C}', '\U{1D}', '\U{1E}',
      '\U{1F}', '\U{20}', '\U{85}', '\U{A0}', '\U{1680}', '\U{2000}', '\U{2001}', '\U{2002}',
      '\U{2003}', '\U{2004}', '\U{2005}', '\U{2006}', '\U{2007}', '\U{2008}', '\U{2009}', '\U{200A}',
      '\U{2028}', '\U{2029}', '\U{202F}', '\U{205F}', '\U{3000}'
    }

  predicate IsSpace(c: char) {
    c in Whitespace
  }

  /** Empty or whitespace only. */
  predicate IsBlank(s: string) {
    forall i | 0 <= i < |s| :: IsSpace(s[i])
  }

  /** `s.lstrip()`: the suffix of `s` that starts at its first non-whitespace character. */
  function TrimLeft(s: string): (r: string)
    ensures |r| <= |s| && r == s[|s| - |r|..]
    ensures r == [] || !IsSpace(r[0])
    ensures forall i | 0 <= i < |s| - |r| :: IsSpace(s[i])
  {
    if |s| > 0 && IsSpace(s[0]) then
      var r := TrimLeft(s[1..]);
      assert s[1..][|s| - 1 - |r|..] == s[|s| - |r|..];
      assert forall i | 1 <= i < |s| - |r| :: s[i] == s[1..][i - 1];
      r
    else s
  }

  /** `s.rstrip()`: the prefix of `s` that ends at its last non-whitespace character. */
  function TrimRight(s: string): (r: string)
    ensures |r| <= |s| && r == s[..|r|]
    ensures r == [] || !IsSpace(r[|r| - 1])
    ensures forall i | |r| <= i < |s| :: IsSpace(s[i])
  {
    if |s| > 0 && IsSpace(s[|s| - 1]) then
      var r := TrimRight(s[..|s| - 1]);
      assert s[..|s| - 1][..|r|] == s[..|r|];
      assert forall i | |r| <= i < |s| - 1 :: s[i] == s[..|s| - 1][i];
      r
    else s
  }

  /** `r` is the piece of `s` that starts at position `a`. */
  predicate IsSliceAt(r: string, s: string, a: int) {
    0 <= a && a + |r| <= |s| && r == s[a..a + |r|]
  }

  /**
   * `s.strip()`: the piece of `s` that follows the whitespace `lstrip()`
   * removes; it has no whitespace at either end, everything outside it is
   * whitespace, and it is empty exactly when `s` is blank.
   */
  function Strip(s: string): (r: string)
    ensures r == [] <==> IsBlank(s)
    ensures r != [] ==> !IsSpace(r[0]) && !IsSpace(r[|r| - 1])
    ensures |r| <= |s| && IsSliceAt(r, s, |s| - |TrimLeft(s)|)
    ensures forall i | 0 <= i < |s| - |TrimLeft(s)| :: IsSpace(s[i])
    ensures forall i | |s| - |TrimLeft(s)| + |r| <= i < |s| :: IsSpace(s[i])
  {
    var l := TrimLeft(s);
    var r := TrimRight(l);
    StripFacts(s, l, r);
    r
  }

  /**
   * Trimming the front of `s` to `l`, then the back of `l` to `r`, leaves a
   * piece of `s` with only whitespace around it and none at its ends.
   */
  lemma StripFacts(s: string, l: string, r: string)
    requires |l| <= |s| && l == s[|s| - |l|..]
    requires l == [] || !IsSpace(l[0])
    requires forall i | 0 <= i < |s| - |l| :: IsSpace(s[i])
    requires |r| <= |l| && r == l[..|r|]
    requires r == [] || !IsSpace(r[|r| - 1])
    requires forall i | |r| <= i < |l| :: IsSpace(l[i])
    ensures r == [] <==> IsBlank(s)
    ensures r != [] ==> !IsSpace(r[0]) && !IsSpace(r[|r| - 1])
    ensures IsSliceAt(r, s, |s| - |l|)
    ensures forall i | |s| - |l| + |r| <= i < |s| :: IsSpace(s[i])
  {
    var a := |s| - |l|;
    if l != [] {
      assert l[0] == s[a];
    }
    if r != [] {
      assert r[0] == l[0];
    }
    forall i | a + |r| <= i < |s| ensures IsSpace(s[i]) {
      assert s[i] == l[i - a];
    }
  }

  /** Stripping a stripped text changes nothing. */
  lemma StripIdempotent(s: string)
    ensures Strip(Strip(s)) == Strip(s)
  {
    var r := Strip(s);
    if r != [] {
      assert TrimLeft(r) == r;
      assert TrimRight(r) == r;
    }
  }

  /** The longest prefix of `s` that holds no whitespace. */
  function LeadingWord(s: string): (w: string)
    ensures |w| <= |s| && w == s[..|w|]
    ensures forall i | 0 <= i < |w| :: !IsSpace(w[i])
    ensures |w| == |s| || IsSpace(s[|w|])
    ensures s != [] && !IsSpace(s[0]) ==> w != []
  {
    if |s| > 0 && !IsSpace(s[0]) then [s[0]] + LeadingWord(s[1..]) else []
  }

  /** Every character of `w` is a non-whitespace character, and there is at least one. */
  predicate IsWord(w: string) {
    w != [] && forall i | 0 <= i < |w| :: !IsSpace(w[i])
  }

  /** `s.split()`: the maximal runs of non-whitespace characters of `s`, in order. */
  function Words(s: string): seq<string>
    decreases |s|
  {
    var t := TrimLeft(s);
    if t == [] then []
    else
      var w := LeadingWord(t);
      [w] + Words(t[|w|..])
  }

  /** Every piece `split()` returns is a non-empty run of non-whitespace characters. */
  lemma {:induction false} WordsAreWords(s: string)
    ensures forall k | 0 <= k < |Words(s)| :: IsWord(Words(s)[k])
    decreases |s|
  {
    var t := TrimLeft(s);
    if t != [] {
      var w := LeadingWord(t);
      var rest := Words(t[|w|..]);
      WordsAreWords(t[|w|..]);
      assert IsWord(w);
      ConsWords(w, rest);
    }
  }

  lemma ConsWords(w: string, rest: seq<string>)
    requires IsWord(w) && forall k | 0 <= k < |rest| :: IsWord(rest[k])
    ensures forall k | 0 <= k < |[w] + rest| :: IsWord(([w] + rest)[k])
  {
  }

  /** A text has no words exactly when it is blank. */
  lemma WordsEmptyIffBlank(s: string)
    ensures Words(s) == [] <==> IsBlank(s)
  {
    var t := TrimLeft(s);
    if t != [] {
      assert s[|s| - |t|] == t[0];
    }
  }

  /**
   * An independent count of the words of `s`: the positions holding a
   * non-whitespace character that follows whitespace (or, when `afterSpace`,
   * the start of the text).
   */
  function WordStarts(s: string, afterSpace: bool): nat {
    if s == [] then 0
    else (if afterSpace && !IsSpace(s[0]) then 1 else 0) + WordStarts(s[1..], IsSpace(s[0]))
  }

  lemma {:induction false} WordStartsSkipSpaces(s: string)
    ensures WordStarts(s, true) == WordStarts(TrimLeft(s), true)
    decreases |s|
  {
    if |s| > 0 && IsSpace(s[0]) {
      WordStartsSkipSpaces(s[1..]);
    }
  }

  lemma {:induction false} WordStartsSkipWord(s: string)
    requires s != [] && !IsSpace(s[0])
    ensures WordStarts(s, true) == 1 + WordStarts(s[|LeadingWord(s)|..], true)
  {
    var w := LeadingWord(s);
    WordStartsInsideWord(s[1..]);
    assert s[1..][|LeadingWord(s[1..])|..] == s[|w|..];
  }

  lemma {:induction false} WordStartsInsideWord(s: string)
    ensures WordStarts(s, false) == WordStarts(s[|LeadingWord(s)|..], true)
    decreases |s|
  {
    if |s| > 0 && !IsSpace(s[0]) {
      WordStartsInsideWord(s[1..]);
      assert s[1..][|LeadingWord(s[1..])|..] == s[|LeadingWord(s)|..];
    } else if |s| > 0 {
      assert LeadingWord(s) == [];
    }
  }

  /** `len(s.split())` equals the number of places where a word begins. */
  lemma {:induction false} WordsCountIsWordStarts(s: string)
    ensures |Words(s)| == WordStarts(s, true)
    decreases |s|
  {
    var t := TrimLeft(s);
    WordStartsSkipSpaces(s);
    if t != [] {
      var w := LeadingWord(t);
      WordStartsSkipWord(t);
      WordsCountIsWordStarts(t[|w|..]);
    }
  }

  lemma {:induction false} WordStartsAllSpaces(q: string, afterSpace: bool)
    requires IsBlank(q)
    ensures WordStarts(q, afterSpace) == 0
    decreases |q|
  {
    if q != [] {
      WordStartsAllSpaces(q[1..], IsSpace(q[0]));
    }
  }

  lemma {:induction false} WordStartsTrailingSpaces(p: string, q: string, afterSpace: bool)
    requires IsBlank(q)
    ensures WordStarts(p + q, afterSpace) == WordStarts(p, afterSpace)
    decreases |p|
  {
    if p == [] {
      assert p + q == q;
      WordStartsAllSpaces(q, afterSpace);
    } else {
      assert (p + q)[0] == p[0] && (p + q)[1..] == p[1..] + q;
      WordStartsTrailingSpaces(p[1..], q, IsSpace(p[0]));
    }
  }

  lemma SplitAt(s: string, k: nat)
    requires k <= |s|
    ensures s[..k] + s[k..] == s
  {
  }

  /** Stripping first does not change how many words `split()` finds. */
  lemma StripKeepsWordCount(s: string)
    ensures |Words(Strip(s))| == |Words(s)|
  {
    var t := TrimLeft(s);
    var r := TrimRight(t);
    var q := t[|r|..];
    assert IsBlank(q) by {
      forall i | 0 <= i < |q| ensures IsSpace(q[i]) {
        assert q[i] == t[|r| + i];
      }
    }
    SplitAt(t, |r|);
    WordStartsTrailingSpaces(r, q, true);
    WordStartsSkipSpaces(s);
    WordsCountIsWordStarts(s);
    WordsCountIsWordStarts(r);
  }

  /** Python's `c.lower()` on the ASCII letters; every other character is kept. */
  function LowerChar(c: char): char {
    if 'A' <= c <= 'Z' then (c as int + 32) as char else c
  }

  /** Python's `c.upper()` on the ASCII letters; every other character is kept. */
  function UpperChar(c: char): char {
    if 'a' <= c <= 'z' then (c as int - 32) as char else c
  }

  function ToLower(s: string): string {
    seq(|s|, i requires 0 <= i < |s| => LowerChar(s[i]))
  }

  function ToUpper(s: string): string {
    seq(|s|, i requires 0 <= i < |s| => UpperChar(s[i]))
  }

  /** Lower-casing leaves no upper-case ASCII letter, so doing it twice changes nothing. */
  lemma ToLowerIdempotent(s: string)
    ensures forall i | 0 <= i < |ToLower(s)| :: !('A' <= ToLower(s)[i] <= 'Z')
    ensures ToLower(ToLower(s)) == ToLower(s)
  {
  }

  /** Lower-casing forgets whether the text was upper-cased first. */
  lemma LowerOfUpper(s: string)
    ensures ToLower(ToUpper(s)) == ToLower(s)
  {
  }

  /** `sub` occurs in `s` starting at index `i`. */
  predicate OccursAt(s: string, sub: string, i: int) {
    0 <= i && i + |sub| <= |s| && s[i..i + |sub|] == sub
  }

  /** Python's `sub in s`. */
  predicate Contains(s: string, sub: string) {
    exists i | 0 <= i <= |s| - |sub| :: OccursAt(s, sub, i)
  }

  function DigitChar(d: nat): char
    requires d < 10
  {
    "0123456789"[d]
  }

  /** The decimal digits of `n`, as an f-string renders an `int`. */
  function NatToString(n: nat): (r: string)
    ensures r != [] && forall i | 0 <= i < |r| :: '0' <= r[i] <= '9'
    ensures |r| == 1 <==> n < 10
  {
    if n < 10 then [DigitChar(n)] else NatToString(n / 10) + [DigitChar(n % 10)]
  }

  /** A run of digits followed by a text that starts with a non-digit can be split in one way only. */
  lemma DigitsThenOther(x: string, s: string, y: string, t: string)
    requires forall i | 0 <= i < |x| :: '0' <= x[i] <= '9'
    requires forall i | 0 <= i < |y| :: '0' <= y[i] <= '9'
    requires s != [] && !('0' <= s[0] <= '9') && t != [] && !('0' <= t[0] <= '9')
    requires x + s == y + t
    ensures x == y && s == t
  {
    var xs := x + s;
    assert forall i | 0 <= i < |x| :: xs[i] == x[i];
    assert forall i | 0 <= i < |y| :: xs[i] == y[i];
    assert xs[|x|] == s[0] && xs[|y|] == t[0];
    assert |x| == |y|;
    assert x == xs[..|x|] && y == xs[..|y|];
  }

  /** The same holds after a common prefix. */
  lemma PrefixDigitsThenOther(p: string, x: string, s: string, y: string, t: string)
    requires forall i | 0 <= i < |x| :: '0' <= x[i] <= '9'
    requires forall i | 0 <= i < |y| :: '0' <= y[i] <= '9'
    requires s != [] && !('0' <= s[0] <= '9') && t != [] && !('0' <= t[0] <= '9')
    requires p + x + s == p + y + t
    ensures x == y && s == t
  {
    var m := p + x + s;
    assert x + s == m[|p|..];
    assert y + t == (p + y + t)[|p|..];
    DigitsThenOther(x, s, y, t);
  }

  /** Different numbers are rendered differently. */
  lemma {:induction false} NatToStringInjective(n: nat, m: nat)
    requires NatToString(n) == NatToString(m)
    ensures n == m
  {
    if n >= 10 && m >= 10 {
      var p, q := NatToString(n / 10), NatToString(m / 10);
      SnocInjective(p, DigitChar(n % 10), q, DigitChar(m % 10));
      DigitCharInjective(n % 10, m % 10);
      NatToStringInjective(n / 10, m / 10);
    } else if n < 10 && m < 10 {
      assert NatToString(n)[0] == DigitChar(n) && NatToString(m)[0] == DigitChar(m);
      DigitCharInjective(n, m);
    }
  }

  lemma SnocInjective(p: string, c: char, q: string, d: char)
    requires p + [c] == q + [d]
    ensures p == q && c == d
  {
    var r := p + [c];
    assert r[|r| - 1] == c && (q + [d])[|r| - 1] == d;
    assert p == r[..|r| - 1] && q == (q + [d])[..|r| - 1];
  }

  lemma DigitCharInjective(a: nat, b: nat)
    requires a < 10 && b < 10 && DigitChar(a) == DigitChar(b)
    ensures a == b
  {
  }

}
