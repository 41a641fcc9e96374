/**
 * The handful of Python `str` operations the scraper relies on:
 * `split()` with no argument, `strip()`, `lower()`, `endswith()` and
 * `str(int)`, with a decimal parser that is the inverse of `str` on
 * integers.
 */
module Text {

  /** Python's `str.isspace()` characters: the separators of `split()` and `strip()`. */
  predicate IsSpace(c: char) {
    || '\t' <= c <= '\r'
    || '\U{001C}' <= c <= ' '
    || c == '\U{0085}' || c == '\U{00A0}' || c == '\U{1680}'
    || '\U{2000}' <= c <= '\U{200A}'
    || c == '\U{2028}' || c == '\U{2029}' || c == '\U{202F}' || c == '\U{205F}' || c == '\U{3000}'
  }

  predicate NoSpace(w: string) {
    forall i :: 0 <= i < |w| ==> !IsSpace(w[i])
  }

  /** `s` without its leading whitespace. */
  function TrimStart(s: string): (r: string)
    ensures |r| <= |s| && r == s[|s| - |r|..]
    ensures forall i :: 0 <= i < |s| - |r| ==> IsSpace(s[i])
    ensures r == [] || !IsSpace(r[0])
  {
    if s == [] || !IsSpace(s[0]) then s else TrimStart(s[1..])
  }

  /** `s` without its trailing whitespace. */
  function TrimEnd(s: string): (r: string)
    ensures |r| <= |s| && r == s[..|r|]
    ensures forall i :: |r| <= i < |s| ==> IsSpace(s[i])
    ensures r == [] || !IsSpace(r[|r| - 1])
  {
    if s == [] || !IsSpace(s[|s| - 1]) then s else TrimEnd(s[..|s| - 1])
  }

  /** Python's `s.strip()`. */
  function Strip(s: string): (r: string)
    ensures |r| <= |s|
    ensures r == [] || (!IsSpace(r[0]) && !IsSpace(r[|r| - 1]))
    ensures (forall i :: 0 <= i < |s| ==> IsSpace(s[i])) <==> r == []
    ensures exists i :: Stripped(s, i, r)
  {
    var t := TrimStart(s);
    StrippedSlice(s, t);
    TrimEnd(t)
  }

  lemma StrippedSlice(s: string, t: string)
    requires t == TrimStart(s)
    ensures Stripped(s, |s| - |t|, TrimEnd(t))
  {
    StrippedOf(s, t, TrimEnd(t));
  }

  /** A whitespace-free cut at both ends of `s`, taken in two steps. */
  lemma StrippedOf(s: string, t: string, r: string)
    requires |t| <= |s| && t == s[|s| - |t|..]
    requires forall k :: 0 <= k < |s| - |t| ==> IsSpace(s[k])
    requires |r| <= |t| && r == t[..|r|]
    requires forall k :: |r| <= k < |t| ==> IsSpace(t[k])
    ensures Stripped(s, |s| - |t|, r)
  {
    var i := |s| - |t|;
    SliceOfSuffix(s, i, |r|);
    forall k | i + |r| <= k < |s|
      ensures IsSpace(s[k])
    {
      assert s[k] == t[k - i];
    }
  }

  lemma SliceOfSuffix<T>(s: seq<T>, i: nat, n: nat)
    requires i + n <= |s|
    ensures s[i..][..n] == s[i..i + n]
  {
  }

  /** `r` is the slice of `s` at `i`, with only whitespace before and after it. */
  predicate Stripped(s: string, i: int, r: string) {
    && 0 <= i && i + |r| <= |s| && r == s[i..i + |r|]
    && (forall k :: 0 <= k < i ==> IsSpace(s[k]))
    && (forall k :: i + |r| <= k < |s| ==> IsSpace(s[k]))
  }

  /** The longest prefix of `s` that holds no whitespace. */
  function Word(s: string): (w: string)
    ensures |w| <= |s| && w == s[..|w|] && NoSpace(w)
    ensures |w| < |s| ==> IsSpace(s[|w|])
    ensures s != [] && !IsSpace(s[0]) ==> w != []
  {
    if s == [] || IsSpace(s[0]) then [] else [s[0]] + Word(s[1..])
  }

  /** Python's `s.split()`: the maximal runs of non-whitespace, in order. */
  function Words(s: string): seq<string>
    decreases |s|
  {
    var t := TrimStart(s);
    if t == [] then [] else
      var w := Word(t);
      [w] + Words(t[|w|..])
  }

  /** Non-empty and free of whitespace, as every piece of `split()` is. */
  predicate AllWords(r: seq<string>) {
    forall i :: 0 <= i < |r| ==> r[i] != [] && NoSpace(r[i])
  }

  /** Every piece `split()` returns is non-empty and holds no whitespace. */
  lemma {:induction false} WordsAreWords(s: string)
    ensures AllWords(Words(s))
    decreases |s|
  {
    var t := TrimStart(s);
    if t != [] {
      var w := Word(t);
      var r := Words(t[|w|..]);
      WordsAreWords(t[|w|..]);
      assert Words(s) == [w] + r;
      AllWordsCons(w, r);
    }
  }

  lemma AllWordsCons(w: string, r: seq<string>)
    requires w != [] && NoSpace(w) && AllWords(r)
    ensures AllWords([w] + r)
  {
    assert forall i :: 0 < i < |[w] + r| ==> ([w] + r)[i] == r[i - 1];
  }

  /** A non-empty string without whitespace splits into itself alone. */
  lemma WordsOfWord(w: string)
    requires w != [] && NoSpace(w)
    ensures Words(w) == [w]
  {
    assert TrimStart(w) == w;
    WordOfWord(w);
    assert w[|w|..] == [];
  }

  lemma {:induction false} WordOfWord(w: string)
    requires NoSpace(w)
    ensures Word(w) == w
  {
    if w != [] {
      assert NoSpace(w[1..]) by {
        forall i | 0 <= i < |w[1..]| ensures !IsSpace(w[1..][i]) { assert w[1..][i] == w[i + 1]; }
      }
      WordOfWord(w[1..]);
    }
  }

  /** Splitting words joined by one space gives the words of either side. */
  lemma {:induction false} WordsOfJoin(a: string, b: string)
    ensures Words(a + " " + b) == Words(a) + Words(b)
    decreases |a|, 1
  {
    if a == [] {
      WordsOfJoinEmpty(b);
      assert a + " " + b == [] + " " + b;
    } else if IsSpace(a[0]) {
      WordsOfJoinAtSpace(a, b);
    } else {
      WordsOfJoinAtWord(a, b);
    }
  }

  lemma {:induction false} WordsOfJoinAtSpace(a: string, b: string)
    requires a != [] && IsSpace(a[0])
    ensures Words(a + " " + b) == Words(a) + Words(b)
    decreases |a|, 0
  {
    WordsOfJoin(a[1..], b);
    WordsAfterSpace(a, a[1..]);
    DropOfJoin(a, b, 1);
    HeadOfJoin(a, b);
    WordsAfterSpace(a + " " + b, a[1..] + " " + b);
  }

  lemma WordsOfJoinEmpty(b: string)
    ensures Words([] + " " + b) == [] + Words(b)
  {
    var s := [] + " " + b;
    assert s[0] == ' ' && s[1..] == b;
    assert TrimStart(s) == TrimStart(b);
  }

  /** A leading space does not change the split. */
  lemma WordsAfterSpace(s: string, t: string)
    requires s != [] && IsSpace(s[0]) && t == s[1..]
    ensures Words(s) == Words(t)
  {
    assert TrimStart(s) == TrimStart(t);
  }

  lemma {:induction false} WordsOfJoinAtWord(a: string, b: string)
    requires a != [] && !IsSpace(a[0])
    ensures Words(a + " " + b) == Words(a) + Words(b)
    decreases |a|, 0
  {
    var s := a + " " + b;
    var w := Word(a);
    var rest := a[|w|..];
    WordPrefixOfJoin(a, b);
    assert s[0] == a[0];
    assert TrimStart(s) == s;
    assert TrimStart(a) == a;
    assert Words(a) == [w] + Words(rest);
    DropOfJoin(a, b, |w|);
    assert Words(s) == [w] + Words(rest + " " + b);
    WordsOfJoin(rest, b);
    ConsAssoc(w, Words(rest), Words(b));
  }

  lemma ConsAssoc<T>(w: T, x: seq<T>, y: seq<T>)
    ensures [w] + (x + y) == ([w] + x) + y
  {
  }

  lemma HeadOfJoin(a: string, b: string)
    requires a != []
    ensures (a + " " + b)[0] == a[0]
  {
  }

  lemma DropOfJoin(a: string, b: string, k: nat)
    requires k <= |a|
    ensures (a + " " + b)[k..] == a[k..] + " " + b
  {
  }

  /** The first word of `a + " " + b` lies inside `a` when `a` starts with a non-space. */
  lemma {:induction false} WordPrefixOfJoin(a: string, b: string)
    ensures Word(a + " " + b) == Word(a)
  {
    var s := a + " " + b;
    if a == [] {
      assert s[0] == ' ';
    } else if !IsSpace(a[0]) {
      assert s[0] == a[0];
      assert s[1..] == a[1..] + " " + b;
      WordPrefixOfJoin(a[1..], b);
    } else {
      assert s[0] == a[0];
    }
  }

  predicate IsUpper(c: char) { 'A' <= c <= 'Z' }

  function LowerChar(c: char): char {
    if IsUpper(c) then (c as int + 32) as char else c
  }

  /** Python's `s.lower()` restricted to ASCII letters. */
  function Lower(s: string): (r: string)
    ensures |r| == |s|
    ensures forall i :: 0 <= i < |s| ==> r[i] == LowerChar(s[i])
  {
    if s == [] then [] else [LowerChar(s[0])] + Lower(s[1..])
  }

  lemma {:induction false} LowerIdempotent(s: string)
    ensures Lower(Lower(s)) == Lower(s)
  {
    var l := Lower(s);
    assert forall i :: 0 <= i < |s| ==> Lower(l)[i] == LowerChar(LowerChar(s[i])) == l[i];
  }

  predicate EndsWith(s: string, suffix: string) {
    |suffix| <= |s| && s[|s| - |suffix|..] == suffix
  }

  predicate IsDigit(c: char) { '0' <= c <= '9' }

  predicate AllDigits(s: string) {
    forall i :: 0 <= i < |s| ==> IsDigit(s[i])
  }

  function DigitChar(d: nat): (c: char)
    requires d < 10
    ensures IsDigit(c) && c as int - '0' as int == d
  {
    ('0' as int + d) as char
  }

  /** Python's `str(n)` for a non-negative integer: decimal digits, no leading zero. */
  function NatToString(n: nat): (r: string)
    ensures r != [] && AllDigits(r)
    ensures r[0] == '0' ==> n == 0 && r == "0"
  {
    if n < 10 then [DigitChar(n)] else NatToString(n / 10) + [DigitChar(n % 10)]
  }

  /** Python's `str(n)`. */
  function IntToString(n: int): (r: string)
    ensures r != []
  {
    if n < 0 then "-" + NatToString(-n) else NatToString(n)
  }

  /** The value of a string of decimal digits (leading zeros allowed). */
  function DigitsValue(s: string): nat
    requires AllDigits(s)
  {
    if s == [] then 0 else DigitsValue(s[..|s| - 1]) * 10 + (s[|s| - 1] as int - '0' as int)
  }

  /** Python's `int(s)` on the strings `str` produces: an optional `-`, then digits. */
  function ParseInt(s: string): (r: Option<int>)
  {
    if s != [] && s[0] == '-' then
      (if |s| > 1 && AllDigits(s[1..]) then Some(-(DigitsValue(s[1..]) as int)) else None)
    else if s != [] && AllDigits(s) then Some(DigitsValue(s) as int)
    else None
  }

  datatype Option<+T> = None | Some(value: T)

  lemma {:induction false} NatToStringValue(n: nat)
    ensures DigitsValue(NatToString(n)) == n
  {
    if n >= 10 {
      var r := NatToString(n);
      NatToStringValue(n / 10);
      assert r[..|r| - 1] == NatToString(n / 10);
    }
  }

  /** `str` on integers is undone by parsing. */
  lemma IntToStringRoundTrip(n: int)
    ensures ParseInt(IntToString(n)) == Some(n)
  {
    var s := IntToString(n);
    if n < 0 {
      var d := NatToString(-n);
      NatToStringValue(-n);
      assert s == "-" + d && s[1..] == d;
    } else {
      NatToStringValue(n);
      assert IsDigit(s[0]);
    }
  }

  /** Distinct integers have distinct decimal renderings, so `str(n)` keys never collide. */
  lemma IntToStringInjective(a: int, b: int)
    ensures IntToString(a) == IntToString(b) ==> a == b
  {
    IntToStringRoundTrip(a);
    IntToStringRoundTrip(b);
  }

  /** A string of digits that starts with `0` and is longer than one digit is never `str(n)`. */
  lemma PaddedIsNotIntToString(s: string, n: int)
    requires |s| > 1 && s[0] == '0'
    ensures IntToString(n) != s
  {
  }
}
