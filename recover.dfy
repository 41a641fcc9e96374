/**
 * The report format and its recovery: the scanner prints one line
 * `* <title> ([#<number>](<url>))` per genre, and `recover_cache` reads such
 * lines back into the genre cache with the regular expression
 * `\* (.*) \(\[#(\d*)\]\((.*)\)\)`, matched at the start of each line.
 *
 * The expression is modelled by an explicit matcher that makes the same
 * choices as the backtracking engine: `.` stops at the first newline, both
 * `.*` groups are greedy, and `\d*` can only stop where a `]` follows.
 * `\d` is read as the ASCII digits.
 */
module Recover {
  import opened Text
  import Scraping

  /** Fills the report format `'* {} ([#{}]({}))'` with three strings. */
  function Shape(title: string, digits: string, url: string): string {
    "* " + title + " ([#" + digits + "](" + url + "))"
  }

  /** The report line for genre `n` (genrescrape.py, `main`). */
  function FormatLine(title: string, n: int, url: string): string {
    Shape(title, IntToString(n), url)
  }

  predicate NoNewline(s: string) {
    forall i :: 0 <= i < |s| ==> s[i] != '\n'
  }

  /** The part of `s` that `.` can cover: everything before the first newline. */
  function Line(s: string): (r: string)
    ensures r <= s && NoNewline(r)
    ensures |r| < |s| ==> s[|r|] == '\n'
  {
    if s == [] || s[0] == '\n' then [] else [s[0]] + Line(s[1..])
  }

  /** `))` starts at `c`. */
  predicate CloseAt(s: string, c: int) {
    0 <= c && c + 2 <= |s| && s[c] == ')' && s[c + 1] == ')'
  }

  /** The last `))` that starts before `k`. */
  function LastCloseBelow(s: string, k: nat): (r: Option<nat>)
    ensures r.Some? ==> r.value < k && CloseAt(s, r.value)
    ensures forall c :: (if r.Some? then r.value else -1) < c < k ==> !CloseAt(s, c)
  {
    if k == 0 then None else if CloseAt(s, k - 1) then Some(k - 1) else LastCloseBelow(s, k - 1)
  }

  /** The end of the run of digits that starts at `i`. */
  function DigitRun(s: string, i: nat): (e: nat)
    requires i <= |s|
    ensures i <= e <= |s|
    ensures forall j :: i <= j < e ==> IsDigit(s[j])
    ensures e == |s| || !IsDigit(s[e])
    decreases |s| - i
  {
    if i < |s| && IsDigit(s[i]) then DigitRun(s, i + 1) else i
  }

  /** ` ([#` starts at `p`. */
  predicate OpensHeaderAt(s: string, p: int) {
    0 <= p && p + 4 <= |s| && s[p] == ' ' && s[p + 1] == '(' && s[p + 2] == '[' && s[p + 3] == '#'
  }

  predicate NoHeaderIn(s: string) {
    forall p :: 0 <= p < |s| - 3 ==> !OpensHeaderAt(s, p)
  }

  /**
   * The title group can end at `p`: ` ([#`, digits, `](` follow, and the
   * URL group that starts there reaches a `))` at `c` or later.
   */
  predicate HeaderAt(s: string, p: int, c: int) {
    && OpensHeaderAt(s, p)
    && var e := DigitRun(s, p + 4);
       e + 2 <= |s| && s[e] == ']' && s[e + 1] == '(' && e + 2 <= c
  }

  /** The last end of the title group before `k`, from position 2 on. */
  function LastHeaderBelow(s: string, c: int, k: nat): (r: Option<nat>)
    ensures r.Some? ==> 2 <= r.value < k && HeaderAt(s, r.value, c)
    ensures forall p {:trigger HeaderAt(s, p, c)} :: (if r.Some? then r.value else 1) < p < k ==> !HeaderAt(s, p, c)
  {
    if k <= 2 then None else if HeaderAt(s, k - 1, c) then Some(k - 1) else LastHeaderBelow(s, c, k - 1)
  }

  /**
   * `g` are groups the expression can produce on `s`: `s` starts with the
   * report line they fill, the digits are digits, `.` covered no newline,
   * and the URL group ends at the last `))` of `s`.
   */
  predicate Matched(s: string, g: (string, string, string)) {
    && Shape(g.0, g.1, g.2) <= s
    && AllDigits(g.1) && NoNewline(g.0) && NoNewline(g.2)
    && forall c :: |Shape(g.0, g.1, g.2)| - 2 < c < |s| ==> !CloseAt(s, c)
  }

  /**
   * `GENRE_REGEX.match(line)`: the three groups, title, digits and URL, or
   * `None`. The line must start with `* `; the URL ends at the last `))`
   * and the title at the last header before it.
   */
  function Match(line: string): Option<(string, string, string)> {
    Groups(Line(line))
  }

  /** The match on the part of the line `.` can cover. */
  function Groups(s: string): Option<(string, string, string)> {
    if |s| < 2 || s[0] != '*' || s[1] != ' ' then None
    else match LastCloseBelow(s, |s|)
      case None => None
      case Some(c) =>
        match LastHeaderBelow(s, c, |s|)
        case None => None
        case Some(p) =>
          var e := DigitRun(s, p + 4);
          Some((s[2..p], s[p + 4..e], s[e + 2..c]))
  }

  /** What `Match` returns are groups of the report shape, with greedy title and URL. */
  lemma MatchSound(line: string)
    ensures Match(line).Some? ==> Matched(Line(line), Match(line).value)
  {
    GroupsSound(Line(line));
  }

  lemma GroupsSound(s: string)
    requires NoNewline(s)
    ensures Groups(s).Some? ==> Matched(s, Groups(s).value)
  {
    if Groups(s).Some? {
      var c := LastCloseBelow(s, |s|).value;
      var p := LastHeaderBelow(s, c, |s|).value;
      var e := DigitRun(s, p + 4);
      assert HeaderAt(s, p, c);
      assert Groups(s).value == (s[2..p], s[p + 4..e], s[e + 2..c]);
      SlicesMatched(s, p, e, c);
    }
  }

  lemma ShapeOfSlices(s: string, p: nat, e: nat, c: nat)
    requires 2 <= p && p + 4 <= e && e + 2 <= c && CloseAt(s, c)
    requires s[0] == '*' && s[1] == ' ' && OpensHeaderAt(s, p) && s[e] == ']' && s[e + 1] == '('
    requires NoNewline(s) && forall j :: p + 4 <= j < e ==> IsDigit(s[j])
    ensures Shape(s[2..p], s[p + 4..e], s[e + 2..c]) == s[..c + 2]
    ensures |Shape(s[2..p], s[p + 4..e], s[e + 2..c])| == c + 2
    ensures AllDigits(s[p + 4..e]) && NoNewline(s[2..p]) && NoNewline(s[e + 2..c])
  {
    SlicesJoin(s, p, e, c);
    SliceClean(s, 2, p);
    SliceClean(s, e + 2, c);
    var d := s[p + 4..e];
    assert forall j :: 0 <= j < |d| ==> d[j] == s[p + 4 + j];
  }

  lemma SliceClean(s: string, i: nat, j: nat)
    requires i <= j <= |s| && NoNewline(s)
    ensures NoNewline(s[i..j])
  {
    assert forall k :: 0 <= k < j - i ==> s[i..j][k] == s[i + k];
  }

  lemma SlicesJoin(s: string, p: nat, e: nat, c: nat)
    requires 2 <= p && p + 4 <= e && e + 2 <= c && CloseAt(s, c)
    requires s[0] == '*' && s[1] == ' ' && OpensHeaderAt(s, p) && s[e] == ']' && s[e + 1] == '('
    ensures Shape(s[2..p], s[p + 4..e], s[e + 2..c]) == s[..c + 2]
  {
    Cuts(s, p, e, c);
    assert s[..2] == "* ";
    assert s[p..p + 4] == " ([#";
    assert s[e..e + 2] == "](";
    assert s[c..c + 2] == "))";
  }

  /** A prefix of `s` cut at the boundaries of the report line's parts. */
  lemma Cuts(s: string, p: nat, e: nat, c: nat)
    requires 2 <= p && p + 4 <= e && e + 2 <= c && c + 2 <= |s|
    ensures s[..c + 2] == s[..2] + s[2..p] + s[p..p + 4] + s[p + 4..e] + s[e..e + 2] + s[e + 2..c] + s[c..c + 2]
  {
    PrefixSplit(s, 2, p);
    PrefixSplit(s, p, p + 4);
    PrefixSplit(s, p + 4, e);
    PrefixSplit(s, e, e + 2);
    PrefixSplit(s, e + 2, c);
    PrefixSplit(s, c, c + 2);
  }

  lemma PrefixSplit(s: string, i: nat, j: nat)
    requires i <= j <= |s|
    ensures s[..j] == s[..i] + s[i..j]
  {
  }

  lemma SlicesMatched(s: string, p: nat, e: nat, c: nat)
    requires 2 <= p && p + 4 <= e && e + 2 <= c && CloseAt(s, c)
    requires s[0] == '*' && s[1] == ' ' && OpensHeaderAt(s, p) && s[e] == ']' && s[e + 1] == '('
    requires NoNewline(s) && forall j :: p + 4 <= j < e ==> IsDigit(s[j])
    requires forall c' :: c < c' < |s| ==> !CloseAt(s, c')
    ensures Matched(s, (s[2..p], s[p + 4..e], s[e + 2..c]))
  {
    ShapeOfSlices(s, p, e, c);
  }

  /** A line of the report, with the positions of its parts. */
  lemma ShapeLayout(t: string, d: string, u: string)
    ensures var s := Shape(t, d, u);
            var p := 2 + |t|;
            var e := p + 4 + |d|;
            var c := e + 2 + |u|;
            && |s| == c + 2
            && s[0] == '*' && s[1] == ' '
            && (forall i :: 0 <= i < |t| ==> s[2 + i] == t[i])
            && OpensHeaderAt(s, p)
            && (forall i :: 0 <= i < |d| ==> s[p + 4 + i] == d[i])
            && s[e] == ']' && s[e + 1] == '('
            && (forall i :: 0 <= i < |u| ==> s[e + 2 + i] == u[i])
            && s[c] == ')' && s[c + 1] == ')'
  {
  }

  lemma ShapeNoNewline(t: string, d: string, u: string)
    requires NoNewline(t) && NoNewline(u) && AllDigits(d)
    ensures NoNewline(Shape(t, d, u))
  {
    ShapeLayout(t, d, u);
    var s := Shape(t, d, u);
    var p := 2 + |t|;
    var e := p + 4 + |d|;
    forall i | 0 <= i < |s|
      ensures s[i] != '\n'
    {
      if 2 <= i < p {
        assert s[i] == t[i - 2];
      } else if p + 4 <= i < e {
        assert s[i] == d[i - p - 4];
      } else if e + 2 <= i < e + 2 + |u| {
        assert s[i] == u[i - e - 2];
      }
    }
  }

  lemma {:induction false} LineOfPlain(s: string, rest: string)
    requires NoNewline(s) && (rest == [] || rest[0] == '\n')
    ensures Line(s + rest) == s
  {
    if s == [] {
      assert s + rest == rest;
    } else {
      assert (s + rest)[0] == s[0];
      assert (s + rest)[1..] == s[1..] + rest;
      assert NoNewline(s[1..]) by {
        forall i | 0 <= i < |s[1..]| ensures s[1..][i] != '\n' { assert s[1..][i] == s[i + 1]; }
      }
      LineOfPlain(s[1..], rest);
    }
  }

  /** In a report line no header starts after the real one. */
  lemma NoLaterHeader(t: string, d: string, u: string)
    requires AllDigits(d) && NoHeaderIn(u)
    ensures var s := Shape(t, d, u);
            forall q :: 2 + |t| < q ==> !OpensHeaderAt(s, q)
  {
    var s := Shape(t, d, u);
    ShapeLayout(t, d, u);
    var p := 2 + |t|;
    var e := p + 4 + |d|;
    var c := e + 2 + |u|;
    forall q | p < q
      ensures !OpensHeaderAt(s, q)
    {
      if q < p + 4 {
        assert s[q] != ' ';
      } else if q < e {
        assert s[q] == d[q - p - 4];
      } else if q < e + 2 {
        assert s[q] != ' ';
      } else if q + 4 <= c {
        assert u[q - e - 2] == s[q] && u[q - e - 1] == s[q + 1];
        assert u[q - e] == s[q + 2] && u[q - e + 1] == s[q + 3];
        assert !OpensHeaderAt(u, q - e - 2);
      } else if q < c {
        assert q + 4 > |s| || s[c] != " ([#"[c - q];
      } else {
        assert q + 4 > |s|;
      }
    }
  }

  /** The digit run from `i` ends at the first non-digit. */
  lemma {:induction false} DigitRunIs(s: string, i: nat, e: nat)
    requires i <= e <= |s|
    requires forall j :: i <= j < e ==> IsDigit(s[j])
    requires e == |s| || !IsDigit(s[e])
    ensures DigitRun(s, i) == e
    decreases e - i
  {
    if i < e {
      DigitRunIs(s, i + 1, e);
    }
  }

  /** The search for the title's end finds the last header. */
  lemma {:induction false} LastHeaderIs(s: string, c: int, k: nat, p: nat)
    requires 2 <= p < k && HeaderAt(s, p, c)
    requires forall q :: p < q < k ==> !HeaderAt(s, q, c)
    ensures LastHeaderBelow(s, c, k) == Some(p)
    decreases k
  {
    if p < k - 1 {
      LastHeaderIs(s, c, k - 1, p);
    }
  }

  /** The parts of a report line, found by the matcher's searches. */
  lemma ShapeSearches(t: string, d: string, u: string)
    requires NoHeaderIn(u) && AllDigits(d)
    ensures var s := Shape(t, d, u);
            var p := 2 + |t|;
            var e := p + 4 + |d|;
            var c := e + 2 + |u|;
            && LastCloseBelow(s, |s|) == Some(c)
            && DigitRun(s, p + 4) == e
            && LastHeaderBelow(s, c, |s|) == Some(p)
  {
    ShapeCloseSearch(t, d, u);
    ShapeDigitSearch(t, d, u);
    ShapeHeaderSearch(t, d, u);
  }

  lemma ShapeCloseSearch(t: string, d: string, u: string)
    ensures var s := Shape(t, d, u);
            LastCloseBelow(s, |s|) == Some(2 + |t| + 4 + |d| + 2 + |u|)
  {
    var s := Shape(t, d, u);
    ShapeLayout(t, d, u);
    var c := 2 + |t| + 4 + |d| + 2 + |u|;
    assert !CloseAt(s, c + 1);
    assert LastCloseBelow(s, |s|) == LastCloseBelow(s, c + 1);
  }

  lemma ShapeDigitSearch(t: string, d: string, u: string)
    requires AllDigits(d)
    ensures DigitRun(Shape(t, d, u), 2 + |t| + 4) == 2 + |t| + 4 + |d|
  {
    var a, b := "* " + t + " ([#", "](" + u + "))";
    DigitsBefore(a, d, b);
    ShapeSplit(t, d, u);
  }

  lemma ShapeSplit(t: string, d: string, u: string)
    ensures Shape(t, d, u) == ("* " + t + " ([#") + d + ("](" + u + "))")
  {
  }

  /** Digits followed by a `]` form one run. */
  lemma DigitsBefore(a: string, d: string, b: string)
    requires AllDigits(d) && |b| > 0 && b[0] == ']'
    ensures DigitRun(a + d + b, |a|) == |a| + |d|
  {
    var s := a + d + b;
    forall j | |a| <= j < |a| + |d|
      ensures IsDigit(s[j])
    {
      assert s[j] == d[j - |a|];
    }
    assert s[|a| + |d|] == b[0];
    DigitRunIs(s, |a|, |a| + |d|);
  }

  lemma ShapeHeaderSearch(t: string, d: string, u: string)
    requires NoHeaderIn(u) && AllDigits(d)
    ensures var s := Shape(t, d, u);
            LastHeaderBelow(s, 2 + |t| + 4 + |d| + 2 + |u|, |s|) == Some(2 + |t|)
  {
    var s := Shape(t, d, u);
    var p := 2 + |t|;
    var c := p + 4 + |d| + 2 + |u|;
    ShapeLayout(t, d, u);
    ShapeDigitSearch(t, d, u);
    assert HeaderAt(s, p, c);
    NoLaterHeader(t, d, u);
    LastHeaderIs(s, c, |s|, p);
  }

  lemma ShapeSlices(t: string, d: string, u: string)
    ensures var s := Shape(t, d, u);
            var p := 2 + |t|;
            var e := p + 4 + |d|;
            var c := e + 2 + |u|;
            s[2..p] == t && s[p + 4..e] == d && s[e + 2..c] == u
  {
  }

  /** Matching a report line gives back its three parts. */
  lemma ShapeRoundTrip(t: string, d: string, u: string, rest: string)
    requires NoNewline(t) && NoNewline(u) && NoHeaderIn(u)
    requires AllDigits(d) && (rest == [] || rest[0] == '\n')
    ensures Match(Shape(t, d, u) + rest) == Some((t, d, u))
  {
    ShapeNoNewline(t, d, u);
    LineOfPlain(Shape(t, d, u), rest);
    GroupsOfShape(t, d, u);
  }

  lemma GroupsOfShape(t: string, d: string, u: string)
    requires NoHeaderIn(u) && AllDigits(d)
    ensures Groups(Shape(t, d, u)) == Some((t, d, u))
  {
    var s := Shape(t, d, u);
    ShapeSearches(t, d, u);
    ShapeSlices(t, d, u);
    ShapeStart(t, d, u);
    var p := 2 + |t|;
    var e := p + 4 + |d|;
    MatchBySearches(s, e + 2 + |u|, p, e);
  }

  lemma ShapeStart(t: string, d: string, u: string)
    ensures |Shape(t, d, u)| >= 2 && Shape(t, d, u)[0] == '*' && Shape(t, d, u)[1] == ' '
  {
    assert Shape(t, d, u) == "* " + (t + " ([#" + d + "](" + u + "))");
  }

  /** `Groups` in terms of its three searches. */
  lemma MatchBySearches(s: string, c: nat, p: nat, e: nat)
    requires |s| >= 2 && s[0] == '*' && s[1] == ' '
    requires LastCloseBelow(s, |s|) == Some(c) && LastHeaderBelow(s, c, |s|) == Some(p)
    requires DigitRun(s, p + 4) == e
    ensures Groups(s) == Some((s[2..p], s[p + 4..e], s[e + 2..c]))
  {
  }

  /**
   * The report line of genre `n` recovers its title, `str(n)` and URL,
   * when title and URL hold no newline and the URL no ` ([#`.
   */
  lemma FormatRoundTrip(t: string, n: nat, u: string)
    requires NoNewline(t) && NoNewline(u) && NoHeaderIn(u)
    ensures Match(FormatLine(t, n, u)) == Some((t, IntToString(n), u))
    ensures Match(FormatLine(t, n, u) + "\n") == Some((t, IntToString(n), u))
  {
    ShapeRoundTrip(t, IntToString(n), u, "");
    assert FormatLine(t, n, u) + "" == FormatLine(t, n, u);
    ShapeRoundTrip(t, IntToString(n), u, "\n");
  }

  /**
   * Every line whose first line starts with a report line matches, and its
   * title group reaches at least as far as that report line's title: the
   * title is greedy, so it may take in a later ` ([#…](…))`.
   */
  lemma MatchComplete(line: string, t: string, d: string, u: string)
    requires Shape(t, d, u) <= Line(line) && AllDigits(d)
    ensures Match(line).Some?
    ensures |t| <= |Match(line).value.0|
  {
    var s := Line(line);
    var p := 2 + |t|;
    var e := p + 4 + |d|;
    PrefixLayout(t, d, u, s);
    DigitRunIs(s, p + 4, e);
    GroupsComplete(s, p, e + 2 + |u|);
  }

  /** A header before a `))` makes `Groups` succeed with a title ending there or later. */
  lemma GroupsComplete(s: string, p: nat, c: nat)
    requires |s| >= 2 && s[0] == '*' && s[1] == ' '
    requires 2 <= p && CloseAt(s, c) && HeaderAt(s, p, c)
    ensures Groups(s).Some? && p - 2 <= |Groups(s).value.0|
  {
    var lc := LastCloseBelow(s, |s|).value;
    assert HeaderAt(s, p, lc);
    var lp := LastHeaderBelow(s, lc, |s|).value;
    MatchBySearches(s, lc, lp, DigitRun(s, lp + 4));
  }

  /**
   * Both `.*` groups are the longest ones: the URL ends at the last `))`
   * of the line and the title at the last header before it.
   */
  lemma MatchIsGreedy(line: string)
    ensures Match(line).Some? ==>
              var s := Line(line);
              var g := Match(line).value;
              var c := 2 + |g.0| + 4 + |g.1| + 2 + |g.2|;
              LastCloseBelow(s, |s|) == Some(c) && LastHeaderBelow(s, c, |s|) == Some(2 + |g.0|)
  {
    var s := Line(line);
    if Groups(s).Some? {
      var c := LastCloseBelow(s, |s|).value;
      GroupsEnds(s, c, LastHeaderBelow(s, c, |s|).value);
    }
  }

  /** Where the title and the URL of a match end. */
  lemma GroupsEnds(s: string, c: nat, p: nat)
    requires |s| >= 2 && s[0] == '*' && s[1] == ' '
    requires LastCloseBelow(s, |s|) == Some(c) && LastHeaderBelow(s, c, |s|) == Some(p)
    ensures Groups(s).Some?
    ensures var g := Groups(s).value;
            2 + |g.0| == p && 2 + |g.0| + 4 + |g.1| + 2 + |g.2| == c
  {
    assert HeaderAt(s, p, c);
    MatchBySearches(s, c, p, DigitRun(s, p + 4));
  }

  /** What a text that starts with a report line holds where. */
  lemma PrefixLayout(t: string, d: string, u: string, s: string)
    requires Shape(t, d, u) <= s && AllDigits(d)
    ensures var p := 2 + |t|;
            var e := p + 4 + |d|;
            var c := e + 2 + |u|;
            && |s| >= 2 && s[0] == '*' && s[1] == ' ' && OpensHeaderAt(s, p)
            && (forall j :: p + 4 <= j < e ==> IsDigit(s[j]))
            && s[e] == ']' && s[e + 1] == '(' && CloseAt(s, c)
  {
    var sh := Shape(t, d, u);
    ShapeLayout(t, d, u);
    assert forall i :: 0 <= i < |sh| ==> s[i] == sh[i];
  }

  /** A line that does not start with `* ` never matches. */
  lemma AnchoredAtStart(line: string)
    requires !(|line| >= 2 && line[0] == '*' && line[1] == ' ')
    ensures Match(line).None?
  {
    var s := Line(line);
    if |s| >= 2 {
      assert s[0] == line[0] && s[1] == line[1];
    }
  }

  /** `cache[number] = (title, url)` for a matching line; nothing otherwise. */
  function Apply(m: map<string, Option<(string, string)>>, line: string): map<string, Option<(string, string)>> {
    match Match(line)
    case None => m
    case Some(g) => m[g.1 := Some((g.0, g.2))]
  }

  /** The cache after `recover_cache` has read `lines` in order. */
  function Recovered(m: map<string, Option<(string, string)>>, lines: seq<string>): map<string, Option<(string, string)>>
    decreases |lines|
  {
    if lines == [] then m else Apply(Recovered(m, lines[..|lines| - 1]), lines[|lines| - 1])
  }

  /** The number of lines the expression matches, duplicates included. */
  function MatchCount(lines: seq<string>): (n: nat)
    ensures n <= |lines|
    decreases |lines|
  {
    if lines == [] then 0
    else MatchCount(lines[..|lines| - 1]) + (if Match(lines[|lines| - 1]).Some? then 1 else 0)
  }

  lemma {:induction false} MatchCountAppend(a: seq<string>, b: seq<string>)
    ensures MatchCount(a + b) == MatchCount(a) + MatchCount(b)
    decreases |b|
  {
    if b == [] {
      assert a + b == a;
    } else {
      assert (a + b)[..|a + b| - 1] == a + b[..|b| - 1];
      MatchCountAppend(a, b[..|b| - 1]);
    }
  }

  /** The key a line writes, if it matches. */
  predicate Writes(line: string, key: string) {
    Match(line).Some? && Match(line).value.1 == key
  }

  /** Entries no line writes are kept as they were: the cache is never cleared. */
  lemma {:induction false} RecoveredKeepsOthers(m: map<string, Option<(string, string)>>, lines: seq<string>, key: string)
    requires forall i :: 0 <= i < |lines| ==> !Writes(lines[i], key)
    ensures key in Recovered(m, lines) <==> key in m
    ensures key in m ==> Recovered(m, lines)[key] == m[key]
    decreases |lines|
  {
    if lines != [] {
      var init := lines[..|lines| - 1];
      assert forall i :: 0 <= i < |init| ==> init[i] == lines[i];
      assert !Writes(lines[|lines| - 1], key);
      RecoveredKeepsOthers(m, init, key);
    }
  }

  /** The last line that writes a key decides its entry. */
  lemma {:induction false} RecoveredLastWins(m: map<string, Option<(string, string)>>, lines: seq<string>, i: nat)
    requires i < |lines| && Match(lines[i]).Some?
    requires forall j :: i < j < |lines| ==> !Writes(lines[j], Match(lines[i]).value.1)
    ensures var g := Match(lines[i]).value;
            g.1 in Recovered(m, lines) && Recovered(m, lines)[g.1] == Some((g.0, g.2))
    decreases |lines|
  {
    var init := lines[..|lines| - 1];
    if i < |lines| - 1 {
      assert init[i] == lines[i];
      assert forall j :: i < j < |init| ==> init[j] == lines[j];
      RecoveredLastWins(m, init, i);
      assert !Writes(lines[|lines| - 1], Match(lines[i]).value.1);
    }
  }

  /** A key written with leading zeros, or left empty by `\d*`, is never one `genre_scan` looks up. */
  lemma PaddedKeysAreNotScanned(line: string, n: int)
    requires Match(line).Some?
    requires var d := Match(line).value.1; d == [] || (|d| > 1 && d[0] == '0')
    ensures Scraping.Key(n) != Match(line).value.1
  {
    var d := Match(line).value.1;
    if d != [] {
      PaddedIsNotIntToString(d, n);
    }
  }

  /** The report lines of a scan's yields, in order. */
  function Report(results: seq<(int, string, string)>): seq<string> {
    seq(|results|, i requires 0 <= i < |results| => FormatLine(results[i].1, results[i].0, results[i].2))
  }

  /** Parts of a yield that survive the report. */
  predicate Printable(g: (int, string, string)) {
    g.0 >= 0 && NoNewline(g.1) && NoNewline(g.2) && NoHeaderIn(g.2)
  }

  /**
   * Recovering the report of a scan puts every yielded genre back under
   * its own cache key, with its title and URL.
   */
  lemma ReportRecovers(m: map<string, Option<(string, string)>>, results: seq<(int, string, string)>, i: nat)
    requires i < |results| && Scraping.Ascending(results)
    requires forall j :: 0 <= j < |results| ==> Printable(results[j])
    ensures var g := results[i];
            Scraping.Key(g.0) in Recovered(m, Report(results))
            && Recovered(m, Report(results))[Scraping.Key(g.0)] == Some((g.1, g.2))
  {
    var lines := Report(results);
    forall j | 0 <= j < |results|
      ensures Match(lines[j]) == Some((results[j].1, IntToString(results[j].0), results[j].2))
    {
      FormatRoundTrip(results[j].1, results[j].0, results[j].2);
    }
    forall j | i < j < |lines|
      ensures !Writes(lines[j], Match(lines[i]).value.1)
    {
      IntToStringInjective(results[i].0, results[j].0);
    }
    RecoveredLastWins(m, lines, i);
  }

  /** `recover_cache(from_file)`: the number of matching lines; the cache gains their entries. */
  method RecoverCache(cache: Scraping.GenreCache, lines: seq<string>) returns (count: nat)
    modifies cache
    ensures cache.entries == Recovered(old(cache.entries), lines)
    ensures count == MatchCount(lines)
  {
    count := 0;
    for i := 0 to |lines|
      invariant cache.entries == Recovered(old(cache.entries), lines[..i])
      invariant count == MatchCount(lines[..i])
    {
      assert lines[..i + 1][..i] == lines[..i];
      var found := Match(lines[i]);
      if found.Some? {
        var (title, number, url) := found.value;
        cache.entries := cache.entries[number := Some((title, url))];
        count := count + 1;
      }
    }
    assert lines[..|lines|] == lines;
  }
}
