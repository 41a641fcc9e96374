/**
 * `CaptureParser` and its two instances, `ErrorMessageParser` and
 * `TitleParser`: collect the text inside every top-level element whose
 * `class` token list holds a given token. A depth counter follows the
 * nesting, so tags inside a region never split it.
 */
module CaptureParsing {
  import opened Text
  import opened Html

  /** The class token of `ErrorMessageParser.criteria`. */
  const ErrorToken := "ui-message-error"
  /** The class token of `TitleParser.criteria`. */
  const TitleToken := "genreTitle"

  /** The parser's fields: `strings`, `_current` and `_inside`. */
  datatype CaptureState = CaptureState(strings: seq<string>, current: string, inside: nat)

  /** The state `reset` establishes. */
  const Init := CaptureState([], "", 0)

  /** Outside every region the accumulator is empty. */
  predicate Consistent(s: CaptureState) {
    s.inside == 0 ==> s.current == ""
  }

  /** `criteria(tag, attrs)`: the tag name plays no part. */
  predicate Opens(token: string, attrs: seq<Attr>) {
    HasClass(attrs, token)
  }

  /** One event handler call. */
  function Step(token: string, s: CaptureState, e: Event): (r: CaptureState)
    ensures Consistent(s) ==> Consistent(r)
    ensures s.strings <= r.strings
    // Inside a region every start tag goes one level deeper.
    ensures e.StartTag? && s.inside > 0 ==> r.inside == s.inside + 1 && r.strings == s.strings
    // Outside, only a tag carrying the class token opens a region.
    ensures e.StartTag? && s.inside == 0 ==> (r.inside == 1 <==> Opens(token, e.attrs)) && r.strings == s.strings
    // An end tag outside every region is ignored.
    ensures e.EndTag? && s.inside == 0 ==> r == s
    // Text outside every region is dropped.
    ensures e.Data? && s.inside == 0 ==> r == s
  {
    match e
    case StartTag(_, attrs) =>
      if s.inside > 0 then s.(inside := s.inside + 1)
      else if Opens(token, attrs) then s.(inside := 1)
      else s
    case EndTag(_) =>
      if s.inside == 0 then s
      else if s.inside == 1 then CaptureState(s.strings + [s.current], "", 0)
      else s.(inside := s.inside - 1)
    case Data(text) =>
      if s.inside > 0 then s.(current := s.current + text) else s
  }

  /** Feeding a whole event stream. */
  function Run(token: string, s: CaptureState, es: seq<Event>): CaptureState
    decreases |es|
  {
    if es == [] then s else Run(token, Step(token, s, es[0]), es[1..])
  }

  lemma {:induction false} RunAppend(token: string, s: CaptureState, a: seq<Event>, b: seq<Event>)
    ensures Run(token, s, a + b) == Run(token, Run(token, s, a), b)
    decreases |a|
  {
    if a == [] {
      assert a + b == b;
    } else {
      assert (a + b)[0] == a[0];
      assert (a + b)[1..] == a[1..] + b;
      RunAppend(token, Step(token, s, a[0]), a[1..], b);
    }
  }

  /** The depth counter alone: tags move it, text never does. */
  function DepthStep(token: string, d: nat, e: Event): nat {
    match e
    case StartTag(_, attrs) => if d > 0 then d + 1 else if Opens(token, attrs) then 1 else 0
    case EndTag(_) => if d > 0 then d - 1 else 0
    case Data(_) => d
  }

  function Depth(token: string, d: nat, es: seq<Event>): nat
    decreases |es|
  {
    if es == [] then d else Depth(token, DepthStep(token, d, es[0]), es[1..])
  }

  /** How many end tags bring the depth from 1 back to 0. */
  function Closes(token: string, d: nat, es: seq<Event>): nat
    decreases |es|
  {
    if es == [] then 0
    else (if d == 1 && es[0].EndTag? then 1 else 0) + Closes(token, DepthStep(token, d, es[0]), es[1..])
  }

  /**
   * The depth is governed by the tags alone, earlier captures are never
   * altered, and exactly one string is appended per return of the depth to 0.
   */
  lemma {:induction false} RunShape(token: string, s: CaptureState, es: seq<Event>)
    ensures Run(token, s, es).inside == Depth(token, s.inside, es)
    ensures s.strings <= Run(token, s, es).strings
    ensures |Run(token, s, es).strings| == |s.strings| + Closes(token, s.inside, es)
    decreases |es|
  {
    if es != [] {
      var s' := Step(token, s, es[0]);
      assert s'.inside == DepthStep(token, s.inside, es[0]);
      assert |s'.strings| == |s.strings| + (if s.inside == 1 && es[0].EndTag? then 1 else 0);
      RunShape(token, s', es[1..]);
    }
  }

  /** What one event does to the nesting depth. */
  function Delta(e: Event): int {
    match e
    case StartTag(_, _) => 1
    case EndTag(_) => -1
    case Data(_) => 0
  }

  /** Start tags minus end tags. */
  function Level(es: seq<Event>): int
    decreases |es|
  {
    if es == [] then 0 else Delta(es[0]) + Level(es[1..])
  }

  /** From depth `d`, the depth stays at `lo` or above throughout `es`. */
  predicate Above(lo: int, d: int, es: seq<Event>)
    decreases |es|
  {
    d >= lo && (es != [] ==> Above(lo, d + Delta(es[0]), es[1..]))
  }

  /** No prefix closes more tags than it opens, and the whole closes them all. */
  predicate Nested(es: seq<Event>) {
    Above(0, 0, es) && Level(es) == 0
  }

  lemma {:induction false} AboveShift(lo: int, d: int, es: seq<Event>)
    requires Above(lo, d, es)
    ensures Above(lo + 1, d + 1, es)
    decreases |es|
  {
    if es != [] {
      AboveShift(lo, d + Delta(es[0]), es[1..]);
    }
  }

  /**
   * Inside a region, a stream that never closes the region's own tag adds
   * all of its text to the accumulator and nothing to `strings`.
   */
  lemma {:induction false} StaysInside(token: string, s: CaptureState, es: seq<Event>)
    requires Above(1, s.inside, es)
    ensures Run(token, s, es).strings == s.strings
    ensures Run(token, s, es).current == s.current + Texts(es)
    ensures Run(token, s, es).inside == s.inside + Level(es)
    decreases |es|
  {
    if es == [] {
      assert s.current + Texts(es) == s.current;
    } else {
      var t := if es[0].Data? then es[0].text else "";
      StepInside(token, s, es[0]);
      StaysInside(token, Step(token, s, es[0]), es[1..]);
      assert s.current + t + Texts(es[1..]) == s.current + Texts(es);
    }
  }

  /** Inside a region, a step that keeps it open moves only the depth and the text. */
  lemma StepInside(token: string, s: CaptureState, e: Event)
    requires s.inside >= 1 && s.inside + Delta(e) >= 1
    ensures Step(token, s, e)
         == CaptureState(s.strings, s.current + (if e.Data? then e.text else ""), s.inside + Delta(e))
  {
  }

  /**
   * A matching start tag at depth 0, a well-nested body and one end tag
   * produce exactly one capture: all the body's text, however many tags
   * it holds.
   */
  lemma RegionCaptured(token: string, s: CaptureState, tag: string, attrs: seq<Attr>,
                       body: seq<Event>, close: string)
    requires s.inside == 0 && s.current == ""
    requires Opens(token, attrs)
    requires Nested(body)
    ensures Run(token, s, [StartTag(tag, attrs)] + body + [EndTag(close)])
         == CaptureState(s.strings + [Texts(body)], "", 0)
  {
    var open := [StartTag(tag, attrs)];
    RunAppend(token, s, open + body, [EndTag(close)]);
    RunAppend(token, s, open, body);
    var s1 := s.(inside := 1);
    RunOne(token, s, StartTag(tag, attrs));
    assert Run(token, s, open) == s1;
    AboveShift(0, 0, body);
    StaysInside(token, s1, body);
    var s2 := CaptureState(s.strings, Texts(body), 1);
    assert "" + Texts(body) == Texts(body);
    assert Run(token, s1, body) == s2;
    RunOne(token, s2, EndTag(close));
  }

  lemma RunOne(token: string, s: CaptureState, e: Event)
    ensures Run(token, s, [e]) == Step(token, s, e)
  {
    assert [e][1..] == [];
  }

  /** With no opening tag, text at depth 0 is never captured. */
  lemma {:induction false} NoOpenerNoCapture(token: string, s: CaptureState, es: seq<Event>)
    requires s.inside == 0
    requires forall i :: 0 <= i < |es| && es[i].StartTag? ==> !Opens(token, es[i].attrs)
    ensures Run(token, s, es) == s
    decreases |es|
  {
    if es != [] {
      assert Step(token, s, es[0]) == s;
      NoOpenerNoCapture(token, s, es[1..]);
    }
  }

  /** Only the `class` attribute of a tag is consulted: a tag without one never opens a region. */
  lemma OnlyClassAttribute(token: string, attrs: seq<Attr>)
    requires forall i :: 0 <= i < |attrs| ==> attrs[i].0 != "class"
    ensures !Opens(token, attrs)
  {
  }

  /**
   * A single class name opens a region exactly when it equals the token:
   * `genreTitleX` does not open a `genreTitle` region.
   */
  lemma ClassTokenExact(token: string, classes: string)
    requires classes != [] && NoSpace(classes)
    ensures Opens(token, [("class", classes)]) <==> token == classes
  {
    DictSingle("class", classes);
    assert GetOr(Dict([("class", classes)]), "class", "") == classes;
    WordsOfWord(classes);
    InSingleton(token, classes, Words(classes));
  }

  lemma InSingleton<T>(x: T, y: T, s: seq<T>)
    requires s == [y]
    ensures x in s <==> x == y
  {
  }

  /** In a space-separated class list the token may stand on either side. */
  lemma ClassAmongTokens(token: string, a: string, b: string)
    ensures Opens(token, [("class", a + " " + b)]) <==> token in Words(a) || token in Words(b)
  {
    DictSingle("class", a + " " + b);
    WordsOfJoin(a, b);
  }

  lemma TextsCons(e: Event, es: seq<Event>)
    ensures Texts([e] + es) == (if e.Data? then e.text else "") + Texts(es)
  {
    assert ([e] + es)[1..] == es;
  }

  /** The body `<span>A</span>B` is well nested and its text is `AB`. */
  lemma SpanBody(a: string, b: string)
    ensures Nested([StartTag("span", []), Data(a), EndTag("span"), Data(b)])
    ensures Texts([StartTag("span", []), Data(a), EndTag("span"), Data(b)]) == a + b
  {
    var e1, e2, e3, e4 := StartTag("span", []), Data(a), EndTag("span"), Data(b);
    var body := [e1, e2, e3, e4];
    assert body == [e1] + [e2, e3, e4] && body[1..] == [e2, e3, e4];
    assert [e2, e3, e4][1..] == [e3, e4] && [e3, e4][1..] == [e4] && [e4][1..] == [];
    assert Above(0, 0, [e4]) && Level([e4]) == 0;
    assert Above(0, 1, [e3, e4]) && Level([e3, e4]) == -1;
    assert Above(0, 1, [e2, e3, e4]) && Level([e2, e3, e4]) == -1;
    assert Texts([e4]) == b && Texts([e3, e4]) == b;
    assert Texts([e2, e3, e4]) == a + b;
    TextsCons(e1, [e2, e3, e4]);
    assert Above(0, 0, body) && Level(body) == 0;
  }

  /**
   * `<div class="genreTitle"><span>A</span>B</div>`: the inner span does not
   * split the region, whose one capture is the text of both pieces.
   */
  lemma NestedTitleExample(token: string, attrs: seq<Attr>, a: string, b: string)
    requires Opens(token, attrs)
    ensures Run(token, Init,
                [StartTag("div", attrs), StartTag("span", []), Data(a),
                 EndTag("span"), Data(b), EndTag("div")]).strings == [a + b]
  {
    var body := [StartTag("span", []), Data(a), EndTag("span"), Data(b)];
    SpanBody(a, b);
    RegionCaptured(token, Init, "div", attrs, body, "div");
    assert [StartTag("div", attrs)] + body + [EndTag("div")]
        == [StartTag("div", attrs), StartTag("span", []), Data(a),
            EndTag("span"), Data(b), EndTag("div")];
  }

  /** The events of `<div …>x</div>`. */
  function DivWith(a: seq<Attr>, x: string): seq<Event> {
    [StartTag("div", a), Data(x), EndTag("div")]
  }

  /** Two regions, one after the other, give one capture each, in order. */
  lemma TwoRegions(token: string, a1: seq<Attr>, a2: seq<Attr>, x: string, y: string)
    requires Opens(token, a1) && Opens(token, a2)
    ensures Run(token, Init, DivWith(a1, x) + DivWith(a2, y)).strings == [x, y]
  {
    OneRegion(token, Init, a1, x);
    assert Init.strings + [x] == [x];
    OneRegion(token, CaptureState([x], "", 0), a2, y);
    RunAppend(token, Init, DivWith(a1, x), DivWith(a2, y));
  }

  /** `<div class=…>x</div>` from outside any region captures `x`. */
  lemma OneRegion(token: string, s: CaptureState, a: seq<Attr>, x: string)
    requires s.inside == 0 && s.current == "" && Opens(token, a)
    ensures Run(token, s, DivWith(a, x)) == CaptureState(s.strings + [x], "", 0)
  {
    OneText(x);
    RegionCaptured(token, s, "div", a, [Data(x)], "div");
    assert [StartTag("div", a)] + [Data(x)] + [EndTag("div")] == DivWith(a, x);
  }

  lemma OneText(x: string)
    ensures Nested([Data(x)]) && Texts([Data(x)]) == x
  {
    assert [Data(x)][1..] == [];
    assert Above(0, 0, [Data(x)][1..]);
    assert x + "" == x;
  }

  /** The parser object; `token` fixes which of the two subclasses it is. */
  class CaptureParser {
    const token: string
    var strings: seq<string>
    var current: string
    var inside: nat

    function State(): CaptureState
      reads this
    {
      CaptureState(strings, current, inside)
    }

    /** `ErrorMessageParser()`. */
    constructor ErrorMessage()
      ensures token == ErrorToken && State() == Init
    {
      token := ErrorToken;
      strings, current, inside := [], "", 0;
    }

    /** `TitleParser()`. */
    constructor Title()
      ensures token == TitleToken && State() == Init
    {
      token := TitleToken;
      strings, current, inside := [], "", 0;
    }

    method Reset()
      modifies this
      ensures State() == Init
    {
      strings, current, inside := [], "", 0;
    }

    method HandleStartTag(tag: string, attrs: seq<Attr>)
      modifies this
      ensures State() == Step(token, old(State()), StartTag(tag, attrs))
    {
      ghost var s := State();
      if inside > 0 {
        inside := inside + 1;
        assert State() == s.(inside := s.inside + 1);
      } else if Opens(token, attrs) {
        inside := inside + 1;
        assert State() == s.(inside := 1);
      }
    }

    method HandleEndTag(tag: string)
      modifies this
      ensures State() == Step(token, old(State()), EndTag(tag))
    {
      if inside > 0 {
        inside := inside - 1;
        if inside == 0 {
          strings := strings + [current];
          current := "";
        }
      }
    }

    method HandleData(text: string)
      modifies this
      ensures State() == Step(token, old(State()), Data(text))
    {
      if inside > 0 {
        current := current + text;
      }
    }

    /** `feed` followed by `close`: every event, in order. */
    method Feed(es: seq<Event>)
      modifies this
      ensures State() == Run(token, old(State()), es)
    {
      for i := 0 to |es|
        invariant Run(token, State(), es[i..]) == Run(token, old(State()), es)
      {
        assert es[i..][0] == es[i] && es[i..][1..] == es[i + 1..];
        match es[i]
        case StartTag(tag, attrs) => HandleStartTag(tag, attrs);
        case EndTag(tag) => HandleEndTag(tag);
        case Data(text) => HandleData(text);
      }
      assert es[|es|..] == [];
    }
  }
}
