/**
 * `ProfileListParser`: the "Who's Watching" page lists one anchor of class
 * `profile-link` per profile; the parser collects `(name, href)` pairs,
 * the name being the anchor's text without surrounding whitespace.
 */
module ProfileParsing {
  import opened Text
  import opened Html

  /** The class token that marks a profile anchor. */
  const ProfileToken := "profile-link"

  /** `profiles`, `_current_link` and `_current_name`. */
  datatype ProfileState = ProfileState(profiles: seq<(string, string)>, link: Option<string>, name: string)

  /** The state `reset` establishes. */
  const Init := ProfileState([], None, "")

  /** `if self._current_link:` — an empty `href` counts as no link. */
  predicate Pending(s: ProfileState) {
    s.link.Some? && s.link.value != ""
  }

  predicate IsProfileLink(tag: string, attrs: seq<Attr>) {
    tag == "a" && HasClass(attrs, ProfileToken)
  }

  predicate OpensAnchor(e: Event) {
    e.StartTag? && IsProfileLink(e.tag, e.attrs)
  }

  /** Inline content of an anchor: neither a new profile anchor nor `</a>`. */
  predicate KeepsAnchor(e: Event) {
    !OpensAnchor(e) && !(e.EndTag? && e.tag == "a")
  }

  /** A profile anchor without `href`: `attrs['href']` raises `KeyError`. */
  predicate MissingHref(e: Event) {
    e.StartTag? && IsProfileLink(e.tag, e.attrs) && "href" !in Dict(e.attrs)
  }

  /**
   * One event handler call; `None` is the `KeyError` raised by
   * `attrs['href']` when a profile anchor has no `href`.
   */
  function Step(s: ProfileState, e: Event): (r: Option<ProfileState>)
    ensures r.None? <==> MissingHref(e)
    ensures r.Some? ==> s.profiles <= r.value.profiles
    // Exactly one profile per `</a>` that closes a pending link, after which link and name are reset.
    ensures r.Some? ==> |r.value.profiles| == |s.profiles| + (if e.EndTag? && e.tag == "a" && Pending(s) then 1 else 0)
    ensures r.Some? && e.EndTag? && e.tag == "a" && Pending(s) ==>
              r.value.profiles[|s.profiles|] == (Strip(s.name), s.link.value) && r.value.link.None? && r.value.name == ""
    // Text is kept only while a link is pending.
    ensures e.Data? && !Pending(s) ==> r == Some(s)
  {
    match e
    case StartTag(tag, attrs) =>
      var d := Dict(attrs);
      if IsProfileLink(tag, attrs) then
        if "href" in d then Some(s.(link := Some(d["href"]))) else None
      else Some(s)
    case EndTag(tag) =>
      if tag == "a" && Pending(s) then Some(ProfileState(s.profiles + [(Strip(s.name), s.link.value)], None, ""))
      else Some(s)
    case Data(text) =>
      if Pending(s) then Some(s.(name := s.name + text)) else Some(s)
  }

  /** Feeding a stream of events; the first `KeyError` ends the parse. */
  function Run(s: ProfileState, es: seq<Event>): Option<ProfileState>
    decreases |es|
  {
    if es == [] then Some(s)
    else match Step(s, es[0])
      case None => None
      case Some(s') => Run(s', es[1..])
  }

  /** Profiles are only ever appended. */
  lemma {:induction false} ProfilesOnlyGrow(s: ProfileState, es: seq<Event>)
    requires Run(s, es).Some?
    ensures s.profiles <= Run(s, es).value.profiles
    decreases |es|
  {
    if es != [] {
      var s' := Step(s, es[0]).value;
      ProfilesOnlyGrow(s', es[1..]);
    }
  }

  /** The parse fails exactly when some profile anchor lacks an `href`. */
  lemma {:induction false} FailsOnMissingHref(s: ProfileState, es: seq<Event>)
    ensures Run(s, es).None? <==> exists i :: 0 <= i < |es| && MissingHref(es[i])
    decreases |es|
  {
    if es != [] {
      var r := Step(s, es[0]);
      MissingTail(es);
      if r.Some? {
        assert Run(s, es) == Run(r.value, es[1..]);
        FailsOnMissingHref(r.value, es[1..]);
      }
    }
  }

  /** Some event of `es` lacks its `href` exactly when the first or a later one does. */
  lemma MissingTail(es: seq<Event>)
    requires es != []
    ensures (exists i :: 0 <= i < |es| && MissingHref(es[i]))
        <==> MissingHref(es[0]) || exists i :: 0 <= i < |es[1..]| && MissingHref(es[1..][i])
  {
    if exists i :: 0 <= i < |es[1..]| && MissingHref(es[1..][i]) {
      var i :| 0 <= i < |es[1..]| && MissingHref(es[1..][i]);
      assert es[1..][i] == es[i + 1];
    }
    if exists i :: 0 <= i < |es| && MissingHref(es[i]) {
      var i :| 0 <= i < |es| && MissingHref(es[i]);
      if i > 0 {
        assert es[1..][i - 1] == es[i];
      }
    }
  }

  /** A stream that opens no profile anchor leaves a state without a pending link as it is. */
  lemma {:induction false} NoLinkNoProfile(s: ProfileState, es: seq<Event>)
    requires !Pending(s)
    requires forall i :: 0 <= i < |es| ==> !OpensAnchor(es[i])
    ensures Run(s, es) == Some(s)
    decreases |es|
  {
    if es != [] {
      assert Step(s, es[0]) == Some(s);
      assert forall i :: 0 <= i < |es[1..]| ==> es[1..][i] == es[i + 1];
      NoLinkNoProfile(s, es[1..]);
    }
  }

  /** Inside an anchor the text accumulates; nothing else changes. */
  lemma {:induction false} InsideAnchor(s: ProfileState, es: seq<Event>)
    requires Pending(s)
    requires forall i :: 0 <= i < |es| ==> KeepsAnchor(es[i])
    ensures Run(s, es) == Some(s.(name := s.name + Texts(es)))
    decreases |es|
  {
    if es == [] {
      assert s.name + "" == s.name;
    } else {
      var t := if es[0].Data? then es[0].text else "";
      var s' := s.(name := s.name + t);
      StepInsideAnchor(s, es[0]);
      assert Run(s, es) == Run(s', es[1..]);
      KeepsTail(es);
      InsideAnchor(s', es[1..]);
      assert Texts(es) == t + Texts(es[1..]);
      AppendAssoc(s.name, t, Texts(es[1..]));
    }
  }

  lemma AppendAssoc(a: string, b: string, c: string)
    ensures a + b + c == a + (b + c)
  {
  }

  lemma KeepsTail(es: seq<Event>)
    requires es != [] && forall i :: 0 <= i < |es| ==> KeepsAnchor(es[i])
    ensures KeepsAnchor(es[0]) && forall i :: 0 <= i < |es[1..]| ==> KeepsAnchor(es[1..][i])
  {
    forall i | 0 <= i < |es[1..]|
      ensures KeepsAnchor(es[1..][i])
    {
      assert es[1..][i] == es[i + 1];
    }
  }

  lemma StepInsideAnchor(s: ProfileState, e: Event)
    requires Pending(s) && KeepsAnchor(e)
    ensures Step(s, e) == Some(s.(name := s.name + (if e.Data? then e.text else "")))
  {
    assert s.name + "" == s.name;
  }

  lemma RunOfAppend(s: ProfileState, a: seq<Event>, b: seq<Event>)
    requires Run(s, a).Some?
    ensures Run(s, a + b) == Run(Run(s, a).value, b)
    decreases |a|
  {
    if a == [] {
      assert a + b == b;
    } else {
      assert (a + b)[0] == a[0] && (a + b)[1..] == a[1..] + b;
      RunOfAppend(Step(s, a[0]).value, a[1..], b);
    }
  }

  lemma RunOfSingle(s: ProfileState, e: Event)
    ensures Run(s, [e]) == Step(s, e)
  {
    assert [e][1..] == [];
  }

  /**
   * A profile anchor with a non-empty `href`, any text and inline markup
   * inside, then `</a>`, appends one profile: the stripped text (after any
   * name left over from an anchor whose `href` was empty) and the `href`.
   */
  lemma AnchorGivesProfile(s: ProfileState, attrs: seq<Attr>, body: seq<Event>, h: string)
    requires IsProfileLink("a", attrs) && "href" in Dict(attrs) && Dict(attrs)["href"] == h && h != ""
    requires forall i :: 0 <= i < |body| ==> KeepsAnchor(body[i])
    ensures Run(s, [StartTag("a", attrs)] + body + [EndTag("a")])
         == Some(ProfileState(s.profiles + [(Strip(s.name + Texts(body)), h)], None, ""))
  {
    var s1 := s.(link := Some(h));
    RunOfSingle(s, StartTag("a", attrs));
    RunOfAppend(s, [StartTag("a", attrs)], body);
    InsideAnchor(s1, body);
    RunOfAppend(s, [StartTag("a", attrs)] + body, [EndTag("a")]);
    RunOfSingle(s1.(name := s1.name + Texts(body)), EndTag("a"));
  }

  /** The parser object. */
  class ProfileListParser {
    var profiles: seq<(string, string)>
    var link: Option<string>
    var name: string

    function State(): ProfileState
      reads this
    {
      ProfileState(profiles, link, name)
    }

    constructor ()
      ensures State() == Init
    {
      profiles, link, name := [], None, "";
    }

    method Reset()
      modifies this
      ensures State() == Init
    {
      profiles, link, name := [], None, "";
    }

    /** `ok` is false where the source raises `KeyError`; the state is then untouched. */
    method HandleStartTag(tag: string, attrs: seq<Attr>) returns (ok: bool)
      modifies this
      ensures var r := Step(old(State()), StartTag(tag, attrs));
              (ok <==> r.Some?) && State() == (if ok then r.value else old(State()))
    {
      ok := true;
      var d := Dict(attrs);
      if tag == "a" && ProfileToken in Words(GetOr(d, "class", "")) {
        if "href" !in d {
          return false;
        }
        link := Some(d["href"]);
      }
    }

    method HandleEndTag(tag: string)
      modifies this
      ensures Step(old(State()), EndTag(tag)) == Some(State())
    {
      if tag == "a" && link.Some? && link.value != "" {
        profiles := profiles + [(Strip(name), link.value)];
        link := None;
        name := "";
      }
    }

    method HandleData(text: string)
      modifies this
      ensures Step(old(State()), Data(text)) == Some(State())
    {
      if link.Some? && link.value != "" {
        name := name + text;
      }
    }

    /** Feeds events in order, stopping at the first `KeyError`. */
    method Feed(es: seq<Event>) returns (ok: bool)
      modifies this
      ensures ok <==> Run(old(State()), es).Some?
      ensures ok ==> Some(State()) == Run(old(State()), es)
    {
      for i := 0 to |es|
        invariant Run(State(), es[i..]) == Run(old(State()), es)
      {
        assert es[i..][0] == es[i] && es[i..][1..] == es[i + 1..];
        match es[i]
        case StartTag(tag, attrs) =>
          ok := HandleStartTag(tag, attrs);
          if !ok {
            return;
          }
        case EndTag(tag) => HandleEndTag(tag);
        case Data(text) => HandleData(text);
      }
      assert es[|es|..] == [];
      ok := true;
    }
  }
}
