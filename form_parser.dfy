/**
 * `FormParser`: a record of every `<form>` of a page, keyed by its `id` or,
 * failing that, by the number of forms recorded before it, with the form
 * tag's own attributes and the `name`/`value` of every named tag inside it.
 */
module FormParsing {
  import opened Text
  import opened Html

  /** A key of `form_data`: an `id` string or an integer position, never equal to each other. */
  datatype FormKey = Id(id: string) | Index(n: nat)

  /** `{'attrs': attrs, 'fields': {}}`; a field without `value` holds `None`. */
  datatype Form = Form(attrs: map<string, string>, fields: map<string, Option<string>>)

  /**
   * The parser's fields: `form_data` as an insertion-ordered dictionary
   * (`order` lists its keys in insertion order) and `_current_form`.
   */
  datatype FormState = FormState(order: seq<FormKey>, forms: map<FormKey, Form>, current: Option<FormKey>)

  /** The state `reset` establishes. */
  const Init := FormState([], map[], None)

  predicate Distinct(ks: seq<FormKey>) {
    forall i, j :: 0 <= i < j < |ks| ==> ks[i] != ks[j]
  }

  /**
   * `order` lists each key of `forms` once, the current form is recorded,
   * and every integer key is smaller than the number of forms.
   */
  predicate Wellformed(s: FormState) {
    && Distinct(s.order)
    && (forall k :: k in s.forms ==> k in s.order)
    && (forall i :: 0 <= i < |s.order| ==> s.order[i] in s.forms)
    && (s.current.Some? ==> s.current.value in s.forms)
    && (forall k :: k in s.forms && k.Index? ==> k.n < |s.order|)
  }

  /** Python's `d.get(key)`. */
  function Get(d: map<string, string>, key: string): Option<string> {
    if key in d then Some(d[key]) else None
  }

  /** Lines 41-43: a `form` start tag opens (or re-opens) the form under its key. */
  function OpenForm(s: FormState, d: map<string, string>): (r: FormState)
    requires Wellformed(s)
    ensures Wellformed(r)
    ensures r.current.Some? && r.forms[r.current.value] == Form(d, map[])
    ensures "id" in d ==> r.current == Some(Id(d["id"]))
    ensures "id" !in d ==> r.current == Some(Index(|s.order|)) && r.order == s.order + [Index(|s.order|)]
    ensures forall k :: k in s.forms && Some(k) != r.current ==> k in r.forms && r.forms[k] == s.forms[k]
    ensures s.order <= r.order
    // Exactly one key is added, and a key already present keeps its place in the insertion order.
    ensures r.forms.Keys == s.forms.Keys + {r.current.value}
    ensures r.order == (if r.current.value in s.forms then s.order else s.order + [r.current.value])
  {
    var key := if "id" in d then Id(d["id"]) else Index(|s.order|);
    var order := if key in s.forms then s.order else s.order + [key];
    FormState(order, s.forms[key := Form(d, map[])], Some(key))
  }

  /** Lines 46-48: a tag with a `name` inside a form records that field. */
  function AddField(s: FormState, d: map<string, string>): (r: FormState)
    requires Wellformed(s)
    ensures Wellformed(r)
    ensures r.order == s.order && r.current == s.current && r.forms.Keys == s.forms.Keys
    ensures s.current.Some? && "name" in d ==>
              d["name"] in r.forms[s.current.value].fields && r.forms[s.current.value].fields[d["name"]] == Get(d, "value")
    // The current form keeps its attributes and every other field.
    ensures s.current.Some? ==>
              && r.forms[s.current.value].attrs == s.forms[s.current.value].attrs
              && (forall n :: n in s.forms[s.current.value].fields && ("name" !in d || n != d["name"]) ==>
                    n in r.forms[s.current.value].fields
                    && r.forms[s.current.value].fields[n] == s.forms[s.current.value].fields[n])
              && r.forms[s.current.value].fields.Keys
                 == s.forms[s.current.value].fields.Keys + (if "name" in d then {d["name"]} else {})
    ensures forall k :: k in s.forms && (s.current != Some(k) || "name" !in d) ==> r.forms[k] == s.forms[k]
  {
    if s.current.Some? && "name" in d then
      var k := s.current.value;
      var f := s.forms[k];
      s.(forms := s.forms[k := f.(fields := f.fields[d["name"] := Get(d, "value")])])
    else s
  }

  /** One event handler call; field recording runs after a `form` tag is opened. */
  function Step(s: FormState, e: Event): (r: FormState)
    requires Wellformed(s)
    ensures Wellformed(r)
    // Only `</form>` closes the current form; other end tags and text change nothing.
    ensures e.EndTag? ==> r == s.(current := if e.tag == "form" then None else s.current)
    ensures e.Data? ==> r == s
  {
    match e
    case StartTag(tag, attrs) =>
      var d := Dict(attrs);
      AddField(if tag == "form" then OpenForm(s, d) else s, d)
    case EndTag(tag) => if tag == "form" then s.(current := None) else s
    case Data(_) => s
  }

  function Run(s: FormState, es: seq<Event>): (r: FormState)
    requires Wellformed(s)
    ensures Wellformed(r)
    decreases |es|
  {
    if es == [] then s else Run(Step(s, es[0]), es[1..])
  }

  /** Forms are never dropped and keep their insertion position. */
  lemma {:induction false} FormsOnlyGrow(s: FormState, es: seq<Event>)
    requires Wellformed(s)
    ensures s.order <= Run(s, es).order
    decreases |es|
  {
    if es != [] {
      var s' := Step(s, es[0]);
      assert s.order <= s'.order;
      FormsOnlyGrow(s', es[1..]);
    }
  }

  predicate OpensForm(e: Event) { e.StartTag? && e.tag == "form" }
  predicate ClosesForm(e: Event) { e.EndTag? && e.tag == "form" }

  /** Outside every form, no tag records anything. */
  lemma {:induction false} OutsideFormsNothingRecorded(s: FormState, es: seq<Event>)
    requires Wellformed(s) && s.current.None?
    requires forall i :: 0 <= i < |es| ==> !OpensForm(es[i])
    ensures Run(s, es) == s
    decreases |es|
  {
    if es != [] {
      assert Step(s, es[0]) == s;
      NamedFieldsTail(es);
      OutsideFormsNothingRecorded(s, es[1..]);
    }
  }

  lemma NamedFieldsTail(es: seq<Event>)
    requires es != []
    ensures forall i :: 0 <= i < |es[1..]| ==> es[1..][i] == es[i + 1]
  {
  }

  /** The field a start tag contributes, if it has a `name`. */
  function FieldOf(e: Event): map<string, Option<string>> {
    if e.StartTag? && "name" in Dict(e.attrs) then
      var d := Dict(e.attrs);
      map[d["name"] := Get(d, "value")]
    else map[]
  }

  /** All named tags of a stream; a later tag with the same name wins. */
  function NamedFields(es: seq<Event>): map<string, Option<string>>
    decreases |es|
  {
    if es == [] then map[] else FieldOf(es[0]) + NamedFields(es[1..])
  }

  /** One tag inside a form: the form's fields gain exactly that tag's field. */
  lemma InsideFormStep(s: FormState, e: Event)
    requires Wellformed(s) && s.current.Some?
    requires !OpensForm(e) && !ClosesForm(e)
    ensures Step(s, e)
         == s.(forms := s.forms[s.current.value := s.forms[s.current.value].(
              fields := s.forms[s.current.value].fields + FieldOf(e))])
  {
    var k := s.current.value;
    var f := s.forms[k];
    if e.StartTag? && "name" in Dict(e.attrs) {
      var d := Dict(e.attrs);
      assert f.fields[d["name"] := Get(d, "value")] == f.fields + FieldOf(e);
    } else {
      assert f.fields + FieldOf(e) == f.fields;
      assert s.forms[k := f] == s.forms;
    }
  }

  lemma UnionAssoc(a: map<string, Option<string>>, b: map<string, Option<string>>, c: map<string, Option<string>>)
    ensures a + b + c == a + (b + c)
  {
  }

  /**
   * Between a form's start and its end tag, the form's fields grow by
   * exactly the named tags in between (last one wins), and no other form
   * and not the current key change.
   */
  lemma {:induction false} InsideFormFields(s: FormState, es: seq<Event>)
    requires Wellformed(s) && s.current.Some?
    requires forall i :: 0 <= i < |es| ==> !OpensForm(es[i]) && !ClosesForm(es[i])
    ensures Run(s, es)
         == s.(forms := s.forms[s.current.value := s.forms[s.current.value].(
              fields := s.forms[s.current.value].fields + NamedFields(es))])
    decreases |es|
  {
    var k := s.current.value;
    var f := s.forms[k];
    if es == [] {
      assert f.fields + map[] == f.fields;
      assert s.forms[k := f] == s.forms;
    } else {
      InsideFormStep(s, es[0]);
      var s' := Step(s, es[0]);
      NamedFieldsTail(es);
      InsideFormFields(s', es[1..]);
      UnionAssoc(f.fields, FieldOf(es[0]), NamedFields(es[1..]));
      assert s'.forms[k := f.(fields := f.fields + NamedFields(es))]
          == s.forms[k := f.(fields := f.fields + NamedFields(es))];
    }
  }

  lemma DictPair(n1: string, v1: string, n2: string, v2: string)
    requires n1 != n2
    ensures Dict([(n1, v1), (n2, v2)]) == map[n1 := v1, n2 := v2]
  {
    assert [(n1, v1), (n2, v2)][..1] == [(n1, v1)];
    DictSingle(n1, v1);
  }

  lemma RunThree(s: FormState, a: Event, b: Event, c: Event)
    requires Wellformed(s)
    ensures Run(s, [a, b, c]) == Step(Step(Step(s, a), b), c)
  {
    var s1 := Step(s, a);
    var s2 := Step(s1, b);
    assert [a, b, c][0] == a && [a, b, c][1..] == [b, c];
    assert Run(s, [a, b, c]) == Run(s1, [b, c]);
    assert [b, c][0] == b && [b, c][1..] == [c];
    assert Run(s1, [b, c]) == Run(s2, [c]);
    assert [c][0] == c && [c][1..] == [];
    assert Run(s2, [c]) == Run(Step(s2, c), []);
  }

  lemma OpenByIdStep(x: string)
    ensures Step(Init, StartTag("form", [("id", x)]))
         == FormState([Id(x)], map[Id(x) := Form(map["id" := x], map[])], Some(Id(x)))
  {
    DictSingle("id", x);
    assert "name" !in map["id" := x];
  }

  lemma NamedInputStep(s: FormState, k: string, v: string)
    requires Wellformed(s) && s.current.Some?
    ensures var r := Step(s, StartTag("input", [("name", k), ("value", v)]));
            && r.order == s.order && r.current == s.current
            && r.forms[s.current.value].fields == s.forms[s.current.value].fields[k := Some(v)]
  {
    DictPair("name", k, "value", v);
  }

  /** `<form id="X"><input name="k" value="v"></form>` gives form `X` with field `k` = `v`. */
  lemma IdFormExample(x: string, k: string, v: string)
    ensures var r := Run(Init, [StartTag("form", [("id", x)]),
                                StartTag("input", [("name", k), ("value", v)]),
                                EndTag("form")]);
            r.order == [Id(x)] && r.forms[Id(x)].fields == map[k := Some(v)] && r.current.None?
  {
    var e1, e2, e3 := StartTag("form", [("id", x)]), StartTag("input", [("name", k), ("value", v)]), EndTag("form");
    RunThree(Init, e1, e2, e3);
    OpenByIdStep(x);
    var s1 := Step(Init, e1);
    NamedInputStep(s1, k, v);
    assert map[][k := Some(v)] == map[k := Some(v)];
  }

  /** A form without `id` takes the next integer key and leaves every earlier form in place. */
  lemma AnonymousFormKeepsEarlier(s: FormState, attrs: seq<Attr>)
    requires Wellformed(s) && "id" !in Dict(attrs)
    ensures var r := Step(s, StartTag("form", attrs));
            && r.order == s.order + [Index(|s.order|)]
            && r.current == Some(Index(|s.order|))
            && forall k :: k in s.forms ==> k in r.forms && r.forms[k] == s.forms[k]
  {
  }

  /** The `form` tag's own `name` is recorded as a field of the form it opens. */
  lemma FormTagNamesItself(s: FormState, attrs: seq<Attr>)
    requires Wellformed(s) && "name" in Dict(attrs)
    ensures var r := Step(s, StartTag("form", attrs));
            var d := Dict(attrs);
            r.forms[r.current.value].fields == map[d["name"] := Get(d, "value")]
  {
  }

  /** The parser object. */
  class FormParser {
    var order: seq<FormKey>
    var forms: map<FormKey, Form>
    var current: Option<FormKey>

    function State(): FormState
      reads this
    {
      FormState(order, forms, current)
    }

    predicate Valid()
      reads this
    {
      Wellformed(State())
    }

    constructor ()
      ensures Valid() && State() == Init
    {
      order, forms, current := [], map[], None;
    }

    method Reset()
      modifies this
      ensures Valid() && State() == Init
    {
      order, forms, current := [], map[], None;
    }

    method HandleStartTag(tag: string, attrs: seq<Attr>)
      requires Valid()
      modifies this
      ensures Valid() && State() == Step(old(State()), StartTag(tag, attrs))
    {
      var d := Dict(attrs);
      if tag == "form" {
        var key := if "id" in d then Id(d["id"]) else Index(|order|);
        current := Some(key);
        if key !in forms {
          order := order + [key];
        }
        forms := forms[key := Form(d, map[])];
      }
      assert State() == if tag == "form" then OpenForm(old(State()), d) else old(State());
      if current.Some? && "name" in d {
        var f := forms[current.value];
        forms := forms[current.value := f.(fields := f.fields[d["name"] := Get(d, "value")])];
      }
    }

    method HandleEndTag(tag: string)
      requires Valid()
      modifies this
      ensures Valid() && State() == Step(old(State()), EndTag(tag))
    {
      if tag == "form" {
        current := None;
      }
    }

    method Feed(es: seq<Event>)
      requires Valid()
      modifies this
      ensures Valid() && State() == Run(old(State()), es)
    {
      for i := 0 to |es|
        invariant Valid()
        invariant Run(State(), es[i..]) == Run(old(State()), es)
      {
        assert es[i..][0] == es[i] && es[i..][1..] == es[i + 1..];
        match es[i]
        case StartTag(tag, attrs) => HandleStartTag(tag, attrs);
        case EndTag(tag) => HandleEndTag(tag);
        case Data(_) =>
      }
      assert es[|es|..] == [];
    }
  }
}
