/**
 * The event stream an HTML tokenizer hands to the parsers: a start tag
 * with its attribute list, an end tag, or a run of text. Tokenising itself
 * (lower-casing of names, entity decoding, self-closing tags reported as a
 * start tag followed by an end tag) happens before this stream exists.
 * Void elements such as `<br>` or `<input>` produce a start tag and no end
 * tag, so inside a capture region they leave the depth raised.
 */
module Html {
  import opened Text

  /** One `(name, value)` attribute pair, in document order. */
  type Attr = (string, string)

  datatype Event =
    | StartTag(tag: string, attrs: seq<Attr>)
    | EndTag(tag: string)
    | Data(text: string)

  /**
   * Python's `dict(attrs)`: every name maps to the value of its LAST
   * occurrence in the list.
   */
  function Dict(attrs: seq<Attr>): (d: map<string, string>)
    ensures forall i :: 0 <= i < |attrs| ==> attrs[i].0 in d
    ensures forall k :: k in d ==> exists i :: 0 <= i < |attrs| && attrs[i] == (k, d[k])
  {
    if attrs == [] then map[]
    else
      var last := attrs[|attrs| - 1];
      var d' := Dict(attrs[..|attrs| - 1]);
      assert forall i :: 0 <= i < |attrs| - 1 ==> attrs[..|attrs| - 1][i] == attrs[i];
      d'[last.0 := last.1]
  }

  /** A later attribute with the same name wins. */
  lemma {:induction false} DictLastWins(attrs: seq<Attr>, i: nat)
    requires i < |attrs|
    requires forall j :: i < j < |attrs| ==> attrs[j].0 != attrs[i].0
    ensures Dict(attrs)[attrs[i].0] == attrs[i].1
  {
    if i < |attrs| - 1 {
      var init := attrs[..|attrs| - 1];
      assert init[i] == attrs[i];
      assert forall j :: i < j < |init| ==> init[j] == attrs[j];
      DictLastWins(init, i);
    }
  }

  lemma DictSingle(name: string, value: string)
    ensures Dict([(name, value)]) == map[name := value]
  {
    assert [(name, value)][..0] == [];
  }

  /** Python's `d.get(key, default)`. */
  function GetOr(d: map<string, string>, key: string, default: string): string {
    if key in d then d[key] else default
  }

  /** `token in attrs.get('class', '').split()`: the exact class token, not a substring. */
  predicate HasClass(attrs: seq<Attr>, token: string) {
    token in Words(GetOr(Dict(attrs), "class", ""))
  }

  /** The text of all `Data` events, concatenated in order. */
  function Texts(es: seq<Event>): string {
    if es == [] then "" else (if es[0].Data? then es[0].text else "") + Texts(es[1..])
  }
}
