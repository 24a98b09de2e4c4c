/** Elements of the DOM: the nine supported tag kinds and their names (dom/element.rs). */
module DomElement {
  import opened Wrappers

  datatype ElementKind = Html | Head | Style | Script | Body | P | H1 | H2 | A

  /** A tag attribute; the tokenizer that builds it (html/attribute.rs) is not part of this model. */
  datatype Attribute = Attribute(name: string, value: string)

  datatype Element = Element(kind: ElementKind, attributes: seq<Attribute>)

  /** The tag names `KindFromStr` accepts. */
  const SupportedNames: set<string> := {"html", "head", "style", "script", "body", "p", "h1", "h2", "a"}

  /** `ElementKind::from_str`; an unsupported name is returned as the error. */
  function KindFromStr(s: string): (r: Result<ElementKind, string>)
    ensures r.Ok? <==> s in SupportedNames
    ensures r.Err? ==> r.error == s
  {
    if s == "html" then Ok(Html)
    else if s == "head" then Ok(Head)
    else if s == "style" then Ok(Style)
    else if s == "script" then Ok(Script)
    else if s == "body" then Ok(Body)
    else if s == "p" then Ok(P)
    else if s == "h1" then Ok(H1)
    else if s == "h2" then Ok(H2)
    else if s == "a" then Ok(A)
    else Err(s)
  }

  /** `Display for ElementKind`: the tag name of a kind; parsing it back gives the kind. */
  function KindToString(k: ElementKind): (s: string)
    ensures s in SupportedNames
    ensures KindFromStr(s) == Ok(k)
  {
    match k
    case Html => "html"
    case Head => "head"
    case Style => "style"
    case Script => "script"
    case Body => "body"
    case H1 => "h1"
    case H2 => "h2"
    case P => "p"
    case A => "a"
  }

  /** The other half of the bijection: a name that parses is the display of what it parses to. */
  lemma DisplayOfParsedName(s: string)
    requires KindFromStr(s).Ok?
    ensures KindToString(KindFromStr(s).value) == s
  {
  }

  /** Distinct kinds have distinct names. */
  lemma KindToStringInjective(k1: ElementKind, k2: ElementKind)
    requires KindToString(k1) == KindToString(k2)
    ensures k1 == k2
  {
    assert KindFromStr(KindToString(k1)) == Ok(k1);
  }

  /** `Element::is_block_element`. */
  predicate IsBlockElement(e: Element)
  {
    e.kind in {Body, H1, H2, P}
  }

  /** `Element::new`: the source panics (`expect`) on a name `from_str` rejects. */
  function NewElement(name: string, attributes: seq<Attribute>): (e: Element)
    requires name in SupportedNames
    ensures Ok(e.kind) == KindFromStr(name) && KindToString(e.kind) == name
    ensures e.attributes == attributes
  {
    var k := KindFromStr(name).value;
    DisplayOfParsedName(name);
    Element(k, attributes)
  }

  /** Exactly the body, paragraph and heading kinds are block elements. */
  lemma BlockElementKinds(e: Element)
    ensures IsBlockElement(e) <==> KindToString(e.kind) in {"body", "h1", "h2", "p"}
  {
  }
}
