/** The CSS object model the parser builds (css/cssom.rs). */
module Cssom {
  import opened CssTokens

  /** A rule's selector; one per rule. `UnknownSelector` stands for a selector the parser could not read. */
  datatype Selector =
    | TypeSelector(tag: string)
    | ClassSelector(className: string)
    | IdSelector(id: string)
    | UnknownSelector

  /** A declaration: a property name and a single token as its value (a component value is a token). */
  datatype Declaration = Declaration(property: string, value: CssToken)
  {
    /** `set_property` */
    function SetProperty(p: string): (d: Declaration)
      ensures d.property == p && d.value == value
    {
      this.(property := p)
    }

    /** `set_value` */
    function SetValue(v: CssToken): (d: Declaration)
      ensures d.value == v && d.property == property
    {
      this.(value := v)
    }
  }

  /** `Declaration::new`: an empty property holding an empty identifier. */
  function NewDeclaration(): (d: Declaration)
    ensures d.property == [] && d.value == Ident([])
  {
    Declaration([], Ident([]))
  }

  datatype QualifiedRule = QualifiedRule(selector: Selector, declarations: seq<Declaration>)
  {
    /** `set_selector` */
    function SetSelector(s: Selector): (r: QualifiedRule)
      ensures r.selector == s && r.declarations == declarations
    {
      this.(selector := s)
    }

    /** `set_declarations` */
    function SetDeclarations(ds: seq<Declaration>): (r: QualifiedRule)
      ensures r.declarations == ds && r.selector == selector
    {
      this.(declarations := ds)
    }
  }

  /** `QualifiedRule::new`: the empty type selector and no declarations. */
  function NewQualifiedRule(): (r: QualifiedRule)
    ensures r.selector == TypeSelector([]) && r.declarations == []
  {
    QualifiedRule(TypeSelector([]), [])
  }

  /** The root of the object model: the rules in source order. */
  datatype StyleSheet = StyleSheet(rules: seq<QualifiedRule>)
  {
    /** `set_rules` */
    function SetRules(rs: seq<QualifiedRule>): (s: StyleSheet)
      ensures s.rules == rs
    {
      this.(rules := rs)
    }
  }

  /** `StyleSheet::new`: no rules. */
  function NewStyleSheet(): (s: StyleSheet)
    ensures s.rules == []
  {
    StyleSheet([])
  }

  /** Setting a field twice keeps only the second value, and setting different fields commutes. */
  lemma SettersOverwrite(d: Declaration, p1: string, p2: string, v: CssToken, r: QualifiedRule, s1: Selector, s2: Selector, ds: seq<Declaration>)
    ensures d.SetProperty(p1).SetProperty(p2) == d.SetProperty(p2)
    ensures d.SetProperty(p1).SetValue(v) == d.SetValue(v).SetProperty(p1)
    ensures r.SetSelector(s1).SetSelector(s2) == r.SetSelector(s2)
    ensures r.SetSelector(s1).SetDeclarations(ds) == r.SetDeclarations(ds).SetSelector(s1)
  {
  }
}
