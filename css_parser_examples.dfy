/** Worked examples of the CSS parser on the token streams of small style sheets (css/parser.rs). */
module CssParserExamples {
  import opened Wrappers
  import opened CssTokens
  import opened Cssom
  import opened CssParser
  import CssTokenExamples

  function ColorRed(): Declaration
  {
    Declaration("color", Ident("red"))
  }

  function ColorBlue(): Declaration
  {
    Declaration("color", Ident("blue"))
  }

  /** An empty stream is a sheet without rules. */
  lemma EmptyStylesheet()
    ensures Stylesheet([]) == Ok(StyleSheet([]))
  {
  }

  // Shapes the examples share, over any token stream holding them at `pos`.

  /** `property: value; }`: a block of one declaration. */
  lemma BlockOfOne(ts: seq<CssToken>, pos: nat, d: Declaration)
    requires pos + 5 <= |ts| && DeclaredAt(ts, pos, d) && ts[pos + 3] == SemiColon && ts[pos + 4] == CloseCurly
    ensures DeclarationsAt(ts, pos) == Ok(Parsed([d], pos + 5))
  {
    DeclarationSkipped(ts, pos + 3);
    assert DeclarationsAt(ts, pos + 4) == Ok(Parsed([], pos + 5));
    DeclarationThenRest(ts, pos, d, [], pos + 5);
    assert [d] + [] == [d];
  }

  /** `tag {` and a block: a rule with a type selector. */
  lemma TypeRuleAt(ts: seq<CssToken>, pos: nat, tag: string, ds: seq<Declaration>, m: nat)
    requires pos + 2 <= |ts| && ts[pos] == Ident(tag) && ts[pos + 1] == OpenCurly
    requires DeclarationsAt(ts, pos + 2) == Ok(Parsed(ds, m))
    ensures QualifiedRuleAt(ts, pos, NewQualifiedRule()) == Ok(Parsed(Some(QualifiedRule(TypeSelector(tag), ds)), m))
  {
    assert SelectorAt(ts, pos) == Ok(Parsed(TypeSelector(tag), pos + 1));
    SelectorThenBlock(ts, pos, NewQualifiedRule(), TypeSelector(tag), pos + 1, ds, m);
  }

  /** `. name {` and a block: a rule with a class selector. */
  lemma ClassRuleAt(ts: seq<CssToken>, pos: nat, name: string, ds: seq<Declaration>, m: nat)
    requires pos + 3 <= |ts| && ts[pos] == Delim('.') && ts[pos + 1] == Ident(name) && ts[pos + 2] == OpenCurly
    requires DeclarationsAt(ts, pos + 3) == Ok(Parsed(ds, m))
    ensures QualifiedRuleAt(ts, pos, NewQualifiedRule()) == Ok(Parsed(Some(QualifiedRule(ClassSelector(name), ds)), m))
  {
    assert SelectorAt(ts, pos) == Ok(Parsed(ClassSelector(name), pos + 2));
    SelectorThenBlock(ts, pos, NewQualifiedRule(), ClassSelector(name), pos + 2, ds, m);
  }

  /** A last rule ending the stream is the only rule from `pos` on. */
  lemma LastRule(ts: seq<CssToken>, pos: nat, q: QualifiedRule)
    requires pos < |ts| && !ts[pos].AtKeyword?
    requires QualifiedRuleAt(ts, pos, NewQualifiedRule()) == Ok(Parsed(Some(q), |ts|))
    ensures RulesAt(ts, pos) == Ok(Parsed([q], |ts|))
  {
    assert RulesAt(ts, |ts|) == Ok(Parsed([], |ts|));
    RuleKept(ts, pos, q, |ts|, []);
    assert [q] + [] == [q];
  }

  /** The tokens of `p {color: red;}`. */
  function OneRuleTokens(): seq<CssToken>
  {
    [Ident("p"), OpenCurly, Ident("color"), Colon, Ident("red"), SemiColon, CloseCurly]
  }

  /** One rule: a type selector and one declaration. */
  lemma OneRule()
    ensures Stylesheet(OneRuleTokens()) == Ok(StyleSheet([QualifiedRule(TypeSelector("p"), [ColorRed()])]))
  {
    var ts := OneRuleTokens();
    assert |ts| == 7 && ts[0] == Ident("p") && ts[1] == OpenCurly && DeclaredAt(ts, 2, ColorRed());
    assert ts[5] == SemiColon && ts[6] == CloseCurly;
    BlockOfOne(ts, 2, ColorRed());
    TypeRuleAt(ts, 0, "p", [ColorRed()], 7);
    LastRule(ts, 0, QualifiedRule(TypeSelector("p"), [ColorRed()]));
  }

  /** From the text: tokenizing `p {color: red;}` and parsing the tokens gives the same single rule. */
  lemma OneRuleFromText()
    ensures ParseCss(CssTokenExamples.Rule()) == Ok(StyleSheet([QualifiedRule(TypeSelector("p"), [ColorRed()])]))
  {
    CssTokenExamples.RuleTokenize();
    OneRule();
  }

  /** The tokens of `#id {color: blue;}`. */
  function IdRuleTokens(): seq<CssToken>
  {
    [HashToken("#id"), OpenCurly, Ident("color"), Colon, Ident("blue"), SemiColon, CloseCurly]
  }

  /** `#id` is an id selector without the sign. */
  lemma IdRule()
    ensures Stylesheet(IdRuleTokens()) == Ok(StyleSheet([QualifiedRule(IdSelector("id"), [ColorBlue()])]))
  {
    var ts := IdRuleTokens();
    assert |ts| == 7 && ts[0] == HashToken("#id") && ts[1] == OpenCurly && DeclaredAt(ts, 2, ColorBlue());
    assert ts[5] == SemiColon && ts[6] == CloseCurly;
    assert "#id"[1..] == "id";
    BlockOfOne(ts, 2, ColorBlue());
    assert SelectorAt(ts, 0) == Ok(Parsed(IdSelector("id"), 1));
    SelectorThenBlock(ts, 0, NewQualifiedRule(), IdSelector("id"), 1, [ColorBlue()], 7);
    LastRule(ts, 0, QualifiedRule(IdSelector("id"), [ColorBlue()]));
  }

  /** The tokens of `.test_class {color: blue;} h1 {font-size: 40; color: white;}`. */
  function TwoRulesTokens(): seq<CssToken>
  {
    [Delim('.'), Ident("test_class"), OpenCurly, Ident("color"), Colon, Ident("blue"), SemiColon, CloseCurly,
     Ident("h1"), OpenCurly, Ident("font-size"), Colon, Number(40.0), SemiColon,
     Ident("color"), Colon, Ident("white"), SemiColon, CloseCurly]
  }

  function FontSize(): Declaration
  {
    Declaration("font-size", Number(40.0))
  }

  function ColorWhite(): Declaration
  {
    Declaration("color", Ident("white"))
  }

  function ClassRule(): QualifiedRule
  {
    QualifiedRule(ClassSelector("test_class"), [ColorBlue()])
  }

  function HeadingRule(): QualifiedRule
  {
    QualifiedRule(TypeSelector("h1"), [FontSize(), ColorWhite()])
  }

  /** Where each token of `TwoRulesTokens()` sits: the class rule, then the heading rule. */
  predicate TwoRulesShape(ts: seq<CssToken>)
  {
    |ts| == 19 && ClassRuleShape(ts) && HeadingRuleShape(ts)
  }

  predicate ClassRuleShape(ts: seq<CssToken>)
    requires |ts| == 19
  {
    ts[0] == Delim('.') && ts[1] == Ident("test_class") && ts[2] == OpenCurly &&
    DeclaredAt(ts, 3, ColorBlue()) && ts[6] == SemiColon && ts[7] == CloseCurly
  }

  predicate HeadingRuleShape(ts: seq<CssToken>)
    requires |ts| == 19
  {
    ts[8] == Ident("h1") && ts[9] == OpenCurly && DeclaredAt(ts, 10, FontSize()) && ts[13] == SemiColon &&
    DeclaredAt(ts, 14, ColorWhite()) && ts[17] == SemiColon && ts[18] == CloseCurly
  }

  lemma TwoRulesTokensShape()
    ensures TwoRulesShape(TwoRulesTokens())
  {
    var ts := TwoRulesTokens();
    assert |ts| == 19;
    assert ClassRuleShape(ts);
    assert HeadingRuleShape(ts);
  }

  lemma ClassRuleAtStart(ts: seq<CssToken>)
    requires TwoRulesShape(ts)
    ensures QualifiedRuleAt(ts, 0, NewQualifiedRule()) == Ok(Parsed(Some(ClassRule()), 8))
  {
    BlockOfOne(ts, 3, ColorBlue());
    ClassRuleAt(ts, 0, "test_class", [ColorBlue()], 8);
  }

  lemma HeadingRuleAt(ts: seq<CssToken>)
    requires TwoRulesShape(ts)
    ensures RulesAt(ts, 8) == Ok(Parsed([HeadingRule()], 19))
  {
    BlockOfOne(ts, 14, ColorWhite());
    DeclarationSkipped(ts, 13);
    DeclarationThenRest(ts, 10, FontSize(), [ColorWhite()], 19);
    assert [FontSize()] + [ColorWhite()] == [FontSize(), ColorWhite()];
    TypeRuleAt(ts, 8, "h1", [FontSize(), ColorWhite()], 19);
    LastRule(ts, 8, HeadingRule());
  }

  /** The first rule: `.test_class` is a class selector, and its block holds the one declaration. */
  lemma ClassRuleRead()
    ensures QualifiedRuleAt(TwoRulesTokens(), 0, NewQualifiedRule()) == Ok(Parsed(Some(ClassRule()), 8))
  {
    TwoRulesTokensShape();
    ClassRuleAtStart(TwoRulesTokens());
  }

  /** Two rules are kept in source order; the number token is the value of `font-size`. */
  lemma TwoRules()
    ensures Stylesheet(TwoRulesTokens()) == Ok(StyleSheet([ClassRule(), HeadingRule()]))
  {
    var ts := TwoRulesTokens();
    TwoRulesTokensShape();
    ClassRuleAtStart(ts);
    HeadingRuleAt(ts);
    RuleKept(ts, 0, ClassRule(), 8, [HeadingRule()]);
    assert [ClassRule()] + [HeadingRule()] == [ClassRule(), HeadingRule()];
  }

  /** The tokens of `@media screen {color: red;} a:hover {}`. */
  function AtRuleTokens(): seq<CssToken>
  {
    [AtKeyword("media"), Ident("screen"), OpenCurly, Ident("color"), Colon, Ident("red"), SemiColon, CloseCurly,
     Ident("a"), Colon, Ident("hover"), OpenCurly, CloseCurly]
  }

  /** Where each token of `AtRuleTokens()` sits. */
  predicate AtRuleShape(ts: seq<CssToken>)
  {
    |ts| == 13 &&
    ts[0] == AtKeyword("media") && ts[1] == Ident("screen") && ts[2] == OpenCurly &&
    DeclaredAt(ts, 3, ColorRed()) && ts[6] == SemiColon && ts[7] == CloseCurly &&
    ts[8] == Ident("a") && ts[9] == Colon && ts[10] == Ident("hover") && ts[11] == OpenCurly && ts[12] == CloseCurly
  }

  lemma AtRuleTokensShape()
    ensures AtRuleShape(AtRuleTokens())
  {
  }

  lemma PseudoClassRuleAt(ts: seq<CssToken>)
    requires AtRuleShape(ts)
    ensures RulesAt(ts, 8) == Ok(Parsed([QualifiedRule(TypeSelector("a"), [])], 13))
  {
    assert DeclarationsAt(ts, 12) == Ok(Parsed([], 13));
    assert SkipToBlock(ts, 9) == Ok(11);
    assert SelectorAt(ts, 8) == Ok(Parsed(TypeSelector("a"), 11));
    SelectorThenBlock(ts, 8, NewQualifiedRule(), TypeSelector("a"), 11, [], 13);
    LastRule(ts, 8, QualifiedRule(TypeSelector("a"), []));
  }

  lemma MediaRuleAt(ts: seq<CssToken>)
    requires AtRuleShape(ts)
    ensures QualifiedRuleAt(ts, 0, NewQualifiedRule()) == Ok(Parsed(Some(QualifiedRule(UnknownSelector, [ColorRed()])), 8))
  {
    BlockOfOne(ts, 3, ColorRed());
    assert SkipToBlock(ts, 1) == Ok(2);
    assert SelectorAt(ts, 0) == Ok(Parsed(UnknownSelector, 2));
    SelectorThenBlock(ts, 0, NewQualifiedRule(), UnknownSelector, 2, [ColorRed()], 8);
  }

  /** `@media screen` is an unknown selector that skips to the block, which is still read. */
  lemma MediaRule()
    ensures QualifiedRuleAt(AtRuleTokens(), 0, NewQualifiedRule()) == Ok(Parsed(Some(QualifiedRule(UnknownSelector, [ColorRed()])), 8))
  {
    AtRuleTokensShape();
    MediaRuleAt(AtRuleTokens());
  }

  /** The at-rule is read and dropped; `a:hover` is the type selector `a`. */
  lemma AtRuleAndPseudoClass()
    ensures Stylesheet(AtRuleTokens()) == Ok(StyleSheet([QualifiedRule(TypeSelector("a"), [])]))
  {
    var ts := AtRuleTokens();
    AtRuleTokensShape();
    MediaRuleAt(ts);
    AtRuleDropped(ts, 0, Some(QualifiedRule(UnknownSelector, [ColorRed()])), 8);
    PseudoClassRuleAt(ts);
  }

  /** A pseudo-class with no block after it: the skip loop would never end. */
  lemma PseudoClassWithoutBlock()
    ensures Stylesheet([Ident("a"), Colon, Ident("hover")]) == Err(Diverges)
  {
    assert SkipToBlock([Ident("a"), Colon, Ident("hover")], 1) == Err(Diverges);
  }

  /** A delimiter other than `.` cannot start a selector. */
  lemma ChildCombinator()
    ensures Stylesheet([Ident("ul"), Delim('>'), Ident("li"), OpenCurly, CloseCurly]) == Err(UnexpectedToken(Delim('>')))
  {
    var ts := [Ident("ul"), Delim('>'), Ident("li"), OpenCurly, CloseCurly];
    assert SelectorAt(ts, 0) == Ok(Parsed(TypeSelector("ul"), 1));
    assert QualifiedRuleAt(ts, 1, NewQualifiedRule().SetSelector(TypeSelector("ul"))) == Err(UnexpectedToken(Delim('>')));
  }
}
