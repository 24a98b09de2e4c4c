/** Worked examples of the CSS tokenizer on concrete style sheets (css/token.rs). */
module CssTokenExamples {
  import opened Wrappers
  import opened CssTokens

  /** A one-rule style sheet. */
  function Rule(): string
  {
    "p {color: red;}"
  }

  lemma RuleSelector()
    ensures NextToken(Rule(), 0) == Ok(Lexed(Some(Ident("p")), 1))
  {
    IdentToken(Rule(), 0, 1);
    assert Rule()[0..1] == "p";
    SkipSpaces(Rule(), 0, 0);
  }

  lemma RuleOpen()
    ensures NextToken(Rule(), 1) == Ok(Lexed(Some(OpenCurly), 3))
  {
    PunctuatorToken(Rule(), 2);
    SkipSpaces(Rule(), 1, 2);
  }

  lemma RuleProperty()
    ensures NextToken(Rule(), 3) == Ok(Lexed(Some(Ident("color")), 8))
  {
    IdentToken(Rule(), 3, 8);
    assert Rule()[3..8] == "color";
    SkipSpaces(Rule(), 3, 3);
  }

  lemma RuleColon()
    ensures NextToken(Rule(), 8) == Ok(Lexed(Some(Colon), 9))
  {
    PunctuatorToken(Rule(), 8);
    SkipSpaces(Rule(), 8, 8);
  }

  lemma RuleValue()
    ensures NextToken(Rule(), 9) == Ok(Lexed(Some(Ident("red")), 13))
  {
    IdentToken(Rule(), 10, 13);
    assert Rule()[10..13] == "red";
    SkipSpaces(Rule(), 9, 10);
  }

  lemma RuleSemiColon()
    ensures NextToken(Rule(), 13) == Ok(Lexed(Some(SemiColon), 14))
  {
    PunctuatorToken(Rule(), 13);
    SkipSpaces(Rule(), 13, 13);
  }

  lemma RuleClose()
    ensures NextToken(Rule(), 14) == Ok(Lexed(Some(CloseCurly), 15))
  {
    PunctuatorToken(Rule(), 14);
    SkipSpaces(Rule(), 14, 14);
  }

  lemma RuleFrom14()
    ensures Tokenize(Rule(), 14) == Ok([CloseCurly])
  {
    assert [CloseCurly] + [] == [CloseCurly];
    EndOfTokens(Rule(), 15);
    assert Tokenize(Rule(), 15) == Ok([]);
    RuleClose();
    TokenizeStep(Rule(), 14, CloseCurly, 15, []);
  }

  lemma RuleFrom13()
    ensures Tokenize(Rule(), 13) == Ok([SemiColon, CloseCurly])
  {
    assert [SemiColon] + [CloseCurly] == [SemiColon, CloseCurly];
    RuleFrom14();
    RuleSemiColon();
    TokenizeStep(Rule(), 13, SemiColon, 14, [CloseCurly]);
  }

  lemma RuleFrom9()
    ensures Tokenize(Rule(), 9) == Ok([Ident("red"), SemiColon, CloseCurly])
  {
    assert [Ident("red")] + [SemiColon, CloseCurly] == [Ident("red"), SemiColon, CloseCurly];
    RuleFrom13();
    RuleValue();
    TokenizeStep(Rule(), 9, Ident("red"), 13, [SemiColon, CloseCurly]);
  }

  lemma RuleFrom8()
    ensures Tokenize(Rule(), 8) == Ok([Colon, Ident("red"), SemiColon, CloseCurly])
  {
    assert [Colon] + [Ident("red"), SemiColon, CloseCurly] == [Colon, Ident("red"), SemiColon, CloseCurly];
    RuleFrom9();
    RuleColon();
    TokenizeStep(Rule(), 8, Colon, 9, [Ident("red"), SemiColon, CloseCurly]);
  }

  lemma RuleFrom3()
    ensures Tokenize(Rule(), 3) == Ok([Ident("color"), Colon, Ident("red"), SemiColon, CloseCurly])
  {
    assert [Ident("color")] + [Colon, Ident("red"), SemiColon, CloseCurly] == [Ident("color"), Colon, Ident("red"), SemiColon, CloseCurly];
    RuleFrom8();
    RuleProperty();
    TokenizeStep(Rule(), 3, Ident("color"), 8, [Colon, Ident("red"), SemiColon, CloseCurly]);
  }

  lemma RuleFrom1()
    ensures Tokenize(Rule(), 1) == Ok([OpenCurly, Ident("color"), Colon, Ident("red"), SemiColon, CloseCurly])
  {
    assert [OpenCurly] + [Ident("color"), Colon, Ident("red"), SemiColon, CloseCurly] == [OpenCurly, Ident("color"), Colon, Ident("red"), SemiColon, CloseCurly];
    RuleFrom3();
    RuleOpen();
    TokenizeStep(Rule(), 1, OpenCurly, 3, [Ident("color"), Colon, Ident("red"), SemiColon, CloseCurly]);
  }

  /** The whole rule tokenizes to selector, block, property, colon, value, semicolon and block end. */
  lemma RuleTokenize()
    ensures Tokenize(Rule(), 0) == Ok([Ident("p"), OpenCurly, Ident("color"), Colon, Ident("red"), SemiColon, CloseCurly])
  {
    assert [Ident("p")] + [OpenCurly, Ident("color"), Colon, Ident("red"), SemiColon, CloseCurly] == [Ident("p"), OpenCurly, Ident("color"), Colon, Ident("red"), SemiColon, CloseCurly];
    RuleFrom1();
    RuleSelector();
    TokenizeStep(Rule(), 0, Ident("p"), 1, [OpenCurly, Ident("color"), Colon, Ident("red"), SemiColon, CloseCurly]);
  }
}
