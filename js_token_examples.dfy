/** The lexer on the inputs of the tests in js/token.rs, and on a keyword it cannot read. */
module JsTokenExamples {
  import opened Wrappers
  import opened JsTokens

  lemma EmptyInput()
    ensures Tokenize("") == Ok([])
  {
  }

  lemma SingleNumber()
    ensures Tokenize("42") == Ok([Number(42)])
  {
    assert DigitEnd("42", 0) == 2;
    assert "42"[0..2] == "42";
    assert DigitsValue("42") == 42 by {
      assert "42"[..1] == "4";
      assert "4"[..0] == [];
    }
    assert LexAt("42", 0) == Ok(Lexed(Some(Number(42)), 2));
    assert TokensFrom("42", 2) == Ok([]);
    TokensFromStep("42", 0, Number(42), 2);
    assert [Number(42)] + [] == [Number(42)];
  }

  /** Three tokens read one after another, with only blanks after the last, are the whole stream. */
  lemma ThreeTokens(s: string, a: Token, b: Token, c: Token, n1: nat, n2: nat, n3: nat)
    requires LexAt(s, 0) == Ok(Lexed(Some(a), n1)) && n1 <= |s|
    requires LexAt(s, n1) == Ok(Lexed(Some(b), n2)) && n2 <= |s|
    requires LexAt(s, n2) == Ok(Lexed(Some(c), n3)) && n3 <= |s|
    requires TokensFrom(s, n3) == Ok([])
    ensures Tokenize(s) == Ok([a, b, c])
  {
    assert [c] + [] == [c];
    assert [b] + [c] == [b, c];
    assert [a] + [b, c] == [a, b, c];
    TokensFromStep(s, n2, c, n3);
    TokensFromStep(s, n1, b, n2);
    TokensFromStep(s, 0, a, n1);
  }

  lemma FirstAddend()
    ensures LexAt("1 + 333", 0) == Ok(Lexed(Some(Number(1)), 1))
  {
    assert DigitEnd("1 + 333", 0) == 1;
    assert "1 + 333"[0..1] == "1";
    assert DigitsValue("1") == 1 by {
      assert "1"[..0] == [];
    }
  }

  lemma SecondAddend()
    ensures LexAt("1 + 333", 3) == Ok(Lexed(Some(Number(333)), 7))
  {
    var s := "1 + 333";
    assert SkipBlanks(s, 3) == 4;
    assert DigitEnd(s, 4) == 7;
    assert s[4..7] == "333";
    assert DigitsValue("333") == 333 by {
      assert "333"[..2] == "33";
      assert "33"[..1] == "3";
      assert "3"[..0] == [];
    }
  }

  /** `1 + 333`: a number, the punctuator and a second number, the blanks skipped. */
  lemma AddNumbers()
    ensures Tokenize("1 + 333") == Ok([Number(1), Punctuator('+'), Number(333)])
  {
    var s := "1 + 333";
    FirstAddend();
    assert SkipBlanks(s, 1) == 2;
    assert LexAt(s, 1) == Ok(Lexed(Some(Punctuator('+')), 3));
    SecondAddend();
    assert TokensFrom(s, 7) == Ok([]);
    ThreeTokens(s, Number(1), Punctuator('+'), Number(333), 1, 3, 7);
  }

  /** A keyword is not a token the lexer knows: the first letter is unsupported. */
  lemma KeywordUnsupported()
    ensures Tokenize("var foo=42;") == Err(Unsupported('v'))
  {
    assert LexAt("var foo=42;", 0) == Err(Unsupported('v'));
  }
}
