/**
 * The runtime tests of js/runtime.rs whose source text the lexer can read: the text is lexed,
 * parsed and each statement of the program evaluated in a fresh runtime.
 */
module JsPipelineExamples {
  import opened Wrappers
  import opened JsTokens
  import opened JsAst
  import opened JsRuntime
  import JsTokenExamples
  import JsAstExamples

  /** A single number is a program of one expression statement. */
  lemma NumberProgram(n: nat)
    ensures ParseAst([Token.Number(n)]) == Ok(Program([ExpressionStatement(Some(NumericLiteral(n)))]))
  {
    var t := [Token.Number(n)];
    assert MemberAt(t, 0) == Parsed(Some(NumericLiteral(n)), 1);
    assert LhsAt(t, 0) == Ok(Parsed(Some(NumericLiteral(n)), 1));
    assert AdditiveAt(t, 0) == Ok(Parsed(Some(NumericLiteral(n)), 1));
    assert AssignmentAt(t, 0) == Ok(Parsed(Some(NumericLiteral(n)), 1));
    assert StatementAt(t, 0) == Ok(Parsed(Some(ExpressionStatement(Some(NumericLiteral(n)))), 1));
    assert SourceElementAt(t, 0) == Ok(Parsed(Some(ExpressionStatement(Some(NumericLiteral(n)))), 1));
    JsAstExamples.OneStatement(t, ExpressionStatement(Some(NumericLiteral(n))));
  }

  /** `a op b` for a `+` or `-` is a program of one additive expression statement. */
  lemma BinaryProgram(a: nat, op: char, b: nat)
    requires op == '+' || op == '-'
    ensures ParseAst([Token.Number(a), Punctuator(op), Token.Number(b)])
      == Ok(Program([ExpressionStatement(Some(AdditiveExpression(op, Some(NumericLiteral(a)), Some(NumericLiteral(b)))))]))
  {
    var t := [Token.Number(a), Punctuator(op), Token.Number(b)];
    var e := AdditiveExpression(op, Some(NumericLiteral(a)), Some(NumericLiteral(b)));
    assert LhsAt(t, 0) == Ok(Parsed(Some(NumericLiteral(a)), 1));
    assert LhsAt(t, 2) == Ok(Parsed(Some(NumericLiteral(b)), 3));
    assert AdditiveAt(t, 2) == Ok(Parsed(Some(NumericLiteral(b)), 3));
    assert AssignmentAt(t, 2) == Ok(Parsed(Some(NumericLiteral(b)), 3));
    assert AdditiveAt(t, 0) == Ok(Parsed(Some(e), 3));
    assert AssignmentAt(t, 0) == Ok(Parsed(Some(e), 3));
    assert StatementAt(t, 0) == Ok(Parsed(Some(ExpressionStatement(Some(e))), 3));
    assert SourceElementAt(t, 0) == Ok(Parsed(Some(ExpressionStatement(Some(e))), 3));
    JsAstExamples.OneStatement(t, ExpressionStatement(Some(e)));
  }

  /** A statement adding two numbers within range evaluates to their sum and leaves the scope alone. */
  lemma SumValue(a: nat, b: nat)
    requires a + b <= U64_MAX
    ensures Evaluate(Some(ExpressionStatement(Some(AdditiveExpression('+', Some(NumericLiteral(a)), Some(NumericLiteral(b)))))), [])
      == Ok(Evaluated(Some(RuntimeValue.Number(a + b)), []))
  {
    AddSubInverse(a, b);
    assert Evaluate(Some(NumericLiteral(a)), []) == Ok(Evaluated(Some(RuntimeValue.Number(a)), []));
    assert Evaluate(Some(NumericLiteral(b)), []) == Ok(Evaluated(Some(RuntimeValue.Number(b)), []));
    assert Evaluate(Some(AdditiveExpression('+', Some(NumericLiteral(a)), Some(NumericLiteral(b)))), [])
      == Ok(Evaluated(Some(RuntimeValue.Number(a + b)), []));
  }

  /** A statement subtracting a number from a larger one evaluates to their difference. */
  lemma DifferenceValue(a: nat, b: nat)
    requires b <= a
    ensures Evaluate(Some(ExpressionStatement(Some(AdditiveExpression('-', Some(NumericLiteral(a)), Some(NumericLiteral(b)))))), [])
      == Ok(Evaluated(Some(RuntimeValue.Number(a - b)), []))
  {
    assert Evaluate(Some(NumericLiteral(a)), []) == Ok(Evaluated(Some(RuntimeValue.Number(a)), []));
    assert Evaluate(Some(NumericLiteral(b)), []) == Ok(Evaluated(Some(RuntimeValue.Number(b)), []));
    assert Sub(RuntimeValue.Number(a), RuntimeValue.Number(b)) == Ok(RuntimeValue.Number(a - b));
    assert Evaluate(Some(AdditiveExpression('-', Some(NumericLiteral(a)), Some(NumericLiteral(b)))), [])
      == Ok(Evaluated(Some(RuntimeValue.Number(a - b)), []));
  }

  /** `42` evaluates to 42. */
  lemma NumEvaluates()
    ensures Tokenize("42") == Ok([Token.Number(42)])
    ensures ParseAst([Token.Number(42)]) == Ok(Program([ExpressionStatement(Some(NumericLiteral(42)))]))
    ensures Evaluate(Some(ExpressionStatement(Some(NumericLiteral(42)))), []) == Ok(Evaluated(Some(RuntimeValue.Number(42)), []))
  {
    JsTokenExamples.SingleNumber();
    NumberProgram(42);
  }

  lemma Value4321()
    ensures AllDigits("4321") && DigitsValue("4321") == 4321
  {
    assert "4321"[..3] == "432" && "432"[..2] == "43" && "43"[..1] == "4" && "4"[..0] == [];
  }

  lemma Value12333()
    ensures AllDigits("12333") && DigitsValue("12333") == 12333
  {
    assert "12333"[..4] == "1233" && "1233"[..3] == "123" && "123"[..2] == "12" && "12"[..1] == "1" && "1"[..0] == [];
  }

  function AddNumText(): string { "4321 + 12333" }

  lemma AddNumFirst()
    ensures LexAt(AddNumText(), 0) == Ok(Lexed(Some(Token.Number(4321)), 4))
  {
    var s := AddNumText();
    assert DigitEnd(s, 0) == 4;
    assert s[0..4] == "4321";
    Value4321();
  }

  lemma AddNumPlus()
    ensures LexAt(AddNumText(), 4) == Ok(Lexed(Some(Punctuator('+')), 6))
  {
    assert SkipBlanks(AddNumText(), 4) == 5;
  }

  lemma AddNumSecond()
    ensures LexAt(AddNumText(), 6) == Ok(Lexed(Some(Token.Number(12333)), 12))
  {
    var s := AddNumText();
    assert SkipBlanks(s, 6) == 7;
    assert DigitEnd(s, 7) == 12;
    assert s[7..12] == "12333";
    Value12333();
  }

  lemma AddNumTokens()
    ensures Tokenize("4321 + 12333") == Ok([Token.Number(4321), Punctuator('+'), Token.Number(12333)])
  {
    var s := AddNumText();
    AddNumFirst();
    AddNumPlus();
    AddNumSecond();
    assert TokensFrom(s, 12) == Ok([]);
    JsTokenExamples.ThreeTokens(s, Token.Number(4321), Punctuator('+'), Token.Number(12333), 4, 6, 12);
  }

  /** `4321 + 12333` evaluates to 16654. */
  lemma AddNumEvaluates()
    ensures Tokenize("4321 + 12333") == Ok([Token.Number(4321), Punctuator('+'), Token.Number(12333)])
    ensures ParseAst([Token.Number(4321), Punctuator('+'), Token.Number(12333)])
      == Ok(Program([ExpressionStatement(Some(AdditiveExpression('+', Some(NumericLiteral(4321)), Some(NumericLiteral(12333)))))]))
    ensures Evaluate(Some(ExpressionStatement(Some(AdditiveExpression('+', Some(NumericLiteral(4321)), Some(NumericLiteral(12333)))))), [])
      == Ok(Evaluated(Some(RuntimeValue.Number(16654)), []))
  {
    AddNumTokens();
    BinaryProgram(4321, '+', 12333);
    SumValue(4321, 12333);
  }

  lemma SubNumsFirst()
    ensures LexAt("11-9", 0) == Ok(Lexed(Some(Token.Number(11)), 2))
  {
    var s := "11-9";
    assert DigitEnd(s, 0) == 2;
    assert s[0..2] == "11";
    assert DigitsValue("11") == 11 by {
      assert "11"[..1] == "1" && "1"[..0] == [];
    }
  }

  lemma SubNumsSecond()
    ensures LexAt("11-9", 3) == Ok(Lexed(Some(Token.Number(9)), 4))
  {
    var s := "11-9";
    assert DigitEnd(s, 3) == 4;
    assert s[3..4] == "9";
    assert DigitsValue("9") == 9 by {
      assert "9"[..0] == [];
    }
  }

  lemma SubNumsTokens()
    ensures Tokenize("11-9") == Ok([Token.Number(11), Punctuator('-'), Token.Number(9)])
  {
    var s := "11-9";
    SubNumsFirst();
    assert LexAt(s, 2) == Ok(Lexed(Some(Punctuator('-')), 3));
    SubNumsSecond();
    assert TokensFrom(s, 4) == Ok([]);
    JsTokenExamples.ThreeTokens(s, Token.Number(11), Punctuator('-'), Token.Number(9), 2, 3, 4);
  }

  /** `11-9` evaluates to 2. */
  lemma SubNumsEvaluates()
    ensures Tokenize("11-9") == Ok([Token.Number(11), Punctuator('-'), Token.Number(9)])
    ensures ParseAst([Token.Number(11), Punctuator('-'), Token.Number(9)])
      == Ok(Program([ExpressionStatement(Some(AdditiveExpression('-', Some(NumericLiteral(11)), Some(NumericLiteral(9)))))]))
    ensures Evaluate(Some(ExpressionStatement(Some(AdditiveExpression('-', Some(NumericLiteral(11)), Some(NumericLiteral(9)))))), [])
      == Ok(Evaluated(Some(RuntimeValue.Number(2)), []))
  {
    SubNumsTokens();
    BinaryProgram(11, '-', 9);
    DifferenceValue(11, 9);
  }
}
