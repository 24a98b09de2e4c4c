/** The parser on the token streams of the tests in js/ast.rs, and on the shapes the grammar nests. */
module JsAstExamples {
  import opened Wrappers
  import opened JsTokens
  import opened JsAst

  /** A program whose first source element spans the whole stream is that one element. */
  lemma {:induction false} OneStatement(t: seq<Token>, e: Node)
    requires SourceElementAt(t, 0) == Ok(Parsed(Some(e), |t|))
    ensures ParseAst(t) == Ok(Program([e]))
  {
    assert ProgramAt(t, |t|, [e]) == Ok(Program([e]));
    assert [] + [e] == [e];
  }

  lemma Num()
    ensures ParseAst([Number(53211)]) == Ok(Program([ExpressionStatement(Some(NumericLiteral(53211)))]))
  {
    var t := [Number(53211)];
    assert MemberAt(t, 0) == Parsed(Some(NumericLiteral(53211)), 1);
    assert AssignmentAt(t, 0) == Ok(Parsed(Some(NumericLiteral(53211)), 1));
    assert StatementAt(t, 0) == Ok(Parsed(Some(ExpressionStatement(Some(NumericLiteral(53211)))), 1));
    OneStatement(t, ExpressionStatement(Some(NumericLiteral(53211))));
  }

  /** `216 + 222` */
  lemma AddNums()
    ensures ParseAst([Number(216), Punctuator('+'), Number(222)])
      == Ok(Program([ExpressionStatement(Some(AdditiveExpression('+', Some(NumericLiteral(216)), Some(NumericLiteral(222)))))]))
  {
    var t := [Number(216), Punctuator('+'), Number(222)];
    var sum := AdditiveExpression('+', Some(NumericLiteral(216)), Some(NumericLiteral(222)));
    assert LhsAt(t, 0) == Ok(Parsed(Some(NumericLiteral(216)), 1));
    assert LhsAt(t, 2) == Ok(Parsed(Some(NumericLiteral(222)), 3));
    assert AssignmentAt(t, 2) == Ok(Parsed(Some(NumericLiteral(222)), 3));
    assert AdditiveAt(t, 0) == Ok(Parsed(Some(sum), 3));
    assert AssignmentAt(t, 0) == Ok(Parsed(Some(sum), 3));
    assert StatementAt(t, 0) == Ok(Parsed(Some(ExpressionStatement(Some(sum))), 3));
    OneStatement(t, ExpressionStatement(Some(sum)));
  }

  /** `98765 - 1234` */
  lemma MinusNums()
    ensures ParseAst([Number(98765), Punctuator('-'), Number(1234)])
      == Ok(Program([ExpressionStatement(Some(AdditiveExpression('-', Some(NumericLiteral(98765)), Some(NumericLiteral(1234)))))]))
  {
    var t := [Number(98765), Punctuator('-'), Number(1234)];
    var diff := AdditiveExpression('-', Some(NumericLiteral(98765)), Some(NumericLiteral(1234)));
    assert LhsAt(t, 0) == Ok(Parsed(Some(NumericLiteral(98765)), 1));
    assert LhsAt(t, 2) == Ok(Parsed(Some(NumericLiteral(1234)), 3));
    assert AssignmentAt(t, 2) == Ok(Parsed(Some(NumericLiteral(1234)), 3));
    assert AdditiveAt(t, 0) == Ok(Parsed(Some(diff), 3));
    assert AssignmentAt(t, 0) == Ok(Parsed(Some(diff), 3));
    assert StatementAt(t, 0) == Ok(Parsed(Some(ExpressionStatement(Some(diff))), 3));
    OneStatement(t, ExpressionStatement(Some(diff)));
  }

  /** `1 - 2 - 3` nests to the right, as `1 - (2 - 3)`. */
  lemma SubtractionNestsRight()
    ensures AssignmentAt([Number(1), Punctuator('-'), Number(2), Punctuator('-'), Number(3)], 0)
      == Ok(Parsed(Some(AdditiveExpression('-', Some(NumericLiteral(1)),
                          Some(AdditiveExpression('-', Some(NumericLiteral(2)), Some(NumericLiteral(3)))))), 5))
  {
    var t := [Number(1), Punctuator('-'), Number(2), Punctuator('-'), Number(3)];
    var inner := AdditiveExpression('-', Some(NumericLiteral(2)), Some(NumericLiteral(3)));
    assert LhsAt(t, 4) == Ok(Parsed(Some(NumericLiteral(3)), 5));
    assert AssignmentAt(t, 4) == Ok(Parsed(Some(NumericLiteral(3)), 5));
    assert LhsAt(t, 2) == Ok(Parsed(Some(NumericLiteral(2)), 3));
    assert AdditiveAt(t, 2) == Ok(Parsed(Some(inner), 5));
    assert AssignmentAt(t, 2) == Ok(Parsed(Some(inner), 5));
    assert LhsAt(t, 0) == Ok(Parsed(Some(NumericLiteral(1)), 1));
    assert AdditiveAt(t, 0) == Ok(Parsed(Some(AdditiveExpression('-', Some(NumericLiteral(1)), Some(inner))), 5));
  }

  /** `var foo="bar";`: one declarator, the `;` consumed. */
  lemma AssignVariable()
    ensures ParseAst([Keyword("var"), Token.Identifier("foo"), Punctuator('='), Token.StringLiteral("bar"), Punctuator(';')])
      == Ok(Program([VariableDeclaration([Some(VariableDeclarator(Some(Node.Identifier("foo")), Some(Node.StringLiteral("bar"))))])]))
  {
    var t := [Keyword("var"), Token.Identifier("foo"), Punctuator('='), Token.StringLiteral("bar"), Punctuator(';')];
    var decl := VariableDeclaration([Some(VariableDeclarator(Some(Node.Identifier("foo")), Some(Node.StringLiteral("bar"))))]);
    assert LhsAt(t, 3) == Ok(Parsed(Some(Node.StringLiteral("bar")), 4));
    assert AssignmentAt(t, 3) == Ok(Parsed(Some(Node.StringLiteral("bar")), 4));
    assert InitializerAt(t, 2) == Ok(Parsed(Some(Node.StringLiteral("bar")), 4));
    assert VariableDeclarationAt(t, 1) == Ok(Parsed(Some(decl), 4));
    assert t[0] != Keyword("function");
    assert StatementAt(t, 0) == Ok(Parsed(Some(decl), 5));
    OneStatement(t, decl);
  }

  /** The tokens of `var foo=42; var result = foo + 1;` (the lexer yields no keywords or identifiers, so they are given here). */
  function TwoDeclarationsTokens(): seq<Token>
  {
    [Keyword("var"), Token.Identifier("foo"), Punctuator('='), Number(42), Punctuator(';'),
     Keyword("var"), Token.Identifier("result"), Punctuator('='), Token.Identifier("foo"), Punctuator('+'), Number(1), Punctuator(';')]
  }

  function Declare(name: string, init: Node): Node
  {
    VariableDeclaration([Some(VariableDeclarator(Some(Node.Identifier(name)), Some(init)))])
  }

  /** `var foo=42; var result = foo + 1;`: two declarations, the second initialised by a sum. */
  lemma AddVariableAndNum()
    ensures ParseAst(TwoDeclarationsTokens())
      == Ok(Program([Declare("foo", NumericLiteral(42)),
                     Declare("result", AdditiveExpression('+', Some(Node.Identifier("foo")), Some(NumericLiteral(1))))]))
  {
    var t := TwoDeclarationsTokens();
    var d1 := Declare("foo", NumericLiteral(42));
    var d2 := Declare("result", AdditiveExpression('+', Some(Node.Identifier("foo")), Some(NumericLiteral(1))));
    FooDeclaration();
    ResultDeclaration();
    assert SourceElementAt(t, 12) == Ok(Parsed(None, 12));
    assert ProgramAt(t, 12, [d1, d2]) == Ok(Program([d1, d2]));
    assert [d1] + [d2] == [d1, d2];
    assert ProgramAt(t, 5, [d1]) == Ok(Program([d1, d2]));
    assert [] + [d1] == [d1];
  }

  /** `var foo=42;` is the first source element, ending after its `;`. */
  lemma FooDeclaration()
    ensures SourceElementAt(TwoDeclarationsTokens(), 0) == Ok(Parsed(Some(Declare("foo", NumericLiteral(42))), 5))
  {
    var t := TwoDeclarationsTokens();
    NumberOperand(t, 3, 42);
    Declarator(t, 1, "foo", Parsed(Some(NumericLiteral(42)), 4));
    VarStatement(t, 0, Declare("foo", NumericLiteral(42)), 4);
  }

  /** `var result = foo + 1;` is the second source element, ending after its `;`. */
  lemma ResultDeclaration()
    ensures SourceElementAt(TwoDeclarationsTokens(), 5)
      == Ok(Parsed(Some(Declare("result", AdditiveExpression('+', Some(Node.Identifier("foo")), Some(NumericLiteral(1))))), 12))
  {
    var t := TwoDeclarationsTokens();
    var sum := AdditiveExpression('+', Some(Node.Identifier("foo")), Some(NumericLiteral(1)));
    IdentifierPlusNumber(t, 8, "foo", 1);
    Declarator(t, 6, "result", Parsed(Some(sum), 11));
    VarStatement(t, 5, Declare("result", sum), 11);
  }

  /** A number followed by `;` is read as a numeric literal. */
  lemma NumberOperand(t: seq<Token>, pos: nat, n: nat)
    requires pos + 1 < |t| && t[pos] == Number(n) && t[pos + 1] == Punctuator(';')
    ensures AssignmentAt(t, pos) == Ok(Parsed(Some(NumericLiteral(n)), pos + 1))
  {
    assert LhsAt(t, pos) == Ok(Parsed(Some(NumericLiteral(n)), pos + 1));
  }

  /** `name + n` followed by `;` is one additive expression. */
  lemma IdentifierPlusNumber(t: seq<Token>, pos: nat, name: string, n: nat)
    requires pos + 3 < |t| && t[pos] == Token.Identifier(name) && t[pos + 1] == Punctuator('+')
    requires t[pos + 2] == Number(n) && t[pos + 3] == Punctuator(';')
    ensures AssignmentAt(t, pos) == Ok(Parsed(Some(AdditiveExpression('+', Some(Node.Identifier(name)), Some(NumericLiteral(n)))), pos + 3))
  {
    NumberOperand(t, pos + 2, n);
    assert LhsAt(t, pos) == Ok(Parsed(Some(Node.Identifier(name)), pos + 1));
    assert AdditiveAt(t, pos) == Ok(Parsed(Some(AdditiveExpression('+', Some(Node.Identifier(name)), Some(NumericLiteral(n)))), pos + 3));
  }

  /** `name = e` after `var`, for any expression `e` read after the `=`. */
  lemma Declarator(t: seq<Token>, pos: nat, name: string, e: Parsed<Option<Node>>)
    requires pos + 1 < |t| && t[pos] == Token.Identifier(name) && t[pos + 1] == Punctuator('=')
    requires AssignmentAt(t, pos + 2) == Ok(e)
    ensures VariableDeclarationAt(t, pos) == Ok(Parsed(Some(VariableDeclaration([Some(VariableDeclarator(Some(Node.Identifier(name)), e.value))])), e.next))
  {
    assert InitializerAt(t, pos + 1) == Ok(e);
  }

  /** `var` and a declaration ended by `;` is one source element. */
  lemma VarStatement(t: seq<Token>, pos: nat, d: Node, n: nat)
    requires pos < n < |t| && t[pos] == Keyword("var") && t[n] == Punctuator(';')
    requires VariableDeclarationAt(t, pos + 1) == Ok(Parsed(Some(d), n))
    ensures SourceElementAt(t, pos) == Ok(Parsed(Some(d), n + 1))
  {
    assert StatementAt(t, pos) == Ok(Parsed(Some(d), n + 1));
  }

  /** `a.b`: a member expression. */
  lemma Member()
    ensures AssignmentAt([Token.Identifier("a"), Punctuator('.'), Token.Identifier("b")], 0)
      == Ok(Parsed(Some(MemberExpression(Some(Node.Identifier("a")), Some(Node.Identifier("b")))), 3))
  {
    var t := [Token.Identifier("a"), Punctuator('.'), Token.Identifier("b")];
    assert MemberAt(t, 0) == Parsed(Some(MemberExpression(Some(Node.Identifier("a")), Some(Node.Identifier("b")))), 3);
  }

  /** `foo(100, 400);`: a call with two arguments. */
  lemma CallWithArguments()
    ensures ParseAst([Token.Identifier("foo"), Punctuator('('), Number(100), Punctuator(','), Number(400), Punctuator(')'), Punctuator(';')])
      == Ok(Program([ExpressionStatement(Some(CallExpression(Some(Node.Identifier("foo")), [Some(NumericLiteral(100)), Some(NumericLiteral(400))])))]))
  {
    var t := [Token.Identifier("foo"), Punctuator('('), Number(100), Punctuator(','), Number(400), Punctuator(')'), Punctuator(';')];
    var args := [Some(NumericLiteral(100)), Some(NumericLiteral(400))];
    var call := CallExpression(Some(Node.Identifier("foo")), args);
    CallStatement(t);
    OneStatement(t, ExpressionStatement(Some(call)));
  }

  /** The statement `foo(100, 400);` read from the start of its tokens. */
  lemma CallStatement(t: seq<Token>)
    requires t == [Token.Identifier("foo"), Punctuator('('), Number(100), Punctuator(','), Number(400), Punctuator(')'), Punctuator(';')]
    ensures StatementAt(t, 0) == Ok(Parsed(Some(ExpressionStatement(Some(CallExpression(Some(Node.Identifier("foo")),
      [Some(NumericLiteral(100)), Some(NumericLiteral(400))])))), 7))
  {
    var call := CallExpression(Some(Node.Identifier("foo")), [Some(NumericLiteral(100)), Some(NumericLiteral(400))]);
    CallArguments(t);
    assert LhsAt(t, 0) == Ok(Parsed(Some(call), 6));
    assert AssignmentAt(t, 0) == Ok(Parsed(Some(call), 6));
  }

  /** The argument list `(100, 400)` of `foo(100, 400);`. */
  lemma CallArguments(t: seq<Token>)
    requires t == [Token.Identifier("foo"), Punctuator('('), Number(100), Punctuator(','), Number(400), Punctuator(')'), Punctuator(';')]
    ensures ArgumentsAt(t, 2, []) == Ok(Parsed([Some(NumericLiteral(100)), Some(NumericLiteral(400))], 6))
  {
    var args := [Some(NumericLiteral(100)), Some(NumericLiteral(400))];
    assert ArgumentsAt(t, 5, args) == Ok(Parsed(args, 6));
    assert LhsAt(t, 4) == Ok(Parsed(Some(NumericLiteral(400)), 5));
    assert AssignmentAt(t, 4) == Ok(Parsed(Some(NumericLiteral(400)), 5));
    assert [Some(NumericLiteral(100))] + [Some(NumericLiteral(400))] == args;
    assert ArgumentsAt(t, 4, [Some(NumericLiteral(100))]) == Ok(Parsed(args, 6));
    assert ArgumentsAt(t, 3, [Some(NumericLiteral(100))]) == Ok(Parsed(args, 6));
    assert LhsAt(t, 2) == Ok(Parsed(Some(NumericLiteral(100)), 3));
    assert AssignmentAt(t, 2) == Ok(Parsed(Some(NumericLiteral(100)), 3));
    assert [] + [Some(NumericLiteral(100))] == [Some(NumericLiteral(100))];
  }

  /** `function foo(hoge, fuga) { return 42; }` */
  lemma DefineFunctionWithArguments()
    ensures ParseAst(FunctionWithArgumentsTokens())
      == Ok(Program([FunctionDeclaration(Some(Node.Identifier("foo")), [Some(Node.Identifier("hoge")), Some(Node.Identifier("fuga"))],
                                         Some(BlockStatement([Some(ReturnStatement(Some(NumericLiteral(42))))])))]))
  {
    var t := FunctionWithArgumentsTokens();
    var params := [Some(Node.Identifier("hoge")), Some(Node.Identifier("fuga"))];
    var block := BlockStatement([Some(ReturnStatement(Some(NumericLiteral(42))))]);
    var f := FunctionDeclaration(Some(Node.Identifier("foo")), params, Some(block));
    TwoParameters();
    ReturnBody();
    FunctionElement(t, "foo", Parsed(params, 7), Parsed(Some(block), 12));
    OneStatement(t, f);
  }

  /** `function name`, a parameter list and a body make one source element. */
  lemma FunctionElement(t: seq<Token>, name: string, params: Parsed<seq<Option<Node>>>, body: Parsed<Option<Node>>)
    requires 2 <= |t| && t[0] == Keyword("function") && t[1] == Token.Identifier(name)
    requires ParameterListAt(t, 2) == Ok(params) && params.next <= |t| && FunctionBodyAt(t, params.next) == Ok(body)
    ensures SourceElementAt(t, 0) == Ok(Parsed(Some(FunctionDeclaration(Some(Node.Identifier(name)), params.value, body.value)), body.next))
  {
    assert FunctionDeclarationAt(t, 1) == Ok(Parsed(Some(FunctionDeclaration(Some(Node.Identifier(name)), params.value, body.value)), body.next));
  }

  function FunctionWithArgumentsTokens(): seq<Token>
  {
    [Keyword("function"), Token.Identifier("foo"), Punctuator('('), Token.Identifier("hoge"), Punctuator(','), Token.Identifier("fuga"),
     Punctuator(')'), Punctuator('{'), Keyword("return"), Number(42), Punctuator(';'), Punctuator('}')]
  }

  /** `(hoge, fuga)` gives the two parameters in order. */
  lemma TwoParameters()
    ensures ParameterListAt(FunctionWithArgumentsTokens(), 2)
      == Ok(Parsed([Some(Node.Identifier("hoge")), Some(Node.Identifier("fuga"))], 7))
  {
    var t := FunctionWithArgumentsTokens();
    var params := [Some(Node.Identifier("hoge")), Some(Node.Identifier("fuga"))];
    assert ParamsAt(t, 6, params) == Ok(Parsed(params, 7));
    assert [Some(Node.Identifier("hoge"))] + [Some(Node.Identifier("fuga"))] == params;
    assert ParamsAt(t, 5, [Some(Node.Identifier("hoge"))]) == Ok(Parsed(params, 7));
    assert ParamsAt(t, 4, [Some(Node.Identifier("hoge"))]) == Ok(Parsed(params, 7));
    assert [] + [Some(Node.Identifier("hoge"))] == [Some(Node.Identifier("hoge"))];
    assert ParamsAt(t, 3, []) == Ok(Parsed(params, 7));
  }

  /** `{ return 42; }` gives a block holding the one return statement. */
  lemma ReturnBody()
    ensures FunctionBodyAt(FunctionWithArgumentsTokens(), 7)
      == Ok(Parsed(Some(BlockStatement([Some(ReturnStatement(Some(NumericLiteral(42))))])), 12))
  {
    var t := FunctionWithArgumentsTokens();
    var ret := ReturnStatement(Some(NumericLiteral(42)));
    var block := BlockStatement([Some(ret)]);
    assert LhsAt(t, 9) == Ok(Parsed(Some(NumericLiteral(42)), 10));
    assert AssignmentAt(t, 9) == Ok(Parsed(Some(NumericLiteral(42)), 10));
    assert t[8] != Keyword("function");
    assert StatementAt(t, 8) == Ok(Parsed(Some(ret), 11));
    assert SourceElementAt(t, 8) == Ok(Parsed(Some(ret), 11));
    assert BodyAt(t, 11, [Some(ret)]) == Ok(Parsed(Some(block), 12));
    assert [] + [Some(ret)] == [Some(ret)];
    assert BodyAt(t, 8, []) == Ok(Parsed(Some(block), 12));
  }

  /** `function f(a - b) {}`: the `-` in the parameter list makes the loop spin. */
  lemma StrayMinusParameter()
    ensures ParseAst([Keyword("function"), Token.Identifier("f"), Punctuator('('), Token.Identifier("a"), Punctuator('-'),
                      Token.Identifier("b"), Punctuator(')'), Punctuator('{'), Punctuator('}')]) == Err(Diverges)
  {
    var t := [Keyword("function"), Token.Identifier("f"), Punctuator('('), Token.Identifier("a"), Punctuator('-'),
              Token.Identifier("b"), Punctuator(')'), Punctuator('{'), Punctuator('}')];
    StrayPunctuatorInParameters(t, 3, [], 4);
    assert ParameterListAt(t, 2) == Err(Diverges);
  }

  /** `function foo() {` never closed: the body loop reaches the end of the stream. */
  lemma UnclosedFunction()
    ensures ParseAst([Keyword("function"), Token.Identifier("foo"), Punctuator('('), Punctuator(')'), Punctuator('{')]).Err?
  {
    var t := [Keyword("function"), Token.Identifier("foo"), Punctuator('('), Punctuator(')'), Punctuator('{')];
    UnclosedBodyFails(t, 5, []);
    assert ParameterListAt(t, 2) == Ok(Parsed([], 4));
  }
}
