/** The evaluator on the programs of the tests in js/runtime.rs, given as the trees the parser builds for them. */
module JsRuntimeExamples {
  import opened Wrappers
  import JsTokens
  import opened JsAst
  import opened JsRuntime

  function Num(n: nat): Option<Node>
  {
    Some(NumericLiteral(n))
  }

  function Id(name: string): Option<Node>
  {
    Some(Node.Identifier(name))
  }

  function Str(s: string): Option<Node>
  {
    Some(Node.StringLiteral(s))
  }

  /** `var name = init;` */
  function Var(name: string, init: Option<Node>): Node
  {
    VariableDeclaration([Some(VariableDeclarator(Id(name), init))])
  }

  /** `name = value;` */
  function Assign(name: string, value: Option<Node>): Node
  {
    ExpressionStatement(Some(AssignmentExpression('=', Id(name), value)))
  }

  lemma DeclarationStep(name: string, init: Option<Node>, vars: seq<Binding>, value: Option<RuntimeValue>)
    requires Evaluate(init, vars) == Ok(Evaluated(value, vars))
    ensures Evaluate(Some(Var(name, init)), vars) == Ok(Evaluated(None, vars + [(name, value)]))
  {
    var d := Some(VariableDeclarator(Id(name), init));
    assert Evaluate(d, vars) == Ok(Evaluated(None, vars + [(name, value)]));
    assert EvaluateDeclarations([d][1..], vars + [(name, value)]) == Ok(vars + [(name, value)]);
  }

  /** `42 + 1` reads `foo`'s binding: `var foo=42;foo+1;` gives nothing, then 43, and one binding. */
  lemma AddVariableAndNum()
    ensures Evaluate(Some(Var("foo", Num(42))), []) == Ok(Evaluated(None, [("foo", Some(Number(42)))]))
    ensures Evaluate(Some(ExpressionStatement(Some(AdditiveExpression('+', Id("foo"), Num(1))))), [("foo", Some(Number(42)))])
      == Ok(Evaluated(Some(Number(43)), [("foo", Some(Number(42)))]))
  {
    DeclarationStep("foo", Num(42), [], Some(Number(42)));
    var vars := [("foo", Some(Number(42)))];
    assert [] + vars == vars;
    assert FirstIndex(vars, "foo") == Some(0);
    assert Evaluate(Id("foo"), vars) == Ok(Evaluated(Some(Number(42)), vars));
  }

  /** `var foo=42; foo=150; foo` gives nothing, nothing, then 150; the binding is replaced, not added. */
  lemma ReassignVariable()
    ensures Evaluate(Some(Var("foo", Num(42))), []) == Ok(Evaluated(None, [("foo", Some(Number(42)))]))
    ensures Evaluate(Some(Assign("foo", Num(150))), [("foo", Some(Number(42)))]) == Ok(Evaluated(None, [("foo", Some(Number(150)))]))
    ensures Evaluate(Some(ExpressionStatement(Id("foo"))), [("foo", Some(Number(150)))])
      == Ok(Evaluated(Some(Number(150)), [("foo", Some(Number(150)))]))
  {
    DeclarationStep("foo", Num(42), [], Some(Number(42)));
    var vars: seq<Binding> := [("foo", Some(Number(42)))];
    assert [] + vars == vars;
    assert FirstIndex(vars, "foo") == Some(0);
    assert UpdatedVars(vars, "foo", Some(Number(150))) == [("foo", Some(Number(150)))];
    var vars2: seq<Binding> := [("foo", Some(Number(150)))];
    assert FirstIndex(vars2, "foo") == Some(0);
  }

  lemma Decimal100()
    ensures DecimalString(100) == "100"
  {
    assert DecimalString(1) == "1";
    assert DecimalString(10) == "1" + "0";
  }

  lemma Decimal532()
    ensures DecimalString(532) == "532"
  {
    assert DecimalString(5) == "5";
    assert DecimalString(53) == "5" + "3";
  }

  /** `var a=1; var a=2; a=3; a`: the update replaces the first `a`, and the read then finds the second, 2. */
  lemma DuplicateUpdateReadsOlder()
    ensures UpdatedVars([("a", Some(Number(1))), ("a", Some(Number(2)))], "a", Some(Number(3)))
      == [("a", Some(Number(2))), ("a", Some(Number(3)))]
    ensures ValueOf(UpdatedVars([("a", Some(Number(1))), ("a", Some(Number(2)))], "a", Some(Number(3))), "a") == Some(Number(2))
  {
    var vars := [("a", Some(Number(1))), ("a", Some(Number(2)))];
    assert FirstIndex(vars, "a") == Some(0);
    assert vars[1..] == [("a", Some(Number(2)))];
    assert FirstIndex(vars[1..], "a") == Some(0);
    UpdateReadsNextBinding(vars, "a", Some(Number(3)));
  }

  /** A number and a string concatenate their displays; subtracting a string gives `u64::MIN`. */
  lemma MixedOperands()
    ensures Add(Number(100), RuntimeValue.StringLiteral("aaa")) == Ok(RuntimeValue.StringLiteral("100aaa"))
    ensures Add(RuntimeValue.StringLiteral("abc"), Number(532)) == Ok(RuntimeValue.StringLiteral("abc532"))
    ensures Sub(Number(150), RuntimeValue.StringLiteral("aaa")) == Ok(Number(0))
  {
    Decimal100();
    Decimal532();
    assert Display(Number(100)) + "aaa" == "100aaa";
    assert "abc" + Display(Number(532)) == "abc532";
  }

  /** One step of `execute`: the first element, then the rest in the scope it leaves. */
  lemma ExecuteStep(first: Node, rest: seq<Node>, vars: seq<Binding>, value: Option<RuntimeValue>, after: seq<Binding>)
    requires Evaluate(Some(first), vars) == Ok(Evaluated(value, after))
    ensures ExecuteAll([first] + rest, vars) == ExecuteAll(rest, after)
  {
    assert ([first] + rest)[1..] == rest;
  }

  lemma ReassignNumber()
    ensures Evaluate(Some(Assign("foo", Num(523))), [("foo", Some(Number(150)))]) == Ok(Evaluated(None, [("foo", Some(Number(523)))]))
  {
    var v: seq<Binding> := [("foo", Some(Number(150)))];
    assert FirstIndex(v, "foo") == Some(0);
    assert UpdatedVars(v, "foo", Some(Number(523))) == [("foo", Some(Number(523)))];
  }

  lemma ReassignNumberPlusString(v: seq<Binding>)
    requires v == [("foo", Some(Number(523))), ("a", Some(Number(100)))]
    ensures Evaluate(Some(Assign("a", Some(AdditiveExpression('+', Num(100), Str("aaa"))))), v)
      == Ok(Evaluated(None, [("foo", Some(Number(523))), ("a", Some(RuntimeValue.StringLiteral("100aaa")))]))
  {
    NumberPlusString(v);
    RebindSecond(v, "a", Some(RuntimeValue.StringLiteral("100aaa")));
  }

  lemma NumberPlusString(v: seq<Binding>)
    ensures Evaluate(Some(AdditiveExpression('+', Num(100), Str("aaa"))), v) == Ok(Evaluated(Some(RuntimeValue.StringLiteral("100aaa")), v))
  {
    assert Evaluate(Num(100), v) == Ok(Evaluated(Some(Number(100)), v));
    assert Evaluate(Str("aaa"), v) == Ok(Evaluated(Some(RuntimeValue.StringLiteral("aaa")), v));
    MixedOperands();
  }

  /** Updating the second of two differently named bindings keeps the order. */
  lemma RebindSecond(v: seq<Binding>, name: string, value: Option<RuntimeValue>)
    requires |v| == 2 && v[0].0 != name && v[1].0 == name
    ensures UpdatedVars(v, name, value) == [v[0], (name, value)]
  {
    assert FirstIndex(v[1..], name) == Some(0);
    assert FirstIndex(v, name) == Some(1);
  }

  lemma ReassignStringPlusNumber(v: seq<Binding>)
    requires v == [("foo", Some(Number(523))), ("a", Some(RuntimeValue.StringLiteral("100aaa")))]
    ensures Evaluate(Some(Assign("foo", Some(AdditiveExpression('+', Str("abc"), Num(532))))), v)
      == Ok(Evaluated(None, [("a", Some(RuntimeValue.StringLiteral("100aaa"))), ("foo", Some(RuntimeValue.StringLiteral("abc532")))]))
  {
    StringPlusNumber(v);
    RebindFirst(v, "foo", Some(RuntimeValue.StringLiteral("abc532")));
  }

  lemma StringPlusNumber(v: seq<Binding>)
    ensures Evaluate(Some(AdditiveExpression('+', Str("abc"), Num(532))), v) == Ok(Evaluated(Some(RuntimeValue.StringLiteral("abc532")), v))
  {
    assert Evaluate(Str("abc"), v) == Ok(Evaluated(Some(RuntimeValue.StringLiteral("abc")), v));
    assert Evaluate(Num(532), v) == Ok(Evaluated(Some(Number(532)), v));
    MixedOperands();
  }

  /** Updating the first of two bindings moves it behind the other one. */
  lemma RebindFirst(v: seq<Binding>, name: string, value: Option<RuntimeValue>)
    requires |v| == 2 && v[0].0 == name
    ensures UpdatedVars(v, name, value) == [v[1], (name, value)]
  {
    assert FirstIndex(v, name) == Some(0);
  }

  lemma SubtractString(v: seq<Binding>)
    ensures Evaluate(Some(AdditiveExpression('-', Num(150), Str("aaa"))), v) == Ok(Evaluated(Some(Number(0)), v))
  {
    assert Evaluate(Num(150), v) == Ok(Evaluated(Some(Number(150)), v));
    assert Evaluate(Str("aaa"), v) == Ok(Evaluated(Some(RuntimeValue.StringLiteral("aaa")), v));
    assert Sub(Number(150), RuntimeValue.StringLiteral("aaa")) == Ok(Number(0));
  }

  /** The program `var foo = 150; foo = 523; var a = 100; a = 100 + "aaa"; foo = "abc" + 532; var b = 150 - "aaa";` */
  function ReassignProgram(): seq<Node>
  {
    [Var("foo", Num(150)), Assign("foo", Num(523)), Var("a", Num(100)),
     Assign("a", Some(AdditiveExpression('+', Num(100), Str("aaa")))),
     Assign("foo", Some(AdditiveExpression('+', Str("abc"), Num(532)))),
     Var("b", Some(AdditiveExpression('-', Num(150), Str("aaa"))))]
  }

  lemma FinalScope(v: seq<Binding>)
    requires v == [("a", Some(RuntimeValue.StringLiteral("100aaa"))), ("foo", Some(RuntimeValue.StringLiteral("abc532"))), ("b", Some(Number(0)))]
    ensures ValueOf(v, "foo") == Some(RuntimeValue.StringLiteral("abc532"))
    ensures ValueOf(v, "a") == Some(RuntimeValue.StringLiteral("100aaa"))
    ensures ValueOf(v, "b") == Some(Number(0))
  {
    assert FirstIndex(v, "a") == Some(0);
    assert FirstIndex(v[1..], "foo") == Some(0);
    assert FirstIndex(v, "foo") == Some(1);
    assert FirstIndex(v[2..], "b") == Some(0);
    assert FirstIndex(v[1..], "b") == Some(1);
    assert FirstIndex(v, "b") == Some(2);
  }

  /** That program leaves three bindings: `foo` to "abc532", `a` to "100aaa" and `b` to 0. */
  lemma ReassignAndAddString()
    ensures ExecuteAll(ReassignProgram(), []).Ok?
    ensures var vars := ExecuteAll(ReassignProgram(), []).value;
      |vars| == 3 &&
      ValueOf(vars, "foo") == Some(RuntimeValue.StringLiteral("abc532")) &&
      ValueOf(vars, "a") == Some(RuntimeValue.StringLiteral("100aaa")) &&
      ValueOf(vars, "b") == Some(Number(0))
  {
    var s0, s1, s2 := Var("foo", Num(150)), Assign("foo", Num(523)), Var("a", Num(100));
    var s3 := Assign("a", Some(AdditiveExpression('+', Num(100), Str("aaa"))));
    var s4 := Assign("foo", Some(AdditiveExpression('+', Str("abc"), Num(532))));
    var s5 := Var("b", Some(AdditiveExpression('-', Num(150), Str("aaa"))));
    var b5 := [s5];
    var b4 := [s4] + b5;
    var b3 := [s3] + b4;
    var b2 := [s2] + b3;
    var b1 := [s1] + b2;
    var b0 := [s0] + b1;
    assert b0 == ReassignProgram();

    var v1: seq<Binding> := [("foo", Some(Number(150)))];
    var v2: seq<Binding> := [("foo", Some(Number(523)))];
    var v3: seq<Binding> := [("foo", Some(Number(523))), ("a", Some(Number(100)))];
    var v4: seq<Binding> := [("foo", Some(Number(523))), ("a", Some(RuntimeValue.StringLiteral("100aaa")))];
    var v5: seq<Binding> := [("a", Some(RuntimeValue.StringLiteral("100aaa"))), ("foo", Some(RuntimeValue.StringLiteral("abc532")))];
    var v6: seq<Binding> := v5 + [("b", Some(Number(0)))];

    DeclarationStep("foo", Num(150), [], Some(Number(150)));
    assert [] + v1 == v1;
    ExecuteStep(s0, b1, [], None, v1);
    ReassignNumber();
    ExecuteStep(s1, b2, v1, None, v2);
    DeclarationStep("a", Num(100), v2, Some(Number(100)));
    assert v2 + [("a", Some(Number(100)))] == v3;
    ExecuteStep(s2, b3, v2, None, v3);
    ReassignNumberPlusString(v3);
    ExecuteStep(s3, b4, v3, None, v4);
    ReassignStringPlusNumber(v4);
    ExecuteStep(s4, b5, v4, None, v5);
    SubtractString(v5);
    DeclarationStep("b", Some(AdditiveExpression('-', Num(150), Str("aaa"))), v5, Some(Number(0)));
    ExecuteStep(s5, [], v5, None, v6);
    assert b5 == [s5] + [];
    assert ExecuteAll([], v6) == Ok(v6);
    FinalScope(v6);
  }

  /** The tokens of `var foo=42;foo+1;` (the lexer yields no keywords or identifiers, so they are given here). */
  function AddVariableAndNumTokens(): seq<JsTokens.Token>
  {
    [JsTokens.Keyword("var"), JsTokens.Token.Identifier("foo"), JsTokens.Punctuator('='), JsTokens.Number(42), JsTokens.Punctuator(';'),
     JsTokens.Token.Identifier("foo"), JsTokens.Punctuator('+'), JsTokens.Number(1), JsTokens.Punctuator(';')]
  }

  /** From tokens to values: the parser builds the two statements the runtime test evaluates. */
  lemma AddVariableAndNumParses()
    ensures ParseAst(AddVariableAndNumTokens())
      == Ok(Program([Var("foo", Num(42)), ExpressionStatement(Some(AdditiveExpression('+', Id("foo"), Num(1))))]))
  {
    var t := AddVariableAndNumTokens();
    var d := Var("foo", Num(42));
    var e := ExpressionStatement(Some(AdditiveExpression('+', Id("foo"), Num(1))));
    DeclarationStatementAt();
    SumStatementAt();
    assert StatementAt(t, 9) == Ok(Parsed(None, 9));
    assert ProgramAt(t, 9, [d, e]) == Ok(Program([d, e]));
    assert [d] + [e] == [d, e];
    assert ProgramAt(t, 5, [d]) == Ok(Program([d, e]));
    assert [] + [d] == [d];
  }

  /** `var foo = 42;` is the first statement, ending after its `;`. */
  lemma DeclarationStatementAt()
    ensures StatementAt(AddVariableAndNumTokens(), 0) == Ok(Parsed(Some(Var("foo", Num(42))), 5))
  {
    var t := AddVariableAndNumTokens();
    assert LhsAt(t, 3) == Ok(Parsed(Num(42), 4));
    assert AdditiveAt(t, 3) == Ok(Parsed(Num(42), 4));
    assert AssignmentAt(t, 3) == Ok(Parsed(Num(42), 4));
    assert InitializerAt(t, 2) == Ok(Parsed(Num(42), 4));
    assert VariableDeclarationAt(t, 1) == Ok(Parsed(Some(Var("foo", Num(42))), 4));
    assert t[0] != JsTokens.Keyword("function");
  }

  /** `foo + 1;` is the second statement, ending after its `;`. */
  lemma SumStatementAt()
    ensures StatementAt(AddVariableAndNumTokens(), 5)
      == Ok(Parsed(Some(ExpressionStatement(Some(AdditiveExpression('+', Id("foo"), Num(1))))), 9))
  {
    var t := AddVariableAndNumTokens();
    var add := AdditiveExpression('+', Id("foo"), Num(1));
    assert LhsAt(t, 5) == Ok(Parsed(Id("foo"), 6));
    assert LhsAt(t, 7) == Ok(Parsed(Num(1), 8));
    assert AssignmentAt(t, 7) == Ok(Parsed(Num(1), 8));
    assert AdditiveAt(t, 5) == Ok(Parsed(Some(add), 8));
    assert AssignmentAt(t, 5) == Ok(Parsed(Some(add), 8));
    assert t[5] != JsTokens.Keyword("function");
  }

  /** A member expression is not evaluated. */
  lemma MemberUnsupported(vars: seq<Binding>)
    ensures Evaluate(Some(MemberExpression(Id("a"), Id("b"))), vars) == Err(Unsupported)
  {
  }
}
