/**
 * The JavaScript parser (js/ast.rs): recursive descent from a peekable token stream to an AST.
 * The functions below say what each production reads from position `pos` of the token
 * sequence, what it builds and where it stops; the class `JsParser` runs the same productions on
 * a cursor and is proved to agree with them.
 */
module JsAst {
  import opened Wrappers
  import opened JsTokens

  /** A node of the AST. Children the parser may fail to find are optional, as in the source. */
  datatype Node =
    | ExpressionStatement(expression: Option<Node>)
    | VariableDeclaration(declarations: seq<Option<Node>>)
    | VariableDeclarator(id: Option<Node>, init: Option<Node>)
    | Identifier(name: string)
    | StringLiteral(value: string)
    | AdditiveExpression(operator: char, left: Option<Node>, right: Option<Node>)
    | AssignmentExpression(operator: char, left: Option<Node>, right: Option<Node>)
    | MemberExpression(object: Option<Node>, property: Option<Node>)
    | NumericLiteral(number: nat)
    | BlockStatement(body: seq<Option<Node>>)
    | ReturnStatement(argument: Option<Node>)
    | FunctionDeclaration(id: Option<Node>, params: seq<Option<Node>>, functionBody: Option<Node>)
    | CallExpression(callee: Option<Node>, arguments: seq<Option<Node>>)

  datatype Program = Program(body: seq<Node>)

  /**
   * Why a parse stops without a program: a function without its `(` or `{` (an `assert!` or an
   * `unimplemented!` in the source), or a loop that would spin for ever without reading a token.
   */
  datatype ParseError = Unexpected(token: Option<Token>) | Diverges

  /** A parsed value and the stream position after it. */
  datatype Parsed<+T> = Parsed(value: T, next: nat)

  /** A method result agrees with what a production gives: the same value and the cursor after it, or the same error. */
  predicate Agrees<T(==)>(r: Result<T, ParseError>, spec: Result<Parsed<T>, ParseError>, pos: nat)
  {
    match spec
    case Ok(p) => r == Ok(p.value) && pos == p.next
    case Err(e) => r == Err(e)
  }

  predicate Advances<T>(tokens: seq<Token>, pos: nat, r: Result<Parsed<T>, ParseError>)
  {
    r.Ok? ==> pos <= r.value.next <= |tokens| && (pos < |tokens| ==> pos < r.value.next)
  }

  // ---------------------------------------------------------------------------------------------
  // Productions that read one token or a fixed shape

  /** `identifier`: reads one token; an identifier gives its node, anything else nothing. */
  function IdentifierAt(tokens: seq<Token>, pos: nat): (r: Parsed<Option<Node>>)
    requires pos <= |tokens|
    ensures r.next == if pos == |tokens| then pos else pos + 1
    ensures r.value.Some? <==> pos < |tokens| && tokens[pos].Identifier?
    ensures r.value.Some? ==> r.value.value == Node.Identifier(tokens[pos].name)
  {
    if pos == |tokens| then Parsed(None, pos)
    else match tokens[pos]
      case Identifier(name) => Parsed(Some(Node.Identifier(name)), pos + 1)
      case _ => Parsed(None, pos + 1)
  }

  /** `primary_expression`: reads one token; a number, a string or an identifier gives its node, anything else nothing. */
  function PrimaryAt(tokens: seq<Token>, pos: nat): (r: Parsed<Option<Node>>)
    requires pos <= |tokens|
    ensures r.next == if pos == |tokens| then pos else pos + 1
    ensures r.value.Some? <==> pos < |tokens| && (tokens[pos].Number? || tokens[pos].StringLiteral? || tokens[pos].Identifier?)
    ensures r.value.Some? && tokens[pos].Number? ==> r.value.value == NumericLiteral(tokens[pos].value)
    ensures r.value.Some? && tokens[pos].StringLiteral? ==> r.value.value == Node.StringLiteral(tokens[pos].text)
    ensures r.value.Some? && tokens[pos].Identifier? ==> r.value.value == Node.Identifier(tokens[pos].name)
  {
    if pos == |tokens| then Parsed(None, pos)
    else match tokens[pos]
      case Number(value) => Parsed(Some(NumericLiteral(value)), pos + 1)
      case StringLiteral(value) => Parsed(Some(Node.StringLiteral(value)), pos + 1)
      case Identifier(name) => Parsed(Some(Node.Identifier(name)), pos + 1)
      case _ => Parsed(None, pos + 1)
  }

  /** `member_expression`: a primary expression, and `. identifier` after it when a `.` follows. */
  function MemberAt(tokens: seq<Token>, pos: nat): (r: Parsed<Option<Node>>)
    requires pos <= |tokens|
    ensures pos <= r.next <= |tokens| && (pos < |tokens| ==> pos < r.next)
    ensures var p := PrimaryAt(tokens, pos);
      if p.next < |tokens| && tokens[p.next] == Punctuator('.') then
        r.value == Some(MemberExpression(p.value, IdentifierAt(tokens, p.next + 1).value))
      else r == p
  {
    var p := PrimaryAt(tokens, pos);
    if p.next < |tokens| && tokens[p.next] == Punctuator('.') then
      var id := IdentifierAt(tokens, p.next + 1);
      Parsed(Some(MemberExpression(p.value, id.value)), id.next)
    else p
  }

  /** The optional `;` after a statement: consumed when it is the next token. */
  function SkipSemicolon(tokens: seq<Token>, p: Parsed<Option<Node>>): (r: Parsed<Option<Node>>)
    requires p.next <= |tokens|
    ensures r.value == p.value
    ensures r.next == if p.next < |tokens| && tokens[p.next] == Punctuator(';') then p.next + 1 else p.next
  {
    if p.next < |tokens| && tokens[p.next] == Punctuator(';') then Parsed(p.value, p.next + 1) else p
  }

  // ---------------------------------------------------------------------------------------------
  // Expressions. The second component of each `decreases` orders productions that call one
  // another at the same position.

  /** `assignment_expression`: an additive expression, then `= assignment_expression` when a `=` follows (so `a = b = c` nests to the right). */
  function AssignmentAt(tokens: seq<Token>, pos: nat): (r: Result<Parsed<Option<Node>>, ParseError>)
    requires pos <= |tokens|
    ensures Advances(tokens, pos, r)
    decreases |tokens| - pos, 5
  {
    var e :- AdditiveAt(tokens, pos);
    if e.next < |tokens| && tokens[e.next] == Punctuator('=') then
      var right :- AssignmentAt(tokens, e.next + 1);
      Ok(Parsed(Some(AssignmentExpression('=', e.value, right.value)), right.next))
    else Ok(e)
  }

  /** `additive_expression`: a left-hand-side expression, then `+` or `-` and a whole assignment expression (so `a - b - c` nests to the right). */
  function AdditiveAt(tokens: seq<Token>, pos: nat): (r: Result<Parsed<Option<Node>>, ParseError>)
    requires pos <= |tokens|
    ensures Advances(tokens, pos, r)
    decreases |tokens| - pos, 4
  {
    var left :- LhsAt(tokens, pos);
    if left.next < |tokens| && tokens[left.next].Punctuator? && (tokens[left.next].c == '+' || tokens[left.next].c == '-') then
      var right :- AssignmentAt(tokens, left.next + 1);
      Ok(Parsed(Some(AdditiveExpression(tokens[left.next].c, left.value, right.value)), right.next))
    else Ok(left)
  }

  /** `left_hand_size_expression`: a member expression, called when a `(` follows. */
  function LhsAt(tokens: seq<Token>, pos: nat): (r: Result<Parsed<Option<Node>>, ParseError>)
    requires pos <= |tokens|
    ensures Advances(tokens, pos, r)
    decreases |tokens| - pos, 3
  {
    var m := MemberAt(tokens, pos);
    if m.next < |tokens| && tokens[m.next] == Punctuator('(') then
      var args :- ArgumentsAt(tokens, m.next + 1, []);
      Ok(Parsed(Some(CallExpression(m.value, args.value)), args.next))
    else Ok(m)
  }

  /**
   * The `arguments` loop after `(`, with the arguments read so far: `)` ends it, `,` is skipped,
   * any other token starts an assignment expression; it ends with the stream, and spins on any
   * other punctuator.
   */
  function ArgumentsAt(tokens: seq<Token>, pos: nat, args: seq<Option<Node>>): (r: Result<Parsed<seq<Option<Node>>>, ParseError>)
    requires pos <= |tokens|
    ensures r.Ok? ==> pos <= r.value.next <= |tokens|
    decreases |tokens| - pos, 6
  {
    if pos == |tokens| then Ok(Parsed(args, pos))
    else match tokens[pos]
      case Punctuator(c) =>
        if c == ')' then Ok(Parsed(args, pos + 1))
        else if c == ',' then ArgumentsAt(tokens, pos + 1, args)
        else Err(Diverges)
      case _ =>
        var a :- AssignmentAt(tokens, pos);
        ArgumentsAt(tokens, a.next, args + [a.value])
  }

  // ---------------------------------------------------------------------------------------------
  // Statements and functions

  /** `initializer`: reads one token; after a `=` it is the assignment expression that follows, otherwise nothing. */
  function InitializerAt(tokens: seq<Token>, pos: nat): (r: Result<Parsed<Option<Node>>, ParseError>)
    requires pos <= |tokens|
    ensures Advances(tokens, pos, r)
    ensures pos < |tokens| && tokens[pos] != Punctuator('=') ==> r == Ok(Parsed(None, pos + 1))
    ensures pos == |tokens| ==> r == Ok(Parsed(None, pos))
    decreases |tokens| - pos, 0
  {
    if pos == |tokens| then Ok(Parsed(None, pos))
    else if tokens[pos] == Punctuator('=') then AssignmentAt(tokens, pos + 1)
    else Ok(Parsed(None, pos + 1))
  }

  /** `variable_declaration` after `var`: one declarator, an identifier and its initializer. */
  function VariableDeclarationAt(tokens: seq<Token>, pos: nat): (r: Result<Parsed<Option<Node>>, ParseError>)
    requires pos <= |tokens|
    ensures Advances(tokens, pos, r)
    ensures r.Ok? ==> r.value.value.Some? && r.value.value.value.VariableDeclaration? && |r.value.value.value.declarations| == 1
    decreases |tokens| - pos, 1
  {
    var id := IdentifierAt(tokens, pos);
    var init :- InitializerAt(tokens, id.next);
    Ok(Parsed(Some(VariableDeclaration([Some(VariableDeclarator(id.value, init.value))])), init.next))
  }

  /**
   * `statement`: `var` and a declaration, `return` and an expression, any other keyword nothing
   * (and nothing read), anything else an expression statement; then one optional `;`.
   */
  function StatementAt(tokens: seq<Token>, pos: nat): (r: Result<Parsed<Option<Node>>, ParseError>)
    requires pos <= |tokens|
    ensures r.Ok? ==> pos <= r.value.next <= |tokens|
    ensures r.Ok? && r.value.value.Some? ==> pos < r.value.next
    decreases |tokens| - pos, 7
  {
    if pos == |tokens| then Ok(Parsed(None, pos))
    else
      var node :- match tokens[pos]
        case Keyword(k) =>
          if k == "var" then VariableDeclarationAt(tokens, pos + 1)
          else if k == "return" then
            var a :- AssignmentAt(tokens, pos + 1);
            Ok(Parsed(Some(ReturnStatement(a.value)), a.next))
          else Ok(Parsed(None, pos))
        case _ =>
          var a :- AssignmentAt(tokens, pos);
          Ok(Parsed(Some(ExpressionStatement(a.value)), a.next));
      Ok(SkipSemicolon(tokens, node))
  }

  /** `source_element`: a function declaration after the keyword `function`, otherwise a statement. */
  function SourceElementAt(tokens: seq<Token>, pos: nat): (r: Result<Parsed<Option<Node>>, ParseError>)
    requires pos <= |tokens|
    ensures r.Ok? ==> pos <= r.value.next <= |tokens|
    ensures r.Ok? && r.value.value.Some? ==> pos < r.value.next
    decreases |tokens| - pos, 8
  {
    if pos < |tokens| && tokens[pos] == Keyword("function") then FunctionDeclarationAt(tokens, pos + 1)
    else StatementAt(tokens, pos)
  }

  /**
   * The `parameter_list` loop after `(`, with the parameters read so far: `)` ends it, `,` is
   * skipped, any other token is read as an identifier; it ends with the stream, and spins on any
   * other punctuator.
   */
  function ParamsAt(tokens: seq<Token>, pos: nat, params: seq<Option<Node>>): (r: Result<Parsed<seq<Option<Node>>>, ParseError>)
    requires pos <= |tokens|
    ensures r.Ok? ==> pos <= r.value.next <= |tokens|
    decreases |tokens| - pos
  {
    if pos == |tokens| then Ok(Parsed(params, pos))
    else match tokens[pos]
      case Punctuator(c) =>
        if c == ')' then Ok(Parsed(params, pos + 1))
        else if c == ',' then ParamsAt(tokens, pos + 1, params)
        else Err(Diverges)
      case _ =>
        ParamsAt(tokens, pos + 1, params + [IdentifierAt(tokens, pos).value])
  }

  /** `parameter_list`: the `(` it demands, then the loop. */
  function ParameterListAt(tokens: seq<Token>, pos: nat): (r: Result<Parsed<seq<Option<Node>>>, ParseError>)
    requires pos <= |tokens|
    ensures r.Ok? ==> pos < r.value.next <= |tokens|
    ensures r.Err? && (pos == |tokens| || tokens[pos] != Punctuator('(')) ==>
      r.error == Unexpected(if pos == |tokens| then None else Some(tokens[pos]))
  {
    if pos == |tokens| then Err(Unexpected(None))
    else if tokens[pos] == Punctuator('(') then ParamsAt(tokens, pos + 1, [])
    else Err(Unexpected(Some(tokens[pos])))
  }

  /**
   * The `function_body` loop after `{`, with the elements read so far: a `}` ends the block;
   * otherwise a source element is read, and when it reads nothing the loop spins for ever.
   */
  function BodyAt(tokens: seq<Token>, pos: nat, body: seq<Option<Node>>): (r: Result<Parsed<Option<Node>>, ParseError>)
    requires pos <= |tokens|
    ensures r.Ok? ==> pos < r.value.next <= |tokens|
    decreases |tokens| - pos, 9
  {
    if pos < |tokens| && tokens[pos] == Punctuator('}') then Ok(Parsed(Some(BlockStatement(body)), pos + 1))
    else
      var e :- SourceElementAt(tokens, pos);
      if e.next == pos then Err(Diverges)
      else BodyAt(tokens, e.next, body + [e.value])
  }

  /** `function_body`: the `{` it demands, then the loop. */
  function FunctionBodyAt(tokens: seq<Token>, pos: nat): (r: Result<Parsed<Option<Node>>, ParseError>)
    requires pos <= |tokens|
    ensures r.Ok? ==> pos < r.value.next <= |tokens|
    ensures r.Err? && (pos == |tokens| || tokens[pos] != Punctuator('{')) ==>
      r.error == Unexpected(if pos == |tokens| then None else Some(tokens[pos]))
    decreases |tokens| - pos, 0
  {
    if pos == |tokens| then Err(Unexpected(None))
    else if tokens[pos] == Punctuator('{') then BodyAt(tokens, pos + 1, [])
    else Err(Unexpected(Some(tokens[pos])))
  }

  /** `function_declaration` after `function`: the name, the parameter list and the body. */
  function FunctionDeclarationAt(tokens: seq<Token>, pos: nat): (r: Result<Parsed<Option<Node>>, ParseError>)
    requires pos <= |tokens|
    ensures r.Ok? ==> pos < r.value.next <= |tokens|
    ensures r.Ok? ==> r.value.value.Some? && r.value.value.value.FunctionDeclaration?
    decreases |tokens| - pos, 1
  {
    var id := IdentifierAt(tokens, pos);
    var params :- ParameterListAt(tokens, id.next);
    var body :- FunctionBodyAt(tokens, params.next);
    Ok(Parsed(Some(FunctionDeclaration(id.value, params.value, body.value)), body.next))
  }

  /** The `parse_ast` loop, with the elements read so far: source elements until one gives nothing. */
  function ProgramAt(tokens: seq<Token>, pos: nat, body: seq<Node>): (r: Result<Program, ParseError>)
    requires pos <= |tokens|
    ensures r.Ok? ==> |body| <= |r.value.body| <= |body| + |tokens| - pos && r.value.body[..|body|] == body
    decreases |tokens| - pos
  {
    var e :- SourceElementAt(tokens, pos);
    match e.value
    case None => Ok(Program(body))
    case Some(n) => ProgramAt(tokens, e.next, body + [n])
  }

  /** `parse_ast` on the whole token stream. */
  function ParseAst(tokens: seq<Token>): (r: Result<Program, ParseError>)
    ensures tokens == [] ==> r == Ok(Program([]))
  {
    ProgramAt(tokens, 0, [])
  }

  // ---------------------------------------------------------------------------------------------
  // Properties

  /** The loop of `parse_ast` keeps what it has read in front of what it reads next. */
  lemma {:induction false} ProgramAtPrefix(tokens: seq<Token>, pos: nat, body: seq<Node>)
    requires pos <= |tokens|
    ensures ProgramAt(tokens, pos, body).Ok? <==> ProgramAt(tokens, pos, []).Ok?
    ensures ProgramAt(tokens, pos, body).Ok? ==> ProgramAt(tokens, pos, body).value.body == body + ProgramAt(tokens, pos, []).value.body
    decreases |tokens| - pos
  {
    var e := SourceElementAt(tokens, pos);
    if e.Ok? && e.value.value.Some? {
      var n, next := e.value.value.value, e.value.next;
      assert [] + [n] == [n];
      assert ProgramAt(tokens, pos, body) == ProgramAt(tokens, next, body + [n]);
      assert ProgramAt(tokens, pos, []) == ProgramAt(tokens, next, [n]);
      ProgramAtPrefix(tokens, next, body + [n]);
      ProgramAtPrefix(tokens, next, [n]);
      var tail := ProgramAt(tokens, next, []);
      if tail.Ok? {
        assert (body + [n]) + tail.value.body == body + ([n] + tail.value.body);
      }
    } else if e.Ok? {
      assert body + [] == body;
    }
  }

  /**
   * The left operand of `+` or `-` is a left-hand-side expression and never itself a sum or a
   * difference, so `a - b - c` parses as `a - (b - c)`.
   */
  lemma AdditiveNestsRight(tokens: seq<Token>, pos: nat)
    requires pos <= |tokens|
    ensures var r := AdditiveAt(tokens, pos);
      r.Ok? && r.value.value.Some? && r.value.value.value.AdditiveExpression? ==>
        var left := r.value.value.value.left;
        left.None? || !left.value.AdditiveExpression?
  {
    var m := MemberAt(tokens, pos);
    var p := PrimaryAt(tokens, pos);
    assert m.value.None? || !m.value.value.AdditiveExpression?;
  }

  /** A keyword other than `var`, `return` or `function` ends the program: nothing more is read. */
  lemma OtherKeywordEndsProgram(tokens: seq<Token>, pos: nat, body: seq<Node>)
    requires pos < |tokens| && tokens[pos].Keyword?
    requires tokens[pos].keyword != "var" && tokens[pos].keyword != "return" && tokens[pos].keyword != "function"
    ensures StatementAt(tokens, pos) == Ok(Parsed(None, pos))
    ensures ProgramAt(tokens, pos, body) == Ok(Program(body))
  {
    assert tokens[pos] != Keyword("function");
    assert SkipSemicolon(tokens, Parsed(None, pos)) == Parsed(None, pos);
  }

  /** A function body that no `}` closes never parses: the loop reaches the end of the stream and spins, unless an error comes first. */
  lemma {:induction false} UnclosedBodyFails(tokens: seq<Token>, pos: nat, body: seq<Option<Node>>)
    requires pos <= |tokens|
    requires forall i :: pos <= i < |tokens| ==> tokens[i] != Punctuator('}')
    ensures BodyAt(tokens, pos, body).Err?
    decreases |tokens| - pos
  {
    if pos == |tokens| {
      assert StatementAt(tokens, pos) == Ok(Parsed(None, pos));
    } else {
      var e := SourceElementAt(tokens, pos);
      if e.Ok? && e.value.next != pos {
        UnclosedBodyFails(tokens, e.value.next, body + [e.value.value]);
      }
    }
  }

  /**
   * A punctuator other than `)` or `,` reached before the list closes leaves the loop without
   * progress, whatever follows it: identifiers and commas before it are read as usual, so
   * `(+ a)` and `(a - b)` both spin.
   */
  lemma {:induction false} StrayPunctuatorInParameters(tokens: seq<Token>, pos: nat, params: seq<Option<Node>>, stray: nat)
    requires pos <= stray < |tokens|
    requires tokens[stray].Punctuator? && tokens[stray].c != ')' && tokens[stray].c != ','
    requires forall i :: pos <= i < stray ==> !tokens[i].Punctuator? || tokens[i].c == ','
    ensures ParamsAt(tokens, pos, params) == Err(Diverges)
    decreases stray - pos
  {
    if pos < stray {
      var next := if tokens[pos].Punctuator? then params else params + [IdentifierAt(tokens, pos).value];
      StrayPunctuatorInParameters(tokens, pos + 1, next, stray);
    }
  }

  // ---------------------------------------------------------------------------------------------
  // The parser on a cursor

  class JsParser {
    /** The tokens the lexer yields, in order; `pos` is the peekable cursor over them. */
    const tokens: seq<Token>
    var pos: nat

    predicate Valid()
      reads this
    {
      pos <= |tokens|
    }

    /** `JsParser::new` */
    constructor(ts: seq<Token>)
      ensures Valid() && tokens == ts && pos == 0
    {
      tokens := ts;
      pos := 0;
    }

    /** `peek` */
    function Peek(): (t: Option<Token>)
      requires Valid()
      reads this
      ensures t.Some? <==> pos < |tokens|
      ensures t.Some? ==> t.value == tokens[pos]
    {
      if pos < |tokens| then Some(tokens[pos]) else None
    }

    /** `next`: the token under the cursor, moving past it; nothing at the end of the stream. */
    method Advance() returns (t: Option<Token>)
      requires Valid()
      modifies this
      ensures Valid()
      ensures old(pos) < |tokens| ==> t == Some(tokens[old(pos)]) && pos == old(pos) + 1
      ensures old(pos) == |tokens| ==> t == None && pos == old(pos)
    {
      if pos < |tokens| {
        t := Some(tokens[pos]);
        pos := pos + 1;
      } else {
        t := None;
      }
    }

    method ParseAstLoop() returns (r: Result<Program, ParseError>)
      requires Valid()
      modifies this
      ensures r == ProgramAt(tokens, old(pos), [])
    {
      var body: seq<Node> := [];
      ghost var start := pos;
      while true
        invariant Valid() && start <= pos
        invariant ProgramAt(tokens, start, []) == ProgramAt(tokens, pos, body)
        decreases |tokens| - pos
      {
        var node := SourceElement();
        if node.Err? {
          return Err(node.error);
        }
        match node.value {
          case Some(n) =>
            body := body + [n];
          case None =>
            return Ok(Program(body));
        }
      }
    }

    method SourceElement() returns (r: Result<Option<Node>, ParseError>)
      requires Valid()
      modifies this
      ensures Valid() && Agrees(r, SourceElementAt(tokens, old(pos)), pos)
      decreases |tokens| - pos, 8
    {
      var t := Peek();
      if t == Some(Keyword("function")) {
        var _ := Advance();
        r := FunctionDeclaration();
      } else {
        r := Statement();
      }
    }

    method FunctionDeclaration() returns (r: Result<Option<Node>, ParseError>)
      requires Valid()
      modifies this
      ensures Valid() && Agrees(r, FunctionDeclarationAt(tokens, old(pos)), pos)
      decreases |tokens| - pos, 1
    {
      var id := Identifier();
      var params := ParameterList();
      if params.Err? {
        return Err(params.error);
      }
      var body := FunctionBody();
      if body.Err? {
        return Err(body.error);
      }
      r := Ok(Some(Node.FunctionDeclaration(id, params.value, body.value)));
    }

    method ParameterList() returns (r: Result<seq<Option<Node>>, ParseError>)
      requires Valid()
      modifies this
      ensures Valid() && Agrees(r, ParameterListAt(tokens, old(pos)), pos)
    {
      var t := Advance();
      if t != Some(Punctuator('(')) {
        return Err(Unexpected(t));
      }
      var params: seq<Option<Node>> := [];
      ghost var start := pos;
      while true
        invariant Valid() && start <= pos
        invariant ParamsAt(tokens, start, []) == ParamsAt(tokens, pos, params)
        decreases |tokens| - pos
      {
        var next := Peek();
        if next.None? {
          return Ok(params);
        }
        match next.value {
          case Punctuator(c) =>
            if c == ')' {
              var _ := Advance();
              return Ok(params);
            }
            if c == ',' {
              var _ := Advance();
            } else {
              return Err(Diverges);
            }
          case _ =>
            var id := Identifier();
            params := params + [id];
        }
      }
    }

    method FunctionBody() returns (r: Result<Option<Node>, ParseError>)
      requires Valid()
      modifies this
      ensures Valid() && Agrees(r, FunctionBodyAt(tokens, old(pos)), pos)
      decreases |tokens| - pos, 0
    {
      var t := Advance();
      if t != Some(Punctuator('{')) {
        return Err(Unexpected(t));
      }
      var body: seq<Option<Node>> := [];
      ghost var start := pos;
      while true
        invariant Valid() && start <= pos
        invariant BodyAt(tokens, start, []) == BodyAt(tokens, pos, body)
        decreases |tokens| - pos
      {
        var next := Peek();
        if next == Some(Punctuator('}')) {
          var _ := Advance();
          return Ok(Some(BlockStatement(body)));
        }
        // The source loops for ever when an element reads nothing; the model stops with `Diverges`.
        var here := pos;
        var element := SourceElement();
        if element.Err? {
          return Err(element.error);
        }
        if pos == here {
          return Err(Diverges);
        }
        body := body + [element.value];
      }
    }

    method Statement() returns (r: Result<Option<Node>, ParseError>)
      requires Valid()
      modifies this
      ensures Valid() && Agrees(r, StatementAt(tokens, old(pos)), pos)
      decreases |tokens| - pos, 7
    {
      var t := Peek();
      if t.None? {
        return Ok(None);
      }
      var node: Option<Node>;
      match t.value {
        case Keyword(k) =>
          if k == "var" {
            var _ := Advance();
            var d := VariableDeclaration();
            if d.Err? {
              return Err(d.error);
            }
            node := d.value;
          } else if k == "return" {
            var _ := Advance();
            var a := AssignmentExpression();
            if a.Err? {
              return Err(a.error);
            }
            node := Some(ReturnStatement(a.value));
          } else {
            node := None;
          }
        case _ =>
          var a := AssignmentExpression();
          if a.Err? {
            return Err(a.error);
          }
          node := Some(ExpressionStatement(a.value));
      }
      var semicolon := Peek();
      if semicolon == Some(Punctuator(';')) {
        var _ := Advance();
      }
      r := Ok(node);
    }

    method VariableDeclaration() returns (r: Result<Option<Node>, ParseError>)
      requires Valid()
      modifies this
      ensures Valid() && Agrees(r, VariableDeclarationAt(tokens, old(pos)), pos)
      decreases |tokens| - pos, 1
    {
      var ident := Identifier();
      var init := Initializer();
      if init.Err? {
        return Err(init.error);
      }
      r := Ok(Some(Node.VariableDeclaration([Some(VariableDeclarator(ident, init.value))])));
    }

    method Identifier() returns (r: Option<Node>)
      requires Valid()
      modifies this
      ensures Valid() && var p := IdentifierAt(tokens, old(pos)); r == p.value && pos == p.next
    {
      var t := Advance();
      if t.Some? && t.value.Identifier? {
        r := Some(Node.Identifier(t.value.name));
      } else {
        r := None;
      }
    }

    method Initializer() returns (r: Result<Option<Node>, ParseError>)
      requires Valid()
      modifies this
      ensures Valid() && Agrees(r, InitializerAt(tokens, old(pos)), pos)
      decreases |tokens| - pos, 0
    {
      var t := Advance();
      if t == Some(Punctuator('=')) {
        r := AssignmentExpression();
      } else {
        r := Ok(None);
      }
    }

    method AssignmentExpression() returns (r: Result<Option<Node>, ParseError>)
      requires Valid()
      modifies this
      ensures Valid() && Agrees(r, AssignmentAt(tokens, old(pos)), pos)
      decreases |tokens| - pos, 5
    {
      var expr := AdditiveExpression();
      if expr.Err? {
        return expr;
      }
      var t := Peek();
      if t == Some(Punctuator('=')) {
        var _ := Advance();
        var right := AssignmentExpression();
        if right.Err? {
          return right;
        }
        r := Ok(Some(Node.AssignmentExpression('=', expr.value, right.value)));
      } else {
        r := expr;
      }
    }

    method AdditiveExpression() returns (r: Result<Option<Node>, ParseError>)
      requires Valid()
      modifies this
      ensures Valid() && Agrees(r, AdditiveAt(tokens, old(pos)), pos)
      decreases |tokens| - pos, 4
    {
      var left := LeftHandSideExpression();
      if left.Err? {
        return left;
      }
      var t := Peek();
      if t.Some? && t.value.Punctuator? && (t.value.c == '+' || t.value.c == '-') {
        var _ := Advance();
        var right := AssignmentExpression();
        if right.Err? {
          return right;
        }
        r := Ok(Some(Node.AdditiveExpression(t.value.c, left.value, right.value)));
      } else {
        r := left;
      }
    }

    method LeftHandSideExpression() returns (r: Result<Option<Node>, ParseError>)
      requires Valid()
      modifies this
      ensures Valid() && Agrees(r, LhsAt(tokens, old(pos)), pos)
      decreases |tokens| - pos, 3
    {
      var expr := MemberExpression();
      var t := Peek();
      if t == Some(Punctuator('(')) {
        var _ := Advance();
        var args := Arguments();
        if args.Err? {
          return Err(args.error);
        }
        r := Ok(Some(CallExpression(expr, args.value)));
      } else {
        r := Ok(expr);
      }
    }

    method Arguments() returns (r: Result<seq<Option<Node>>, ParseError>)
      requires Valid()
      modifies this
      ensures Valid() && Agrees(r, ArgumentsAt(tokens, old(pos), []), pos)
      decreases |tokens| - pos, 6
    {
      var arguments: seq<Option<Node>> := [];
      ghost var start := pos;
      while true
        invariant Valid() && start <= pos
        invariant ArgumentsAt(tokens, start, []) == ArgumentsAt(tokens, pos, arguments)
        decreases |tokens| - pos
      {
        var next := Peek();
        if next.None? {
          return Ok(arguments);
        }
        match next.value {
          case Punctuator(c) =>
            if c == ')' {
              var _ := Advance();
              return Ok(arguments);
            }
            if c == ',' {
              var _ := Advance();
            } else {
              return Err(Diverges);
            }
          case _ =>
            var a := AssignmentExpression();
            if a.Err? {
              return Err(a.error);
            }
            arguments := arguments + [a.value];
        }
      }
    }

    method MemberExpression() returns (r: Option<Node>)
      requires Valid()
      modifies this
      ensures Valid() && var p := MemberAt(tokens, old(pos)); r == p.value && pos == p.next
    {
      var expr := PrimaryExpression();
      var t := Peek();
      if t == Some(Punctuator('.')) {
        var _ := Advance();
        var property := Identifier();
        r := Some(Node.MemberExpression(expr, property));
      } else {
        r := expr;
      }
    }

    method PrimaryExpression() returns (r: Option<Node>)
      requires Valid()
      modifies this
      ensures Valid() && var p := PrimaryAt(tokens, old(pos)); r == p.value && pos == p.next
    {
      var t := Advance();
      if t.None? {
        return None;
      }
      match t.value {
        case Number(value) => r := Some(NumericLiteral(value));
        case StringLiteral(value) => r := Some(Node.StringLiteral(value));
        case Identifier(name) => r := Some(Node.Identifier(name));
        case _ => r := None;
      }
    }
  }
}
