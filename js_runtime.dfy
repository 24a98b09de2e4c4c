/**
 * The JavaScript runtime (js/runtime.rs): values, the scoped variable environment and the
 * evaluator. `Eval` says what evaluating a node yields and how it changes the variables of the
 * runtime's scope; the classes `Environment` and `JsRuntime` do it in place and are proved to agree.
 */
module JsRuntime {
  import opened Wrappers
  import JsTokens
  import JsAst

  /** A value; a number is a `u64` (the lexer yields no larger ones, and arithmetic that leaves the range is an error below). */
  datatype RuntimeValue = Number(n: nat) | StringLiteral(s: string)

  /** A binding of a name to a value, or to nothing. */
  type Binding = (string, Option<RuntimeValue>)

  /**
   * Why evaluation stops: a node the evaluator does not handle (`unimplemented!`, or a variant
   * missing from its match), or `u64` arithmetic that leaves the range.
   */
  datatype EvalError = Unsupported | Overflow | Underflow

  // ---------------------------------------------------------------------------------------------
  // Values

  /** The decimal digits of `n`, as `format!("{}", n)` writes them. */
  function DecimalString(n: nat): (s: string)
    ensures |s| >= 1 && JsTokens.AllDigits(s)
    ensures s[0] == '0' ==> n == 0
    decreases n
  {
    var d := [(('0' as int) + n % 10) as char];
    if n < 10 then d else DecimalString(n / 10) + d
  }

  /** Reading back the digits gives the number: the display of a number round-trips through the lexer's digit value. */
  lemma {:induction false} DecimalStringRoundTrip(n: nat)
    ensures JsTokens.DigitsValue(DecimalString(n)) == n
    decreases n
  {
    var d := (('0' as int) + n % 10) as char;
    if n >= 10 {
      DecimalStringRoundTrip(n / 10);
      JsTokens.DigitsValueSnoc(DecimalString(n / 10), d);
    } else {
      assert DecimalString(n) == [] + [d];
      JsTokens.DigitsValueSnoc([], d);
    }
  }

  /** `Display`: a number as its decimal digits, a string as itself. */
  function Display(v: RuntimeValue): (s: string)
    ensures v.StringLiteral? ==> s == v.s
    ensures v.Number? ==> JsTokens.AllDigits(s) && |s| >= 1 && JsTokens.DigitsValue(s) == v.n
  {
    match v
    case Number(n) => DecimalStringRoundTrip(n); DecimalString(n)
    case StringLiteral(s) => s
  }

  /** `+`: the sum of two numbers; otherwise the two displays one after the other. */
  function Add(left: RuntimeValue, right: RuntimeValue): (r: Result<RuntimeValue, EvalError>)
    ensures r.Err? <==> left.Number? && right.Number? && left.n + right.n > JsTokens.U64_MAX
    ensures r.Err? ==> r.error == Overflow
    ensures r.Ok? && left.Number? && right.Number? ==>
      r.value.Number? && r.value.n <= JsTokens.U64_MAX && r.value.n - right.n == left.n
    ensures !(left.Number? && right.Number?) ==>
      r.Ok? && r.value.StringLiteral? && |r.value.s| == |Display(left)| + |Display(right)| &&
      r.value.s[..|Display(left)|] == Display(left) && r.value.s[|Display(left)|..] == Display(right)
  {
    if left.Number? && right.Number? then
      if left.n + right.n > JsTokens.U64_MAX then Err(Overflow) else Ok(Number(left.n + right.n))
    else Ok(StringLiteral(Display(left) + Display(right)))
  }

  /** `-`: the difference of two numbers; any string operand gives the number `u64::MIN`. */
  function Sub(left: RuntimeValue, right: RuntimeValue): (r: Result<RuntimeValue, EvalError>)
    ensures r.Err? <==> left.Number? && right.Number? && left.n < right.n
    ensures r.Err? ==> r.error == Underflow
    ensures r.Ok? && left.Number? && right.Number? ==> r.value.Number? && r.value.n + right.n == left.n
    ensures !(left.Number? && right.Number?) ==> r == Ok(Number(0))
  {
    if left.Number? && right.Number? then
      if left.n < right.n then Err(Underflow) else Ok(Number(left.n - right.n))
    else Ok(Number(0))
  }

  /** Adding wraps nothing: a sum of numbers, when it exists, gives back its left operand under subtraction. */
  lemma AddSubInverse(a: nat, b: nat)
    requires a + b <= JsTokens.U64_MAX
    ensures Add(Number(a), Number(b)) == Ok(Number(a + b))
    ensures Sub(Number(a + b), Number(b)) == Ok(Number(a))
  {
  }

  /** Subtracting never leaves the range, and adding back what was taken restores the left operand. */
  lemma SubAddInverse(a: nat, b: nat)
    requires b <= a <= JsTokens.U64_MAX
    ensures Sub(Number(a), Number(b)) == Ok(Number(a - b))
    ensures Add(Number(a - b), Number(b)) == Ok(Number(a))
  {
  }

  // ---------------------------------------------------------------------------------------------
  // The variables of one scope

  /** The position of the first binding of `name`, the one the `for` loops of the source stop at. */
  function FirstIndex(vars: seq<Binding>, name: string): (r: Option<nat>)
    ensures r.None? <==> forall j :: 0 <= j < |vars| ==> vars[j].0 != name
    ensures r.Some? ==> r.value < |vars| && vars[r.value].0 == name && forall j :: 0 <= j < r.value ==> vars[j].0 != name
  {
    if |vars| == 0 then None
    else if vars[0].0 == name then Some(0)
    else match FirstIndex(vars[1..], name)
      case None => None
      case Some(k) => Some(k + 1)
  }

  /** The value of the first binding of `name` in one scope, when there is one (itself maybe nothing). */
  function Lookup(vars: seq<Binding>, name: string): Option<Option<RuntimeValue>>
  {
    match FirstIndex(vars, name)
    case None => None
    case Some(i) => Some(vars[i].1)
  }

  /** What `get_variable` gives in a scope without an outer one. */
  function ValueOf(vars: seq<Binding>, name: string): Option<RuntimeValue>
  {
    match Lookup(vars, name)
    case None => None
    case Some(v) => v
  }

  /** Looking a name up in two scopes laid end to end: the first one that binds it decides. */
  lemma LookupAppend(a: seq<Binding>, b: seq<Binding>, name: string)
    ensures Lookup(a + b, name) == if Lookup(a, name).Some? then Lookup(a, name) else Lookup(b, name)
  {
    var ab := a + b;
    match FirstIndex(a, name)
    case Some(i) =>
      assert ab[i] == a[i];
      assert forall j :: 0 <= j < i ==> ab[j] == a[j];
      assert FirstIndex(ab, name) == Some(i);
    case None =>
      match FirstIndex(b, name)
      case Some(k) =>
        assert ab[|a| + k] == b[k];
        assert forall j :: |a| <= j < |a| + k ==> ab[j] == b[j - |a|];
        assert FirstIndex(ab, name) == Some(|a| + k);
      case None =>
        assert forall j :: |a| <= j < |ab| ==> ab[j] == b[j - |a|];
  }

  /** `update_variable`: the first binding of `name` is removed and the new one appended; without one, nothing changes. */
  function UpdatedVars(vars: seq<Binding>, name: string, value: Option<RuntimeValue>): (r: seq<Binding>)
    ensures |r| == |vars|
  {
    match FirstIndex(vars, name)
    case None => vars
    case Some(i) => vars[..i] + vars[i + 1..] + [(name, value)]
  }

  /** An update leaves every other name as it was. */
  lemma UpdateLeavesOthers(vars: seq<Binding>, name: string, value: Option<RuntimeValue>, other: string)
    requires other != name
    ensures Lookup(UpdatedVars(vars, name, value), other) == Lookup(vars, other)
  {
    match FirstIndex(vars, name)
    case None =>
    case Some(i) =>
      assert vars == vars[..i] + [vars[i]] + vars[i + 1..];
      LookupAppend(vars[..i] + [vars[i]], vars[i + 1..], other);
      LookupAppend(vars[..i], [vars[i]], other);
      LookupAppend(vars[..i] + vars[i + 1..], [(name, value)], other);
      LookupAppend(vars[..i], vars[i + 1..], other);
      assert FirstIndex([vars[i]], other).None?;
      assert FirstIndex([(name, value)], other).None?;
  }

  /** A name bound once reads back the value it was updated to; a name not bound in the scope stays unbound. */
  lemma UpdateReadBack(vars: seq<Binding>, name: string, value: Option<RuntimeValue>)
    requires forall i, j :: 0 <= i < j < |vars| && vars[i].0 == name ==> vars[j].0 != name
    ensures Lookup(vars, name).Some? ==> Lookup(UpdatedVars(vars, name, value), name) == Some(value)
    ensures Lookup(vars, name).None? ==> UpdatedVars(vars, name, value) == vars
  {
    match FirstIndex(vars, name)
    case None =>
    case Some(i) =>
      var before, after := vars[..i], vars[i + 1..];
      assert FirstIndex(before, name).None?;
      assert forall j :: 0 <= j < |after| ==> after[j] == vars[i + 1 + j];
      assert FirstIndex(after, name).None?;
      LookupAppend(before, after, name);
      LookupAppend(before + after, [(name, value)], name);
      assert FirstIndex([(name, value)], name) == Some(0);
  }

  /**
   * What a name reads after an update, duplicates included: the first binding is gone, so a
   * second binding of the name, when there is one, now answers, and the new value only when there is none.
   */
  lemma UpdateReadsNextBinding(vars: seq<Binding>, name: string, value: Option<RuntimeValue>)
    requires FirstIndex(vars, name).Some?
    ensures Lookup(UpdatedVars(vars, name, value), name)
      == if Lookup(vars[FirstIndex(vars, name).value + 1..], name).Some? then Lookup(vars[FirstIndex(vars, name).value + 1..], name)
         else Some(value)
  {
    var i := FirstIndex(vars, name).value;
    var before, after := vars[..i], vars[i + 1..];
    assert FirstIndex(before, name).None?;
    LookupAppend(before, after, name);
    LookupAppend(before + after, [(name, value)], name);
    assert FirstIndex([(name, value)], name) == Some(0);
  }

  /** `add_variable` allows duplicates: a new binding is read back only when the name had none before. */
  lemma AddedReadBack(vars: seq<Binding>, name: string, value: Option<RuntimeValue>)
    ensures Lookup(vars + [(name, value)], name) == if Lookup(vars, name).Some? then Lookup(vars, name) else Some(value)
  {
    LookupAppend(vars, [(name, value)], name);
    assert FirstIndex([(name, value)], name) == Some(0);
  }

  /** No binding is ever removed: every name `before` binds, `after` binds too. */
  ghost predicate KeepsNames(before: seq<Binding>, after: seq<Binding>)
  {
    forall name :: Lookup(before, name).Some? ==> Lookup(after, name).Some?
  }

  /** `update_variable` rebinds a name and never drops one. */
  lemma UpdateKeepsNames(vars: seq<Binding>, name: string, value: Option<RuntimeValue>)
    ensures KeepsNames(vars, UpdatedVars(vars, name, value))
  {
    forall x | Lookup(vars, x).Some? ensures Lookup(UpdatedVars(vars, name, value), x).Some? {
      if x != name {
        UpdateLeavesOthers(vars, name, value, x);
      } else {
        var i := FirstIndex(vars, name).value;
        LookupAppend(vars[..i] + vars[i + 1..], [(name, value)], name);
        assert FirstIndex([(name, value)], name) == Some(0);
      }
    }
  }

  /** `add_variable` keeps every earlier binding visible by name. */
  lemma AddKeepsNames(vars: seq<Binding>, b: Binding)
    ensures KeepsNames(vars, vars + [b])
  {
    forall x | Lookup(vars, x).Some? ensures Lookup(vars + [b], x).Some? {
      LookupAppend(vars, [b], x);
    }
  }

  // ---------------------------------------------------------------------------------------------
  // Scopes

  /** A scope: its variables, in the order they were added, and the scope around it. */
  class Environment {
    var variables: seq<Binding>
    const outer: Option<Environment>
    ghost var Repr: set<object>
    ghost const depth: nat

    ghost predicate Valid()
      reads this, Repr
      decreases depth
    {
      this in Repr &&
      match outer
      case None => true
      case Some(o) => o in Repr && o.Repr <= Repr && this !in o.Repr && o.depth < depth && o.Valid()
    }

    /** `Environment::new`: an empty scope inside `outer`. */
    constructor(outer: Option<Environment>)
      requires outer.Some? ==> outer.value.Valid()
      ensures Valid() && fresh(Repr - (if outer.Some? then outer.value.Repr else {}))
      ensures variables == [] && this.outer == outer
    {
      variables := [];
      this.outer := outer;
      depth := if outer.Some? then outer.value.depth + 1 else 0;
      new;
      Repr := {this} + (if outer.Some? then outer.value.Repr else {});
    }

    /** Every binding visible from this scope, innermost scope first. */
    ghost function Visible(): seq<Binding>
      requires Valid()
      reads Repr
      decreases depth
    {
      variables + (if outer.Some? then outer.value.Visible() else [])
    }

    /** `get_variable`: the first binding of `name` in this scope, even one to nothing; without one, the outer scope's answer. */
    function GetVariable(name: string): (r: Option<RuntimeValue>)
      requires Valid()
      reads Repr
      ensures outer.None? ==> r == ValueOf(variables, name)
      ensures Lookup(variables, name).Some? ==> r == ValueOf(variables, name)
      decreases depth
    {
      match Lookup(variables, name)
      case Some(v) => v
      case None => if outer.Some? then outer.value.GetVariable(name) else None
    }

    /** The scope chain reads like one list of bindings, innermost first. */
    lemma {:induction false} GetVariableIsVisibleLookup(name: string)
      requires Valid()
      ensures GetVariable(name) == ValueOf(Visible(), name)
      decreases depth
    {
      var rest := if outer.Some? then outer.value.Visible() else [];
      LookupAppend(variables, rest, name);
      if outer.Some? {
        outer.value.GetVariableIsVisibleLookup(name);
      } else {
        assert FirstIndex(rest, name).None?;
      }
    }

    /** `add_variable` */
    method AddVariable(name: string, value: Option<RuntimeValue>)
      requires Valid()
      modifies this
      ensures Valid() && variables == old(variables) + [(name, value)]
    {
      variables := variables + [(name, value)];
    }

    /** `update_variable`: searches this scope only. */
    method UpdateVariable(name: string, value: Option<RuntimeValue>)
      requires Valid()
      modifies this
      ensures Valid() && variables == UpdatedVars(old(variables), name, value)
    {
      for i := 0 to |variables|
        invariant variables == old(variables)
        invariant forall j :: 0 <= j < i ==> variables[j].0 != name
      {
        if variables[i].0 == name {
          assert FirstIndex(variables, name) == Some(i);
          variables := variables[..i] + variables[i + 1..] + [(name, value)];
          return;
        }
      }
    }

    /** `num_variables` */
    function NumVariables(): (n: nat)
      reads this
      ensures n == |variables|
    {
      |variables|
    }
  }

  // ---------------------------------------------------------------------------------------------
  // Evaluation

  /** A node's value and the variables of the scope after evaluating it. */
  datatype Evaluated = Evaluated(value: Option<RuntimeValue>, vars: seq<Binding>)

  /**
   * `eval` in the runtime's own scope `vars` (one with no outer scope): the value of the node and
   * the bindings it adds (`var`) or updates (`=`).
   */
  function Evaluate(node: Option<JsAst.Node>, vars: seq<Binding>): (r: Result<Evaluated, EvalError>)
    ensures r.Ok? ==> KeepsNames(vars, r.value.vars)
    decreases node, 1
  {
    match node
    case None => Ok(Evaluated(None, vars))
    case Some(n) =>
      match n
      case ExpressionStatement(expression) => Evaluate(expression, vars)
      case AdditiveExpression(operator, left, right) =>
        var l :- Evaluate(left, vars);
        if l.value.None? then Ok(Evaluated(None, l.vars))
        else
          var r :- Evaluate(right, l.vars);
          if r.value.None? then Ok(Evaluated(None, r.vars))
          else if operator == '+' then
            var v :- Add(l.value.value, r.value.value);
            Ok(Evaluated(Some(v), r.vars))
          else if operator == '-' then
            var v :- Sub(l.value.value, r.value.value);
            Ok(Evaluated(Some(v), r.vars))
          else Ok(Evaluated(None, r.vars))
      case AssignmentExpression(operator, left, right) =>
        if operator != '=' then Ok(Evaluated(None, vars))
        else if left.Some? && left.value.Identifier? then
          var r :- Evaluate(right, vars);
          UpdateKeepsNames(r.vars, left.value.name, r.value);
          Ok(Evaluated(None, UpdatedVars(r.vars, left.value.name, r.value)))
        else Ok(Evaluated(None, vars))
      case MemberExpression(_, _) => Err(Unsupported)
      case NumericLiteral(value) => Ok(Evaluated(Some(Number(value)), vars))
      case VariableDeclaration(declarations) =>
        var after :- EvaluateDeclarations(declarations, vars);
        Ok(Evaluated(None, after))
      case VariableDeclarator(id, init) =>
        if id.Some? && id.value.Identifier? then
          var i :- Evaluate(init, vars);
          AddKeepsNames(i.vars, (id.value.name, i.value));
          Ok(Evaluated(None, i.vars + [(id.value.name, i.value)]))
        else Ok(Evaluated(None, vars))
      case Identifier(name) =>
        var v := ValueOf(vars, name);
        Ok(Evaluated(Some(if v.Some? then v.value else StringLiteral(name)), vars))
      case StringLiteral(value) => Ok(Evaluated(Some(StringLiteral(value)), vars))
      case _ => Err(Unsupported)
  }

  /** The `for` loop over the declarators of a declaration, each evaluated in turn. */
  function EvaluateDeclarations(declarations: seq<Option<JsAst.Node>>, vars: seq<Binding>): (r: Result<seq<Binding>, EvalError>)
    ensures r.Ok? ==> KeepsNames(vars, r.value)
    decreases declarations, 0
  {
    if |declarations| == 0 then Ok(vars)
    else
      var first :- Evaluate(declarations[0], vars);
      EvaluateDeclarations(declarations[1..], first.vars)
  }

  /** `execute`: every element of the program in turn, their values dropped. */
  function ExecuteAll(body: seq<JsAst.Node>, vars: seq<Binding>): (r: Result<seq<Binding>, EvalError>)
    ensures r.Ok? ==> KeepsNames(vars, r.value)
  {
    if |body| == 0 then Ok(vars)
    else
      var first :- Evaluate(Some(body[0]), vars);
      ExecuteAll(body[1..], first.vars)
  }

  /** Expressions the evaluator reads without assigning leave the scope as it was. */
  predicate PureExpression(node: Option<JsAst.Node>)
  {
    match node
    case None => true
    case Some(n) =>
      match n
      case ExpressionStatement(e) => PureExpression(e)
      case AdditiveExpression(_, l, r) => PureExpression(l) && PureExpression(r)
      case NumericLiteral(_) => true
      case Identifier(_) => true
      case StringLiteral(_) => true
      case _ => false
  }

  lemma {:induction false} PureExpressionKeepsScope(node: Option<JsAst.Node>, vars: seq<Binding>)
    requires PureExpression(node)
    ensures Evaluate(node, vars).Ok? ==> Evaluate(node, vars).value.vars == vars
    decreases node
  {
    match node
    case None =>
    case Some(n) =>
      match n
      case ExpressionStatement(e) => PureExpressionKeepsScope(e, vars);
      case AdditiveExpression(_, l, r) =>
        PureExpressionKeepsScope(l, vars);
        PureExpressionKeepsScope(r, vars);
      case NumericLiteral(_) =>
      case Identifier(_) =>
      case StringLiteral(_) =>
  }

  /** An identifier reads its first binding, and a name with no value stands for itself, as a string. */
  lemma IdentifierValue(name: string, vars: seq<Binding>)
    ensures Evaluate(Some(JsAst.Node.Identifier(name)), vars)
      == Ok(Evaluated(Some(if ValueOf(vars, name).Some? then ValueOf(vars, name).value else StringLiteral(name)), vars))
  {
  }

  // ---------------------------------------------------------------------------------------------
  // The runtime

  class JsRuntime {
    /** The runtime's one scope, created without an outer scope. */
    const env: Environment

    ghost predicate Valid()
      reads this, env, env.Repr
    {
      env.Valid() && env.outer.None?
    }

    /** `JsRuntime::new` */
    constructor()
      ensures Valid() && fresh(env) && fresh(env.Repr) && env.variables == []
    {
      env := new Environment(None);
    }

    /** `eval` */
    method Eval(node: Option<JsAst.Node>) returns (r: Result<Option<RuntimeValue>, EvalError>)
      requires Valid()
      modifies env
      ensures Valid()
      ensures match Evaluate(node, old(env.variables))
        case Ok(e) => r == Ok(e.value) && env.variables == e.vars
        case Err(x) => r == Err(x)
      decreases node, 1
    {
      if node.None? {
        return Ok(None);
      }
      match node.value {
        case ExpressionStatement(expression) =>
          r := Eval(expression);
        case AdditiveExpression(operator, left, right) =>
          var l := Eval(left);
          if l.Err? {
            return Err(l.error);
          }
          if l.value.None? {
            return Ok(None);
          }
          var rv := Eval(right);
          if rv.Err? {
            return Err(rv.error);
          }
          if rv.value.None? {
            return Ok(None);
          }
          if operator == '+' {
            var v := Add(l.value.value, rv.value.value);
            if v.Err? {
              return Err(v.error);
            }
            r := Ok(Some(v.value));
          } else if operator == '-' {
            var v := Sub(l.value.value, rv.value.value);
            if v.Err? {
              return Err(v.error);
            }
            r := Ok(Some(v.value));
          } else {
            r := Ok(None);
          }
        case AssignmentExpression(operator, left, right) =>
          if operator != '=' {
            return Ok(None);
          }
          if left.Some? && left.value.Identifier? {
            var newValue := Eval(right);
            if newValue.Err? {
              return Err(newValue.error);
            }
            env.UpdateVariable(left.value.name, newValue.value);
          }
          r := Ok(None);
        case MemberExpression(_, _) =>
          r := Err(Unsupported);
        case NumericLiteral(value) =>
          r := Ok(Some(Number(value)));
        case VariableDeclaration(declarations) =>
          var done := EvalDeclarations(declarations);
          if done.Err? {
            return Err(done.error);
          }
          r := Ok(None);
        case VariableDeclarator(id, init) =>
          if id.Some? && id.value.Identifier? {
            var value := Eval(init);
            if value.Err? {
              return Err(value.error);
            }
            env.AddVariable(id.value.name, value.value);
          }
          r := Ok(None);
        case Identifier(name) =>
          var v := env.GetVariable(name);
          if v.Some? {
            r := Ok(v);
          } else {
            r := Ok(Some(StringLiteral(name)));
          }
        case StringLiteral(value) =>
          r := Ok(Some(StringLiteral(value)));
        case _ =>
          r := Err(Unsupported);
      }
    }

    /** The `for dec in declarations` loop of `eval`. */
    method EvalDeclarations(declarations: seq<Option<JsAst.Node>>) returns (r: Result<(), EvalError>)
      requires Valid()
      modifies env
      ensures Valid()
      ensures match EvaluateDeclarations(declarations, old(env.variables))
        case Ok(vars) => r.Ok? && env.variables == vars
        case Err(x) => r == Err(x)
      decreases declarations, 0
    {
      for i := 0 to |declarations|
        invariant Valid()
        invariant EvaluateDeclarations(declarations, old(env.variables)) == EvaluateDeclarations(declarations[i..], env.variables)
      {
        assert declarations[i..][1..] == declarations[i + 1..];
        var d := Eval(declarations[i]);
        if d.Err? {
          return Err(d.error);
        }
      }
      r := Ok(());
    }

    /** `execute` */
    method Execute(program: JsAst.Program) returns (r: Result<(), EvalError>)
      requires Valid()
      modifies env
      ensures Valid()
      ensures match ExecuteAll(program.body, old(env.variables))
        case Ok(vars) => r.Ok? && env.variables == vars
        case Err(x) => r == Err(x)
    {
      var body := program.body;
      for i := 0 to |body|
        invariant Valid()
        invariant ExecuteAll(body, old(env.variables)) == ExecuteAll(body[i..], env.variables)
      {
        assert body[i..][1..] == body[i + 1..];
        var d := Eval(Some(body[i]));
        if d.Err? {
          return Err(d.error);
        }
      }
      r := Ok(());
    }
  }
}
