/**
 * The CSS parser (css/parser.rs): rules, selectors and declarations read from a peekable token
 * stream, following a small part of the parser algorithms of section 5.4 of CSS Syntax Module
 * Level 3. The functions below say what each `consume_*` step reads and returns; the class
 * `CssParser` performs the same steps on a cursor and is proved to agree with them.
 */
module CssParser {
  import opened Wrappers
  import opened CssTokens
  import opened Cssom

  /**
   * Why a parse stops without a style sheet: a panic on a missing or unexpected token, the
   * slice of an empty hash token, a skip loop that would spin for ever at the end of the stream,
   * or a failure of the tokenizer feeding the parser.
   */
  datatype ParseError =
    | MissingToken
    | UnexpectedToken(token: CssToken)
    | EmptyHash
    | Diverges
    | Lex(error: LexError)

  /** A parsed value and the stream position after it. */
  datatype Parsed<+T> = Parsed(value: T, next: nat)

  /** `xs` in front of a parsed list; errors pass through. */
  function Prefixed<T>(xs: seq<T>, r: Result<Parsed<seq<T>>, ParseError>): (p: Result<Parsed<seq<T>>, ParseError>)
    ensures xs == [] ==> p == r
  {
    assert r.Ok? ==> xs + r.value.value == r.value.value || xs != [];
    match r
    case Ok(p) => Ok(Parsed(xs + p.value, p.next))
    case Err(e) => Err(e)
  }

  // ---------------------------------------------------------------------------------------------
  // What each step reads

  /** The skip loop `while peek != Some({) { next }`: the first `{` from `pos`, which it leaves unread. */
  function SkipToBlock(tokens: seq<CssToken>, pos: nat): (r: Result<nat, ParseError>)
    requires pos <= |tokens|
    ensures r.Ok? ==> pos <= r.value < |tokens| && tokens[r.value] == OpenCurly
    ensures r.Ok? ==> forall m :: pos <= m < r.value ==> tokens[m] != OpenCurly
    ensures r.Err? <==> forall m :: pos <= m < |tokens| ==> tokens[m] != OpenCurly
    ensures r.Err? ==> r.error == Diverges
    decreases |tokens| - pos
  {
    if pos == |tokens| then Err(Diverges)
    else if tokens[pos] == OpenCurly then Ok(pos)
    else SkipToBlock(tokens, pos + 1)
  }

  /** `consume_ident`: the next token must be an identifier; it panics otherwise. */
  function IdentAt(tokens: seq<CssToken>, pos: nat): (r: Result<Parsed<string>, ParseError>)
    requires pos <= |tokens|
    ensures r.Ok? <==> pos < |tokens| && tokens[pos].Ident?
    ensures r.Ok? ==> r.value == Parsed(tokens[pos].ident, pos + 1)
    ensures r.Err? ==> r.error == (if pos == |tokens| then MissingToken else UnexpectedToken(tokens[pos]))
  {
    if pos == |tokens| then Err(MissingToken)
    else
      var t := tokens[pos];
      if t.Ident? then Ok(Parsed(t.ident, pos + 1)) else Err(UnexpectedToken(t))
  }

  /**
   * `consume_selector` on the token at `pos`: `#id`, `.class`, a tag name (with a pseudo-class
   * skipped up to the block), or an unknown selector.
   */
  function SelectorAt(tokens: seq<CssToken>, pos: nat): (r: Result<Parsed<Selector>, ParseError>)
    requires pos < |tokens|
    ensures r.Ok? ==> pos < r.value.next <= |tokens|
    // `#id` keeps what follows the sign.
    ensures tokens[pos].HashToken? ==>
      r == (if |tokens[pos].hash| == 0 then Err(EmptyHash) else Ok(Parsed(IdSelector(tokens[pos].hash[1..]), pos + 1)))
    // `.` must be followed by an identifier, the class name; any other delimiter is an error.
    ensures tokens[pos].Delim? && tokens[pos].delim == '.' ==>
      if pos + 1 < |tokens| && tokens[pos + 1].Ident? then r == Ok(Parsed(ClassSelector(tokens[pos + 1].ident), pos + 2))
      else r.Err?
    ensures tokens[pos].Delim? && tokens[pos].delim != '.' ==> r == Err(UnexpectedToken(tokens[pos]))
    // A tag name is a type selector; after `tag:` every token up to the block is skipped.
    ensures tokens[pos].Ident? && !(pos + 1 < |tokens| && tokens[pos + 1] == Colon) ==>
      r == Ok(Parsed(TypeSelector(tokens[pos].ident), pos + 1))
    ensures tokens[pos].Ident? && pos + 1 < |tokens| && tokens[pos + 1] == Colon ==>
      (r.Ok? ==> r.value.value == TypeSelector(tokens[pos].ident) && r.value.next < |tokens| && tokens[r.value.next] == OpenCurly) &&
      (r.Err? <==> forall m :: pos < m < |tokens| ==> tokens[m] != OpenCurly)
    // An at-keyword is unknown and skips up to the block.
    ensures tokens[pos].AtKeyword? ==>
      (r.Ok? ==> r.value.value == UnknownSelector && r.value.next < |tokens| && tokens[r.value.next] == OpenCurly) &&
      (r.Err? <==> forall m :: pos < m < |tokens| ==> tokens[m] != OpenCurly)
    // Any other token is unknown and takes the following token with it.
    ensures !(tokens[pos].HashToken? || tokens[pos].Delim? || tokens[pos].Ident? || tokens[pos].AtKeyword?) ==>
      r == Ok(Parsed(UnknownSelector, if pos + 1 < |tokens| then pos + 2 else pos + 1))
  {
    var t := tokens[pos];
    if t.HashToken? then
      if |t.hash| == 0 then Err(EmptyHash) else Ok(Parsed(IdSelector(t.hash[1..]), pos + 1))
    else if t.Delim? then
      if t.delim == '.' then
        var name :- IdentAt(tokens, pos + 1);
        Ok(Parsed(ClassSelector(name.value), name.next))
      else Err(UnexpectedToken(t))
    else if t.Ident? then
      if pos + 1 < |tokens| && tokens[pos + 1] == Colon then
        var e :- SkipToBlock(tokens, pos + 1);
        Ok(Parsed(TypeSelector(t.ident), e))
      else Ok(Parsed(TypeSelector(t.ident), pos + 1))
    else if t.AtKeyword? then
      var e :- SkipToBlock(tokens, pos + 1);
      Ok(Parsed(UnknownSelector, e))
    else Ok(Parsed(UnknownSelector, if pos + 1 < |tokens| then pos + 2 else pos + 1))
  }

  /** The declaration `property: value` read at `j`. */
  predicate DeclaredAt(tokens: seq<CssToken>, j: nat, d: Declaration)
  {
    j + 2 < |tokens| && tokens[j] == Ident(d.property) && tokens[j + 1] == Colon && tokens[j + 2] == d.value
  }

  /** Declaration `d` was read from tokens in `[from, to)`. */
  predicate DeclaredIn(tokens: seq<CssToken>, from: nat, to: nat, d: Declaration)
  {
    exists j: nat :: from <= j && j + 3 <= to && DeclaredAt(tokens, j, d)
  }

  /** Every declaration of `ds` was read from tokens in `[from, to)`. */
  predicate DeclaredWithin(tokens: seq<CssToken>, from: nat, to: nat, ds: seq<Declaration>)
  {
    forall k :: 0 <= k < |ds| ==> DeclaredIn(tokens, from, to, ds[k])
  }

  lemma DeclaredWithinWiden(tokens: seq<CssToken>, from: nat, from': nat, to: nat, ds: seq<Declaration>)
    requires from <= from' && DeclaredWithin(tokens, from', to, ds)
    ensures DeclaredWithin(tokens, from, to, ds)
  {
    forall k | 0 <= k < |ds| ensures DeclaredIn(tokens, from, to, ds[k]) {
      assert DeclaredIn(tokens, from', to, ds[k]);
    }
  }

  /**
   * `consume_declaration`: property, colon, one token of value. A missing colon drops the
   * declaration together with the token read in its place; a missing value is a panic.
   */
  function DeclarationAt(tokens: seq<CssToken>, pos: nat): (r: Result<Parsed<Option<Declaration>>, ParseError>)
    requires pos <= |tokens|
    ensures r.Ok? ==> pos <= r.value.next <= |tokens| && (pos < |tokens| ==> pos < r.value.next)
    ensures r.Ok? && r.value.value.Some? <==> pos + 2 < |tokens| && tokens[pos].Ident? && tokens[pos + 1] == Colon
    ensures r.Ok? && r.value.value.Some? ==> DeclaredAt(tokens, pos, r.value.value.value) && r.value.next == pos + 3
    ensures r.Err? <==> pos < |tokens| && (!tokens[pos].Ident? || (pos + 2 == |tokens| && tokens[pos + 1] == Colon))
  {
    if pos == |tokens| then Ok(Parsed(None, pos))
    else
      var property :- IdentAt(tokens, pos);
      var p := property.next;
      if p == |tokens| then Ok(Parsed(None, p))
      else if tokens[p] != Colon then Ok(Parsed(None, p + 1))
      else if p + 1 == |tokens| then Err(MissingToken)
      else Ok(Parsed(Some(NewDeclaration().SetProperty(property.value).SetValue(tokens[p + 1])), p + 2))
  }

  /**
   * `consume_list_of_declarations` after `{`: declarations up to the closing `}` or the end of the
   * stream; `;` and any token that cannot start a declaration are skipped.
   */
  function DeclarationsAt(tokens: seq<CssToken>, pos: nat): (r: Result<Parsed<seq<Declaration>>, ParseError>)
    requires pos <= |tokens|
    ensures r.Ok? ==> pos <= r.value.next <= |tokens|
    ensures r.Ok? ==> r.value.next == |tokens| || (pos < r.value.next && tokens[r.value.next - 1] == CloseCurly)
    ensures r.Ok? ==> DeclaredWithin(tokens, pos, r.value.next, r.value.value)
    decreases |tokens| - pos
  {
    if pos == |tokens| then Ok(Parsed([], pos))
    else
      var t := tokens[pos];
      if t == CloseCurly then Ok(Parsed([], pos + 1))
      else if t.Ident? then
        var d :- DeclarationAt(tokens, pos);
        var rest := DeclarationsAt(tokens, d.next);
        var here := if d.value.Some? then [d.value.value] else [];
        Prefixed(here, rest)
      else
        var rest := DeclarationsAt(tokens, pos + 1);
        if rest.Ok? then
          DeclaredWithinWiden(tokens, pos, pos + 1, rest.value.next, rest.value.value);
          rest
        else rest
  }

  /**
   * `consume_qualified_rule` with `rule` built so far: selectors overwrite one another up to `{`,
   * then the declaration block completes the rule. The end of the stream gives no rule.
   */
  function QualifiedRuleAt(tokens: seq<CssToken>, pos: nat, rule: QualifiedRule): (r: Result<Parsed<Option<QualifiedRule>>, ParseError>)
    requires pos <= |tokens|
    ensures r.Ok? ==> pos <= r.value.next <= |tokens| && (pos < |tokens| ==> pos < r.value.next)
    ensures r.Ok? && r.value.value.None? ==> r.value.next == |tokens|
    decreases |tokens| - pos
  {
    if pos == |tokens| then Ok(Parsed(None, pos))
    else if tokens[pos] == OpenCurly then
      var ds :- DeclarationsAt(tokens, pos + 1);
      Ok(Parsed(Some(rule.SetDeclarations(ds.value)), ds.next))
    else
      var s :- SelectorAt(tokens, pos);
      QualifiedRuleAt(tokens, s.next, rule.SetSelector(s.value))
  }

  /**
   * `consume_list_of_rules`: rules in source order up to the end of the stream. A rule that starts
   * with an at-keyword is read and dropped.
   */
  function RulesAt(tokens: seq<CssToken>, pos: nat): (r: Result<Parsed<seq<QualifiedRule>>, ParseError>)
    requires pos <= |tokens|
    ensures r.Ok? ==> r.value.next == |tokens|
    decreases |tokens| - pos
  {
    if pos == |tokens| then Ok(Parsed([], pos))
    else
      var q :- QualifiedRuleAt(tokens, pos, NewQualifiedRule());
      if tokens[pos].AtKeyword? then RulesAt(tokens, q.next)
      else if q.value.None? then Ok(Parsed([], q.next))
      else Prefixed([q.value.value], RulesAt(tokens, q.next))
  }

  /** `parse_stylesheet` over the whole token stream. */
  function Stylesheet(tokens: seq<CssToken>): (r: Result<StyleSheet, ParseError>)
    ensures tokens == [] ==> r == Ok(NewStyleSheet())
    ensures r.Ok? <==> RulesAt(tokens, 0).Ok?
  {
    var rules :- RulesAt(tokens, 0);
    Ok(NewStyleSheet().SetRules(rules.value))
  }

  /** Tokenizing then parsing a style sheet. */
  function ParseCss(css: string): (r: Result<StyleSheet, ParseError>)
    ensures (forall i :: 0 <= i < |css| ==> IsSpace(css[i])) ==> r == Ok(NewStyleSheet())
  {
    match Tokenize(css, 0)
    case Err(e) => Err(Lex(e))
    case Ok(tokens) => Stylesheet(tokens)
  }

  // ---------------------------------------------------------------------------------------------
  // Properties

  /** Once a selector token is read before `{`, the selector the rule had before does not matter: the last selector wins. */
  lemma SelectorOverwritten(tokens: seq<CssToken>, pos: nat, r1: QualifiedRule, r2: QualifiedRule)
    requires pos < |tokens| && tokens[pos] != OpenCurly && r1.declarations == r2.declarations
    ensures QualifiedRuleAt(tokens, pos, r1) == QualifiedRuleAt(tokens, pos, r2)
  {
    var s := SelectorAt(tokens, pos);
    if s.Ok? {
      assert r1.SetSelector(s.value.value) == r2.SetSelector(s.value.value);
    }
  }

  /** A selector read right before `{` is the rule's selector, and the block supplies its declarations. */
  lemma SelectorThenBlock(tokens: seq<CssToken>, pos: nat, rule: QualifiedRule, s: Selector, n: nat, ds: seq<Declaration>, m: nat)
    requires pos < |tokens| && tokens[pos] != OpenCurly
    requires SelectorAt(tokens, pos) == Ok(Parsed(s, n)) && n < |tokens| && tokens[n] == OpenCurly
    requires DeclarationsAt(tokens, n + 1) == Ok(Parsed(ds, m))
    ensures QualifiedRuleAt(tokens, pos, rule) == Ok(Parsed(Some(QualifiedRule(s, ds)), m))
  {
    assert QualifiedRuleAt(tokens, pos, rule) == QualifiedRuleAt(tokens, n, rule.SetSelector(s));
  }

  /** `property: value` at the cursor is read as one declaration in front of the rest of the block. */
  lemma DeclarationThenRest(tokens: seq<CssToken>, pos: nat, d: Declaration, ds: seq<Declaration>, m: nat)
    requires DeclaredAt(tokens, pos, d) && DeclarationsAt(tokens, pos + 3) == Ok(Parsed(ds, m))
    ensures DeclarationsAt(tokens, pos) == Ok(Parsed([d] + ds, m))
  {
    assert DeclarationAt(tokens, pos) == Ok(Parsed(Some(d), pos + 3));
  }

  /** The tokens of a block body `p1: v1; p2: v2; …` written out from its declarations. */
  function DeclarationTokens(ds: seq<Declaration>): (t: seq<CssToken>)
    ensures |t| == 4 * |ds|
  {
    if ds == [] then [] else [Ident(ds[0].property), Colon, ds[0].value, SemiColon] + DeclarationTokens(ds[1..])
  }

  /**
   * The converse of what `DeclarationsAt` promises: a block body of well-formed declarations, each
   * ended by `;`, is read back whole and in order, up to the `}` or the end of the stream.
   */
  lemma {:induction false} DeclarationsReadBack(tokens: seq<CssToken>, pos: nat, ds: seq<Declaration>, end: nat)
    requires pos <= end <= |tokens| && end - pos == 4 * |ds| && tokens[pos..end] == DeclarationTokens(ds)
    requires end == |tokens| || tokens[end] == CloseCurly
    ensures DeclarationsAt(tokens, pos) == Ok(Parsed(ds, if end == |tokens| then end else end + 1))
    decreases |ds|
  {
    var m := if end == |tokens| then end else end + 1;
    if ds == [] {
      EmptyBlockBody(tokens, pos);
    } else {
      var d, rest := ds[0], ds[1..];
      SplitDeclarationTokens(tokens, pos, ds, end);
      DeclarationsReadBack(tokens, pos + 4, rest, end);
      DeclarationAndSemicolon(tokens, pos, d, rest, m);
      assert [d] + rest == ds;
    }
  }

  /** A block body that is only its `}`, or nothing, reads no declarations. */
  lemma EmptyBlockBody(tokens: seq<CssToken>, pos: nat)
    requires pos == |tokens| || (pos < |tokens| && tokens[pos] == CloseCurly)
    ensures DeclarationsAt(tokens, pos) == Ok(Parsed([], if pos == |tokens| then |tokens| else pos + 1))
  {
  }

  /** The first four tokens of a written block are its first declaration and `;`; the rest write the others. */
  lemma SplitDeclarationTokens(tokens: seq<CssToken>, pos: nat, ds: seq<Declaration>, end: nat)
    requires ds != [] && pos <= end <= |tokens| && end - pos == 4 * |ds| && tokens[pos..end] == DeclarationTokens(ds)
    ensures tokens[pos] == Ident(ds[0].property) && tokens[pos + 1] == Colon && tokens[pos + 2] == ds[0].value && tokens[pos + 3] == SemiColon
    ensures pos + 4 <= end && end - (pos + 4) == 4 * |ds[1..]| && tokens[pos + 4..end] == DeclarationTokens(ds[1..])
  {
    var block := tokens[pos..end];
    assert block == [Ident(ds[0].property), Colon, ds[0].value, SemiColon] + DeclarationTokens(ds[1..]);
    assert tokens[pos] == block[0] && tokens[pos + 1] == block[1] && tokens[pos + 2] == block[2] && tokens[pos + 3] == block[3];
    assert tokens[pos + 4..end] == block[4..];
  }

  /** `p: v;` in front of a block body adds its declaration in front of what the body reads. */
  lemma DeclarationAndSemicolon(tokens: seq<CssToken>, pos: nat, d: Declaration, ds: seq<Declaration>, m: nat)
    requires pos + 4 <= |tokens| && tokens[pos] == Ident(d.property) && tokens[pos + 1] == Colon && tokens[pos + 2] == d.value
    requires tokens[pos + 3] == SemiColon && DeclarationsAt(tokens, pos + 4) == Ok(Parsed(ds, m))
    ensures DeclarationsAt(tokens, pos) == Ok(Parsed([d] + ds, m))
  {
    DeclarationSkipped(tokens, pos + 3);
    DeclarationThenRest(tokens, pos, d, ds, m);
  }

  /** `;` and any other token that is neither `}` nor an identifier are skipped inside a block. */
  lemma DeclarationSkipped(tokens: seq<CssToken>, pos: nat)
    requires pos < |tokens| && tokens[pos] != CloseCurly && !tokens[pos].Ident?
    ensures DeclarationsAt(tokens, pos) == DeclarationsAt(tokens, pos + 1)
  {
  }

  /** A rule starting with an at-keyword leaves no trace in the list. */
  lemma AtRuleDropped(tokens: seq<CssToken>, pos: nat, q: Option<QualifiedRule>, n: nat)
    requires pos < |tokens| && tokens[pos].AtKeyword?
    requires QualifiedRuleAt(tokens, pos, NewQualifiedRule()) == Ok(Parsed(q, n))
    ensures RulesAt(tokens, pos) == RulesAt(tokens, n)
  {
  }

  /** Any other rule is kept in front of the rules after it. */
  lemma RuleKept(tokens: seq<CssToken>, pos: nat, q: QualifiedRule, n: nat, rest: seq<QualifiedRule>)
    requires pos < |tokens| && !tokens[pos].AtKeyword?
    requires QualifiedRuleAt(tokens, pos, NewQualifiedRule()) == Ok(Parsed(Some(q), n))
    requires RulesAt(tokens, n) == Ok(Parsed(rest, |tokens|))
    ensures RulesAt(tokens, pos) == Ok(Parsed([q] + rest, |tokens|))
  {
  }

  /** A stream that ends before any `{` gives no rule, whatever the rule read so far. */
  lemma {:induction false} NoBlockNoRule(tokens: seq<CssToken>, pos: nat, rule: QualifiedRule)
    requires pos <= |tokens| && forall m :: pos <= m < |tokens| ==> tokens[m] != OpenCurly
    ensures QualifiedRuleAt(tokens, pos, rule).Ok? ==> QualifiedRuleAt(tokens, pos, rule).value.value.None?
    decreases |tokens| - pos
  {
    if pos < |tokens| {
      var s := SelectorAt(tokens, pos);
      if s.Ok? {
        NoBlockNoRule(tokens, s.value.next, rule.SetSelector(s.value.value));
      }
    }
  }

  // ---------------------------------------------------------------------------------------------
  // The parser object

  /** `xs + ys` in front of a result is `ys` in front, then `xs`. */
  lemma PrefixedTwice<T>(xs: seq<T>, ys: seq<T>, r: Result<Parsed<seq<T>>, ParseError>)
    ensures Prefixed(xs, Prefixed(ys, r)) == Prefixed(xs + ys, r)
  {
    if r.Ok? {
      assert xs + (ys + r.value.value) == (xs + ys) + r.value.value;
    }
  }

  class CssParser {
    /** The tokens the tokenizer yields, in order; `pos` is the peekable cursor over them. */
    const tokens: seq<CssToken>
    var pos: nat

    predicate Valid()
      reads this
    {
      pos <= |tokens|
    }

    constructor(ts: seq<CssToken>)
      ensures Valid() && tokens == ts && pos == 0
    {
      tokens := ts;
      pos := 0;
    }

    /** `peek` */
    function Peek(): (t: Option<CssToken>)
      requires Valid()
      reads this
      ensures t.Some? <==> pos < |tokens|
      ensures t.Some? ==> t.value == tokens[pos]
    {
      if pos < |tokens| then Some(tokens[pos]) else None
    }

    /** `next`: the token under the cursor, moving past it; nothing at the end of the stream. */
    method Advance() returns (t: Option<CssToken>)
      requires Valid()
      modifies this
      ensures Valid()
      ensures old(pos) < |tokens| ==> t == Some(tokens[old(pos)]) && pos == old(pos) + 1
      ensures old(pos) == |tokens| ==> t == None && pos == old(pos)
    {
      if pos < |tokens| {
        t := Some(tokens[pos]);
        pos := pos + 1;
      } else {
        t := None;
      }
    }

    method ParseStylesheet() returns (r: Result<StyleSheet, ParseError>)
      requires Valid() && pos == 0
      modifies this
      ensures r == Stylesheet(tokens)
    {
      var sheet := NewStyleSheet();
      var rules := ConsumeListOfRules();
      if rules.Err? {
        return Err(rules.error);
      }
      sheet := sheet.SetRules(rules.value);
      return Ok(sheet);
    }

    method ConsumeListOfRules() returns (r: Result<seq<QualifiedRule>, ParseError>)
      requires Valid()
      modifies this
      ensures Valid()
      ensures match RulesAt(tokens, old(pos))
        case Ok(p) => r == Ok(p.value) && pos == p.next
        case Err(e) => r == Err(e)
    {
      var rules: seq<QualifiedRule> := [];
      ghost var start := pos;
      while true
        invariant Valid() && start <= pos
        invariant RulesAt(tokens, start) == Prefixed(rules, RulesAt(tokens, pos))
        decreases |tokens| - pos
      {
        var token := Peek();
        if token.None? {
          assert rules + [] == rules;
          return Ok(rules);
        }
        ghost var here := pos;
        var rule := ConsumeQualifiedRule();
        if rule.Err? {
          return Err(rule.error);
        }
        if token.value.AtKeyword? {
          // At-rules are not supported: the rule is read and dropped.
        } else if rule.value.Some? {
          PrefixedTwice(rules, [rule.value.value], RulesAt(tokens, pos));
          rules := rules + [rule.value.value];
        } else {
          assert rules + [] == rules;
          return Ok(rules);
        }
      }
    }

    method ConsumeQualifiedRule() returns (r: Result<Option<QualifiedRule>, ParseError>)
      requires Valid()
      modifies this
      ensures Valid()
      ensures match QualifiedRuleAt(tokens, old(pos), NewQualifiedRule())
        case Ok(p) => r == Ok(p.value) && pos == p.next
        case Err(e) => r == Err(e)
    {
      var rule := NewQualifiedRule();
      ghost var start := pos;
      while true
        invariant Valid() && start <= pos
        invariant QualifiedRuleAt(tokens, start, NewQualifiedRule()) == QualifiedRuleAt(tokens, pos, rule)
        decreases |tokens| - pos
      {
        var token := Peek();
        if token.None? {
          return Ok(None);
        }
        if token.value == OpenCurly {
          var _ := Advance();
          var declarations := ConsumeListOfDeclarations();
          if declarations.Err? {
            return Err(declarations.error);
          }
          rule := rule.SetDeclarations(declarations.value);
          return Ok(Some(rule));
        }
        var selector := ConsumeSelector();
        if selector.Err? {
          return Err(selector.error);
        }
        rule := rule.SetSelector(selector.value);
      }
    }

    /** The skip loop of `consume_selector`, which spins for ever when no `{` is left. */
    method SkipToOpenCurly() returns (r: Result<(), ParseError>)
      requires Valid()
      modifies this
      ensures Valid()
      ensures match SkipToBlock(tokens, old(pos))
        case Ok(e) => r.Ok? && pos == e
        case Err(e) => r == Err(e)
    {
      while Peek() != Some(OpenCurly)
        invariant Valid() && old(pos) <= pos
        invariant SkipToBlock(tokens, old(pos)) == SkipToBlock(tokens, pos)
        decreases |tokens| - pos
      {
        if Peek().None? {
          return Err(Diverges);
        }
        var _ := Advance();
      }
      return Ok(());
    }

    method ConsumeSelector() returns (r: Result<Selector, ParseError>)
      requires Valid() && pos < |tokens|
      modifies this
      ensures Valid()
      ensures match SelectorAt(tokens, old(pos))
        case Ok(p) => r == Ok(p.value) && pos == p.next
        case Err(e) => r == Err(e)
    {
      var token := Advance();
      var t := token.value;
      if t.HashToken? {
        if |t.hash| == 0 {
          return Err(EmptyHash);
        }
        return Ok(IdSelector(t.hash[1..]));
      } else if t.Delim? {
        if t.delim == '.' {
          var name := ConsumeIdent();
          if name.Err? {
            return Err(name.error);
          }
          return Ok(ClassSelector(name.value));
        }
        return Err(UnexpectedToken(t));
      } else if t.Ident? {
        if Peek() == Some(Colon) {
          var skipped := SkipToOpenCurly();
          if skipped.Err? {
            return Err(skipped.error);
          }
        }
        return Ok(TypeSelector(t.ident));
      } else if t.AtKeyword? {
        var skipped := SkipToOpenCurly();
        if skipped.Err? {
          return Err(skipped.error);
        }
        return Ok(UnknownSelector);
      } else {
        var _ := Advance();
        return Ok(UnknownSelector);
      }
    }

    method ConsumeListOfDeclarations() returns (r: Result<seq<Declaration>, ParseError>)
      requires Valid()
      modifies this
      ensures Valid()
      ensures match DeclarationsAt(tokens, old(pos))
        case Ok(p) => r == Ok(p.value) && pos == p.next
        case Err(e) => r == Err(e)
    {
      var declarations: seq<Declaration> := [];
      ghost var start := pos;
      while true
        invariant Valid() && start <= pos
        invariant DeclarationsAt(tokens, start) == Prefixed(declarations, DeclarationsAt(tokens, pos))
        decreases |tokens| - pos
      {
        var token := Peek();
        if token.None? {
          assert declarations + [] == declarations;
          return Ok(declarations);
        }
        var t := token.value;
        if t == CloseCurly {
          var _ := Advance();
          assert declarations + [] == declarations;
          return Ok(declarations);
        } else if t.Ident? {
          var declaration := ConsumeDeclaration();
          if declaration.Err? {
            return Err(declaration.error);
          }
          if declaration.value.Some? {
            PrefixedTwice(declarations, [declaration.value.value], DeclarationsAt(tokens, pos));
            declarations := declarations + [declaration.value.value];
          } else {
            PrefixedTwice(declarations, [], DeclarationsAt(tokens, pos));
            assert declarations + [] == declarations;
          }
        } else {
          // `;` ends a declaration; anything else cannot start one. Both are skipped.
          var _ := Advance();
        }
      }
    }

    method ConsumeDeclaration() returns (r: Result<Option<Declaration>, ParseError>)
      requires Valid()
      modifies this
      ensures Valid()
      ensures match DeclarationAt(tokens, old(pos))
        case Ok(p) => r == Ok(p.value) && pos == p.next
        case Err(e) => r == Err(e)
    {
      if Peek().None? {
        return Ok(None);
      }
      var declaration := NewDeclaration();
      var property := ConsumeIdent();
      if property.Err? {
        return Err(property.error);
      }
      declaration := declaration.SetProperty(property.value);
      var token := Advance();
      if token.None? || token.value != Colon {
        return Ok(None);
      }
      var value := ConsumeComponentValue();
      if value.Err? {
        return Err(value.error);
      }
      declaration := declaration.SetValue(value.value);
      return Ok(Some(declaration));
    }

    method ConsumeIdent() returns (r: Result<string, ParseError>)
      requires Valid()
      modifies this
      ensures Valid()
      ensures match IdentAt(tokens, old(pos))
        case Ok(p) => r == Ok(p.value) && pos == p.next
        case Err(e) => r == Err(e)
    {
      var token := Advance();
      if token.None? {
        return Err(MissingToken);
      }
      if token.value.Ident? {
        return Ok(token.value.ident);
      }
      return Err(UnexpectedToken(token.value));
    }

    /** `consume_component_value`: any one token; it panics at the end of the stream. */
    method ConsumeComponentValue() returns (r: Result<CssToken, ParseError>)
      requires Valid()
      modifies this
      ensures Valid()
      ensures old(pos) < |tokens| ==> r == Ok(tokens[old(pos)]) && pos == old(pos) + 1
      ensures old(pos) == |tokens| ==> r == Err(MissingToken)
    {
      var token := Advance();
      if token.None? {
        return Err(MissingToken);
      }
      return Ok(token.value);
    }
  }
}
