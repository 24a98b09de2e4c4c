/**
 * Tree construction (html/parser.rs): a state machine over insertion modes that turns the
 * tokenizer's output into DOM nodes. The tokenizer itself is not part of this model; the parser
 * is given the token sequence it would produce.
 *
 * `ParserState` and the functions over it specify the parser; the class `HtmlParser` is the
 * imperative parser with the source's fields, and each of its methods is proved to move its
 * state exactly as the corresponding function says.
 */
module HtmlParser {
  import opened Wrappers
  import E = DomElement
  import opened DomNode

  datatype HtmlToken =
    | StartTag(tag: string, selfClosing: bool, attributes: seq<E.Attribute>)
    | EndTag(tag: string)
    | Char(c: char)
    | Eof

  datatype InsertionMode =
    Initial | BeforeHtml | BeforeHead | InHead | AfterHead | InBody | Text | AfterBody | AfterAfterBody

  /** The panics of the source: the `assert!` in `pop_until` and the one after `</html>`. */
  datatype ParseError = NotInStack(kind: E.ElementKind) | HtmlNotCurrent

  datatype ParserState = ParserState(
    nodes: seq<Node>,
    stack: seq<Handle>,
    mode: InsertionMode,
    original: InsertionMode)

  /** The well-formedness every reachable state keeps. */
  predicate ValidState(st: ParserState)
  {
    ValidArena(st.nodes) &&
    (forall i :: 0 <= i < |st.stack| ==> 0 < st.stack[i] < |st.nodes|) &&
    (st.mode == InsertionMode.Text ==> st.original == InHead)
  }

  /** A new parser: a window holding only the Document, an empty stack, mode `Initial`. */
  function InitialState(): (st: ParserState)
    ensures ValidState(st)
  {
    ParserState([NewNode(Document)], [], Initial, Initial)
  }

  predicate IsSpace(c: char)
  {
    c == ' ' || c == '\n'
  }

  // ---------------------------------------------------------------------------------------------
  // The stack of open elements

  /** `contain_in_stack`: some open node is an element of kind `kind`. */
  predicate InStack(st: ParserState, kind: E.ElementKind)
    requires ValidState(st)
  {
    exists i :: 0 <= i < |st.stack| && ElementKindOf(st.nodes[st.stack[i]]) == Some(kind)
  }

  /** The stack after popping entries until one of kind `kind` has been popped. */
  function PopUntilStack(nodes: seq<Node>, stack: seq<Handle>, kind: E.ElementKind): (r: seq<Handle>)
    requires forall i :: 0 <= i < |stack| ==> stack[i] < |nodes|
    ensures |r| <= |stack| && r == stack[..|r|]
  {
    if |stack| == 0 then []
    else if ElementKindOf(nodes[stack[|stack| - 1]]) == Some(kind) then stack[..|stack| - 1]
    else PopUntilStack(nodes, stack[..|stack| - 1], kind)
  }

  /**
   * When the kind is on the stack, popping removes exactly the topmost entry of that kind and
   * everything above it; the entries below are untouched.
   */
  lemma {:induction false} PopUntilRemovesTopmost(nodes: seq<Node>, stack: seq<Handle>, kind: E.ElementKind, i: nat)
    requires forall j :: 0 <= j < |stack| ==> stack[j] < |nodes|
    requires i < |stack| && ElementKindOf(nodes[stack[i]]) == Some(kind)
    ensures var r := PopUntilStack(nodes, stack, kind);
      |r| < |stack| && ElementKindOf(nodes[stack[|r|]]) == Some(kind) &&
      forall j :: |r| < j < |stack| ==> ElementKindOf(nodes[stack[j]]) != Some(kind)
    decreases |stack|
  {
    var top := |stack| - 1;
    if ElementKindOf(nodes[stack[top]]) != Some(kind) {
      var below := stack[..top];
      PopUntilRemovesTopmost(nodes, below, kind, i);
      var r := PopUntilStack(nodes, below, kind);
      assert forall j :: |r| < j < top ==> stack[j] == below[j];
    }
  }

  /** `pop_until`: fails when the kind is not on the stack (the source's `assert!`). */
  function PoppedUntil(st: ParserState, kind: E.ElementKind): (r: Result<ParserState, ParseError>)
    requires ValidState(st)
    ensures r.Ok? <==> InStack(st, kind)
    ensures r.Ok? ==> ValidState(r.value) && r.value == st.(stack := r.value.stack)
  {
    if InStack(st, kind) then Ok(st.(stack := PopUntilStack(st.nodes, st.stack, kind)))
    else Err(NotInStack(kind))
  }

  /** The current node (the top of the stack) is an element of kind `kind`. */
  predicate TopIs(st: ParserState, kind: E.ElementKind)
    requires ValidState(st)
  {
    |st.stack| > 0 && ElementKindOf(st.nodes[st.stack[|st.stack| - 1]]) == Some(kind)
  }

  /** `pop_current_node`: pops the current node iff it is of kind `kind`. */
  function PoppedCurrent(st: ParserState, kind: E.ElementKind): (r: ParserState)
    requires ValidState(st)
    ensures ValidState(r)
    ensures TopIs(st, kind) ==> r == st.(stack := st.stack[..|st.stack| - 1])
    ensures !TopIs(st, kind) ==> r == st
  {
    if TopIs(st, kind) then st.(stack := st.stack[..|st.stack| - 1]) else st
  }

  // ---------------------------------------------------------------------------------------------
  // Inserting nodes

  /** `insert_element` inserts below the current node, or below the Document when the stack is empty. */
  function InsertionParent(st: ParserState): (h: Handle)
    requires ValidState(st)
    ensures h < |st.nodes|
  {
    if |st.stack| == 0 then DocumentHandle else st.stack[|st.stack| - 1]
  }

  /**
   * `insert_char`. A character goes into the current node when that is a text node; otherwise a
   * space or newline is dropped and any other character starts a new text node. The new node's
   * link from its parent is written as the source writes it: into the parent's first child when
   * there is none, and otherwise into the FIRST child's next sibling.
   */
  function WithChar(st: ParserState, c: char): (r: ParserState)
    requires ValidState(st)
    ensures ValidState(r)
    ensures r.mode == st.mode && r.original == st.original
  {
    if |st.stack| == 0 then st
    else
      var cur := st.stack[|st.stack| - 1];
      assert LinksOrdered(st.nodes, cur);
      if st.nodes[cur].kind.Text? then
        var s := st.nodes[cur].kind.text;
        ReplaceKeepsValid(st.nodes, cur, st.nodes[cur].(kind := NodeKind.Text(s + [c])));
        st.(nodes := st.nodes[cur := st.nodes[cur].(kind := NodeKind.Text(s + [c]))])
      else if IsSpace(c) then st
        else
          var h := |st.nodes|;
          var n0 := st.nodes + [NewNode(NodeKind.Text([c]))];
          AppendKeepsValid(st.nodes, NewNode(NodeKind.Text([c])));
          var n1 := LinkNewText(n0, cur, h);
          var n2 := n1[cur := n1[cur].(lastChild := Some(h))];
          ReplaceKeepsValid(n1, cur, n1[cur].(lastChild := Some(h)));
          var n3 := n2[h := n2[h].(parent := Some(cur))];
          ReplaceKeepsValid(n2, h, n2[h].(parent := Some(cur)));
          st.(nodes := n3, stack := st.stack + [h])
  }

  /** The link `insert_char` writes: the parent's first child, or the first child's next sibling. */
  function LinkNewText(nodes: seq<Node>, cur: Handle, h: Handle): (r: seq<Node>)
    requires ValidArena(nodes) && cur < h && h == |nodes| - 1
    requires LinkAbove(nodes[cur].firstChild, cur, h)
    ensures ValidArena(r) && |r| == |nodes|
    ensures nodes[cur].firstChild.None? ==> r == nodes[cur := nodes[cur].(firstChild := Some(h))]
    ensures nodes[cur].firstChild.Some? ==>
      var fc := nodes[cur].firstChild.value;
      r == nodes[fc := nodes[fc].(nextSibling := Some(h))]
  {
    assert LinksOrdered(nodes, cur);
    match nodes[cur].firstChild
    case None =>
      ReplaceKeepsValid(nodes, cur, nodes[cur].(firstChild := Some(h)));
      nodes[cur := nodes[cur].(firstChild := Some(h))]
    case Some(fc) =>
      assert LinksOrdered(nodes, fc);
      ReplaceKeepsValid(nodes, fc, nodes[fc].(nextSibling := Some(h)));
      nodes[fc := nodes[fc].(nextSibling := Some(h))]
  }

  /**
   * `insert_element`: a new element goes at the end of the insertion parent's child chain (the
   * old last child gets it as next sibling, it gets that child as previous sibling) and becomes
   * the current node.
   */
  function WithElement(st: ParserState, tag: string, attributes: seq<E.Attribute>): (r: ParserState)
    requires ValidState(st) && tag in E.SupportedNames
    ensures ValidState(r)
    ensures r.mode == st.mode && r.original == st.original
  {
    var cur := InsertionParent(st);
    var h := |st.nodes|;
    var n0 := st.nodes + [NewNode(Element(E.NewElement(tag, attributes)))];
    AppendKeepsValid(st.nodes, NewNode(Element(E.NewElement(tag, attributes))));
    assert LinksOrdered(st.nodes, cur);
    var n1 := LinkNewElement(st.nodes, n0, cur);
    var n2 := n1[cur := n1[cur].(lastChild := Some(h))];
    assert LinksOrdered(n1, cur);
    ReplaceKeepsValid(n1, cur, n1[cur].(lastChild := Some(h)));
    var n3 := n2[h := n2[h].(parent := Some(cur))];
    ReplaceKeepsValid(n2, h, n2[h].(parent := Some(cur)));
    st.(nodes := n3, stack := st.stack + [h])
  }

  /**
   * The links `insert_element` writes between the new node (the last of `grown`) and the chain it
   * joins: the chain below `cur` is walked in the arena as it was before the node was added.
   */
  function LinkNewElement(nodes: seq<Node>, grown: seq<Node>, cur: Handle): (r: seq<Node>)
    requires ValidArena(nodes) && ValidArena(grown) && cur < |nodes| && LinksOrdered(nodes, cur)
    requires |grown| == |nodes| + 1 && grown[..|nodes|] == nodes && grown[|nodes|].previousSibling.None?
    ensures ValidArena(r) && |r| == |grown|
    ensures nodes[cur].firstChild.None? ==> r == grown[cur := grown[cur].(firstChild := Some(|nodes|))]
    ensures nodes[cur].firstChild.Some? ==>
      var last := LastSibling(nodes, nodes[cur].firstChild.value);
      r == grown[last := grown[last].(nextSibling := Some(|nodes|))]
                [|nodes| := grown[|nodes|].(previousSibling := Some(last))]
  {
    var h := |nodes|;
    assert LinksOrdered(nodes, cur) && LinksOrdered(grown, cur);
    assert grown[cur] == nodes[cur];
    match nodes[cur].firstChild
    case None =>
      ReplaceKeepsValid(grown, cur, grown[cur].(firstChild := Some(h)));
      grown[cur := grown[cur].(firstChild := Some(h))]
    case Some(fc) =>
      var last := LastSibling(nodes, fc);
      assert grown[last] == nodes[last];
      assert LinksOrdered(grown, last);
      ReplaceKeepsValid(grown, last, grown[last].(nextSibling := Some(h)));
      var g1 := grown[last := grown[last].(nextSibling := Some(h))];
      assert LinksOrdered(g1, h);
      ReplaceKeepsValid(g1, h, g1[h].(previousSibling := Some(last)));
      g1[h := g1[h].(previousSibling := Some(last))]
  }

  // ---------------------------------------------------------------------------------------------
  // One step of `construct_tree`

  /** What one pass of the loop in `construct_tree` does with the current token. */
  datatype Step =
    | Continue(next: ParserState, consume: bool)  // go on, having read the token or not
    | Finish                                      // `return self.window.clone()`
    | Fail(error: ParseError)                     // a panic

  /**
   * A measure that every step which does not consume the token decreases: the modes a token can
   * be handed on to without being read rank lower.
   */
  function Rank(mode: InsertionMode, tok: HtmlToken): nat
  {
    match mode
    case Initial => 8
    case BeforeHtml => 7
    case BeforeHead => 6
    case Text => 5
    case InHead => 4
    case AfterHead => 3
    case AfterAfterBody => 2
    case AfterBody => if tok.EndTag? && tok.tag == "html" then 0 else 2
    case InBody => 1
  }

  /** A step's result is well-formed and, unless it reads the token, makes progress on `Rank`. */
  predicate StepOk(st: ParserState, tok: HtmlToken, r: Step)
  {
    r.Continue? ==> ValidState(r.next) && (!r.consume ==> Rank(r.next.mode, tok) < Rank(st.mode, tok))
  }

  /** `Result` of a pop turned into a step that reads the token. */
  function Consumed(r: Result<ParserState, ParseError>, mode: InsertionMode): Step
  {
    match r
    case Ok(next) => Continue(next.(mode := mode), true)
    case Err(e) => Fail(e)
  }

  /** `Initial`: characters (a doctype, unsupported) are skipped; anything else moves on. */
  function InitialStep(st: ParserState, tok: HtmlToken): (r: Step)
    requires ValidState(st) && st.mode == Initial
    ensures StepOk(st, tok, r)
  {
    if tok.Char? then Continue(st, true) else Continue(st.(mode := BeforeHtml), false)
  }

  /**
   * `BeforeHtml`. The source's test for end tags, `tag != "head" || tag != "body" || ...`, holds
   * for every tag, so every end tag is skipped here; it is kept as written.
   */
  function BeforeHtmlStep(st: ParserState, tok: HtmlToken): (r: Step)
    requires ValidState(st) && st.mode == BeforeHtml
    ensures StepOk(st, tok, r)
  {
    if tok.Eof? then Finish
    else if (tok.Char? && IsSpace(tok.c)) ||
            (tok.EndTag? && var tag := tok.tag; tag != "head" || tag != "body" || tag != "html" || tag != "br")
    then Continue(st, true)
    else if tok.StartTag? && tok.tag == "html" then
      Continue(WithElement(st, "html", tok.attributes).(mode := BeforeHead), true)
    else Continue(WithElement(st, "html", []).(mode := BeforeHead), false)
  }

  /** Every end tag is skipped before `<html>`, whatever its name. */
  lemma BeforeHtmlSkipsEndTags(st: ParserState, tag: string)
    requires ValidState(st) && st.mode == BeforeHtml
    ensures BeforeHtmlStep(st, EndTag(tag)) == Continue(st, true)
  {
    assert "head" != "body";
  }

  /** `BeforeHead`: inserts the `head` element, from the token or implied. */
  function BeforeHeadStep(st: ParserState, tok: HtmlToken): (r: Step)
    requires ValidState(st) && st.mode == BeforeHead
    ensures StepOk(st, tok, r)
  {
    if tok.Eof? then Finish
    else if tok.Char? && IsSpace(tok.c) then Continue(st, true)
    else if tok.StartTag? && tok.tag == "head" then
      Continue(WithElement(st, "head", tok.attributes).(mode := InHead), true)
    else Continue(WithElement(st, "head", []).(mode := InHead), false)
  }

  /**
   * `InHead`: whitespace is kept, `style` and `script` switch to `Text`, a supported start tag or
   * `</head>` closes the head; other tokens (`<meta>`, `<title>`, other characters) are skipped.
   */
  function InHeadStep(st: ParserState, tok: HtmlToken): (r: Step)
    requires ValidState(st) && st.mode == InHead
    ensures StepOk(st, tok, r)
  {
    match tok
    case Eof => Finish
    case Char(c) =>
      if IsSpace(c) then Continue(WithChar(st, c), true) else Continue(st, true)
    case StartTag(tag, _, attributes) =>
      if tag == "style" || tag == "script" then
        Continue(WithElement(st, tag, attributes).(original := st.mode, mode := InsertionMode.Text), true)
      else if tag == "body" || E.KindFromStr(tag).Ok? then
        match PoppedUntil(st, E.Head)
        case Ok(next) => Continue(next.(mode := AfterHead), false)
        case Err(e) => Fail(e)
      else Continue(st, true)
    case EndTag(tag) =>
      if tag == "head" then Consumed(PoppedUntil(st, E.Head), AfterHead) else Continue(st, true)
  }

  /** `AfterHead`: inserts the `body` element, from the token or implied. */
  function AfterHeadStep(st: ParserState, tok: HtmlToken): (r: Step)
    requires ValidState(st) && st.mode == AfterHead
    ensures StepOk(st, tok, r)
  {
    if tok.Eof? then Finish
    else if tok.Char? && IsSpace(tok.c) then Continue(WithChar(st, tok.c), true)
    else if tok.StartTag? && tok.tag == "body" then
      Continue(WithElement(st, "body", tok.attributes).(mode := InBody), true)
    else Continue(WithElement(st, "body", []).(mode := InBody), false)
  }

  /** The tags `InBody` opens and closes. */
  predicate IsBodyContentTag(tag: string)
  {
    tag == "p" || tag == "h1" || tag == "h2" || tag == "a"
  }

  /** `InBody`: the body's content. */
  function InBodyStep(st: ParserState, tok: HtmlToken): (r: Step)
    requires ValidState(st) && st.mode == InBody
    ensures StepOk(st, tok, r)
  {
    match tok
    case Eof => Finish
    case Char(c) => Continue(WithChar(st, c), true)
    case StartTag(tag, _, attributes) =>
      if IsBodyContentTag(tag) then Continue(WithElement(st, tag, attributes), true)
      else Continue(st, true)
    case EndTag(tag) =>
      if tag == "body" then
        // `</body>` without an open body is a parse error and is ignored.
        if InStack(st, E.Body) then Consumed(PoppedUntil(st, E.Body), AfterBody)
        else Continue(st.(mode := AfterBody), true)
      else if tag == "html" then
        if TopIs(st, E.Body) then
          var popped := PoppedCurrent(st, E.Body);
          if TopIs(popped, E.Html) then Continue(PoppedCurrent(popped, E.Html).(mode := AfterBody), false)
          else Fail(HtmlNotCurrent)
        else Continue(st, true)
      else if IsBodyContentTag(tag) then Consumed(PoppedUntil(st, E.KindFromStr(tag).value), InBody)
      else Continue(st, true)
  }

  /**
   * `Text` (inside `style` or `script`): characters are collected; an end tag closes the element
   * when it is `style` or `script` and returns to the mode the element was opened in.
   */
  function TextStep(st: ParserState, tok: HtmlToken): (r: Step)
    requires ValidState(st) && st.mode == InsertionMode.Text
    ensures StepOk(st, tok, r)
  {
    match tok
    case Eof => Finish
    case EndTag(tag) =>
      if tag == "style" then Consumed(PoppedUntil(st, E.Style), st.original)
      else if tag == "script" then Consumed(PoppedUntil(st, E.Script), st.original)
      else Continue(st.(mode := st.original), true)
    case Char(c) => Continue(WithChar(st, c), true)
    case StartTag(_, _, _) => Continue(st.(mode := st.original), false)
  }

  /** `AfterBody`: characters are skipped, `</html>` ends the document, anything else reopens the body. */
  function AfterBodyStep(st: ParserState, tok: HtmlToken): (r: Step)
    requires ValidState(st) && st.mode == AfterBody
    ensures StepOk(st, tok, r)
  {
    if tok.Eof? then Finish
    else if tok.Char? then Continue(st, true)
    else if tok.EndTag? && tok.tag == "html" then Continue(st.(mode := AfterAfterBody), true)
    else Continue(st.(mode := InBody), false)
  }

  /** `AfterAfterBody`: characters are skipped, anything else reopens the body. */
  function AfterAfterBodyStep(st: ParserState, tok: HtmlToken): (r: Step)
    requires ValidState(st) && st.mode == AfterAfterBody
    ensures StepOk(st, tok, r)
  {
    if tok.Eof? then Finish
    else if tok.Char? then Continue(st, true)
    else Continue(st.(mode := InBody), false)
  }

  /** One pass of the loop of `construct_tree`, by insertion mode. */
  function ParseStep(st: ParserState, tok: HtmlToken): (r: Step)
    requires ValidState(st)
    ensures StepOk(st, tok, r)
    ensures r.Finish? <==> tok.Eof? && st.mode != Initial
  {
    match st.mode
    case Initial => InitialStep(st, tok)
    case BeforeHtml => BeforeHtmlStep(st, tok)
    case BeforeHead => BeforeHeadStep(st, tok)
    case InHead => InHeadStep(st, tok)
    case AfterHead => AfterHeadStep(st, tok)
    case InBody => InBodyStep(st, tok)
    case Text => TextStep(st, tok)
    case AfterBody => AfterBodyStep(st, tok)
    case AfterAfterBody => AfterAfterBodyStep(st, tok)
  }

  /**
   * `construct_tree` from token `i` on: it stops at `Eof` or when the tokens run out, and every
   * other step either reads a token or hands it on to a lower-ranked mode, so it always ends.
   */
  function Run(st: ParserState, tokens: seq<HtmlToken>, i: nat): (r: Result<ParserState, ParseError>)
    requires ValidState(st) && i <= |tokens|
    ensures r.Ok? ==> ValidState(r.value)
    decreases |tokens| - i, Rank(st.mode, if i < |tokens| then tokens[i] else Eof)
  {
    if i == |tokens| then Ok(st)
    else
      match ParseStep(st, tokens[i])
      case Finish => Ok(st)
      case Fail(e) => Err(e)
      case Continue(next, consume) => Run(next, tokens, if consume then i + 1 else i)
  }

  /** One pass of the loop: `Run` from token `i` is the step it takes there followed by the rest. */
  lemma RunStep(st: ParserState, tokens: seq<HtmlToken>, i: nat)
    requires ValidState(st) && i < |tokens|
    ensures var s := ParseStep(st, tokens[i]);
      (s.Finish? ==> Run(st, tokens, i) == Ok(st)) &&
      (s.Fail? ==> Run(st, tokens, i) == Err(s.error)) &&
      (s.Continue? ==> Run(st, tokens, i) == Run(s.next, tokens, if s.consume then i + 1 else i))
  {
  }

  /** The DOM built from a whole token sequence, as the arena of the window's nodes. */
  function BuildTree(tokens: seq<HtmlToken>): (r: Result<seq<Node>, ParseError>)
    ensures r.Ok? ==> ValidArena(r.value)
  {
    match Run(InitialState(), tokens, 0)
    case Ok(st) => Ok(st.nodes)
    case Err(e) => Err(e)
  }

  // ---------------------------------------------------------------------------------------------
  // What insertion does to the tree

  /**
   * `insert_element` makes the new element the last child of the insertion parent: the parent's
   * child chain grows by exactly the new node, which links back to the parent and to the old last
   * child, and is pushed on the stack.
   */
  lemma WithElementAppendsChild(st: ParserState, tag: string, attributes: seq<E.Attribute>)
    requires ValidState(st) && tag in E.SupportedNames
    ensures var r := WithElement(st, tag, attributes);
      var cur, h := InsertionParent(st), |st.nodes|;
      var before := Children(st.nodes, cur);
      |r.nodes| == h + 1 && r.stack == st.stack + [h] &&
      r.nodes[h].kind == Element(E.NewElement(tag, attributes)) &&
      r.nodes[h].parent == Some(cur) && r.nodes[cur].lastChild == Some(h) &&
      r.nodes[h].previousSibling == (if before == [] then None else Some(before[|before| - 1])) &&
      Children(r.nodes, cur) == before + [h]
  {
    var r := WithElement(st, tag, attributes);
    var cur, h := InsertionParent(st), |st.nodes|;
    assert LinksOrdered(st.nodes, cur) && LinksOrdered(r.nodes, h);
    match st.nodes[cur].firstChild
    case None =>
      assert Children(r.nodes, cur) == SiblingChain(r.nodes, Some(h)) == [h];
    case Some(fc) =>
      var last := LastSibling(st.nodes, fc);
      assert r.nodes[cur].firstChild == Some(fc);
      ChainExtended(st.nodes, r.nodes, fc);
  }

  /**
   * `insert_element` writes to no node other than the insertion parent, its old last child and
   * the new node.
   */
  lemma WithElementLeavesOthers(st: ParserState, tag: string, attributes: seq<E.Attribute>)
    requires ValidState(st) && tag in E.SupportedNames
    ensures var r := WithElement(st, tag, attributes);
      var cur := InsertionParent(st);
      var before := Children(st.nodes, cur);
      forall x :: 0 <= x < |st.nodes| && x != cur && (before == [] || x != before[|before| - 1]) ==>
        r.nodes[x] == st.nodes[x]
  {
    var cur := InsertionParent(st);
    assert LinksOrdered(st.nodes, cur);
    match st.nodes[cur].firstChild
    case None =>
    case Some(fc) =>
      assert Children(st.nodes, cur)[|Children(st.nodes, cur)| - 1] == LastSibling(st.nodes, fc);
  }

  /**
   * `insert_char` starting a new text node: the node links to the current node as its parent, but
   * the link to it is written into the current node's first child (or into the first child of the
   * current node when it had none), so the current node's children become `[first, new]`: any
   * children after the first drop out of the chain.
   */
  lemma WithCharStartsText(st: ParserState, c: char)
    requires ValidState(st) && |st.stack| > 0
    requires !st.nodes[st.stack[|st.stack| - 1]].kind.Text? && !IsSpace(c)
    ensures var r := WithChar(st, c);
      var cur, h := st.stack[|st.stack| - 1], |st.nodes|;
      var first := st.nodes[cur].firstChild;
      |r.nodes| == h + 1 && r.stack == st.stack + [h] &&
      r.nodes[h].kind == NodeKind.Text([c]) && r.nodes[h].parent == Some(cur) &&
      r.nodes[cur].lastChild == Some(h) &&
      Children(r.nodes, cur) == (if first.None? then [h] else [first.value, h]) &&
      forall x :: 0 <= x < h && x != cur && (first.None? || x != first.value) ==>
        r.nodes[x] == st.nodes[x]
  {
    var r := WithChar(st, c);
    var cur, h := st.stack[|st.stack| - 1], |st.nodes|;
    assert LinksOrdered(st.nodes, cur) && LinksOrdered(r.nodes, h);
    assert SiblingChain(r.nodes, Some(h)) == [h];
  }

  /**
   * `insert_char` with no current node, or with a space or newline while the current node is not
   * a text node, leaves the parser state as it was.
   */
  lemma WithCharNoOp(st: ParserState, c: char)
    requires ValidState(st)
    ensures |st.stack| == 0 ==> WithChar(st, c) == st
    ensures |st.stack| > 0 && !st.nodes[st.stack[|st.stack| - 1]].kind.Text? && IsSpace(c) ==>
      WithChar(st, c) == st
  {
  }

  /** `insert_char` into a text node only extends that node's text. */
  lemma WithCharExtendsText(st: ParserState, c: char)
    requires ValidState(st) && |st.stack| > 0 && st.nodes[st.stack[|st.stack| - 1]].kind.Text?
    ensures var r := WithChar(st, c);
      var cur := st.stack[|st.stack| - 1];
      r.stack == st.stack && |r.nodes| == |st.nodes| &&
      r.nodes[cur].kind == NodeKind.Text(st.nodes[cur].kind.text + [c]) &&
      forall x :: 0 <= x < |st.nodes| && x != cur ==> r.nodes[x] == st.nodes[x]
  {
  }

  // ---------------------------------------------------------------------------------------------
  // The parser object

  /** What a pass of the loop tells `construct_tree` to do next. */
  datatype Outcome = Proceed(consume: bool) | Stop | Panic(error: ParseError)

  function OutcomeOf(s: Step): Outcome
  {
    match s
    case Continue(_, consume) => Proceed(consume)
    case Finish => Stop
    case Fail(e) => Panic(e)
  }

  /** The effect of a pass of the loop, as `ParseStep` (or a per-mode step) specifies it. */
  predicate Performs(s: Step, outcome: Outcome, before: ParserState, after: ParserState)
  {
    outcome == OutcomeOf(s) && (s.Continue? ==> after == s.next) && (s.Finish? ==> after == before)
  }

  class HtmlParser {
    const window: NodeArena
    const tokens: seq<HtmlToken>
    var mode: InsertionMode
    var originalInsertionMode: InsertionMode
    var stackOfOpenElements: seq<Handle>

    function State(): ParserState
      reads this, window
    {
      ParserState(window.nodes, stackOfOpenElements, mode, originalInsertionMode)
    }

    /** `HtmlParser::new`: the tokenizer is replaced by the tokens it produces. */
    constructor (tokens: seq<HtmlToken>)
      ensures State() == InitialState() && this.tokens == tokens
      ensures fresh(window)
    {
      this.tokens := tokens;
      window := new NodeArena();
      mode := Initial;
      originalInsertionMode := Initial;
      stackOfOpenElements := [];
    }

    /** `contain_in_stack`. */
    method ContainInStack(kind: E.ElementKind) returns (found: bool)
      requires ValidState(State())
      ensures found == InStack(State(), kind)
    {
      for i := 0 to |stackOfOpenElements|
        invariant forall j :: 0 <= j < i ==> ElementKindOf(window.nodes[stackOfOpenElements[j]]) != Some(kind)
      {
        if ElementKindOf(window.nodes[stackOfOpenElements[i]]) == Some(kind) {
          return true;
        }
      }
      return false;
    }

    /** `pop_until`; `ok` is false where the source's `assert!` fails, and then nothing changes. */
    method PopUntil(kind: E.ElementKind) returns (ok: bool)
      requires ValidState(State())
      modifies this
      ensures ok == PoppedUntil(old(State()), kind).Ok?
      ensures State() == if ok then PoppedUntil(old(State()), kind).value else old(State())
    {
      ok := ContainInStack(kind);
      if !ok {
        return;
      }
      while |stackOfOpenElements| > 0
        invariant ValidState(State()) && State() == old(State()).(stack := stackOfOpenElements)
        invariant PopUntilStack(window.nodes, stackOfOpenElements, kind) == PopUntilStack(window.nodes, old(stackOfOpenElements), kind)
        decreases |stackOfOpenElements|
      {
        var current := stackOfOpenElements[|stackOfOpenElements| - 1];
        stackOfOpenElements := stackOfOpenElements[..|stackOfOpenElements| - 1];
        if ElementKindOf(window.nodes[current]) == Some(kind) {
          return;
        }
      }
    }

    /** `pop_current_node`. */
    method PopCurrentNode(kind: E.ElementKind) returns (popped: bool)
      requires ValidState(State())
      modifies this
      ensures popped == TopIs(old(State()), kind)
      ensures State() == PoppedCurrent(old(State()), kind)
    {
      if |stackOfOpenElements| == 0 {
        return false;
      }
      var current := stackOfOpenElements[|stackOfOpenElements| - 1];
      if ElementKindOf(window.nodes[current]) == Some(kind) {
        stackOfOpenElements := stackOfOpenElements[..|stackOfOpenElements| - 1];
        return true;
      }
      return false;
    }

    /** `insert_char`. */
    method InsertChar(c: char)
      requires ValidState(State())
      modifies this, window
      ensures State() == WithChar(old(State()), c)
    {
      if |stackOfOpenElements| == 0 {
        return;
      }
      var current := stackOfOpenElements[|stackOfOpenElements| - 1];
      if window.nodes[current].kind.Text? {
        window.SetKind(current, NodeKind.Text(window.nodes[current].kind.text + [c]));
        return;
      }
      if c == '\n' || c == ' ' {
        return;
      }
      assert LinksOrdered(window.nodes, current);
      var node := window.Append(NodeKind.Text([c]));
      if window.nodes[current].firstChild.Some? {
        window.SetNextSibling(window.nodes[current].firstChild.value, Some(node));
      } else {
        window.SetFirstChild(current, Some(node));
      }
      window.SetLastChild(current, Some(node));
      window.SetParent(node, Some(current));
      stackOfOpenElements := stackOfOpenElements + [node];
    }

    /** `insert_element`, including its walk to the last sibling. */
    method InsertElement(tag: string, attributes: seq<E.Attribute>)
      requires ValidState(State()) && tag in E.SupportedNames
      modifies this, window
      ensures State() == WithElement(old(State()), tag, attributes)
    {
      var current := if |stackOfOpenElements| == 0 then DocumentHandle else stackOfOpenElements[|stackOfOpenElements| - 1];
      ghost var before := window.nodes;
      assert LinksOrdered(before, current);
      var node := window.Append(Element(E.NewElement(tag, attributes)));
      if window.nodes[current].firstChild.Some? {
        ghost var first := window.nodes[current].firstChild.value;
        var lastSibling := window.nodes[current].firstChild.value;
        while window.nodes[lastSibling].nextSibling.Some?
          invariant window.nodes == before + [NewNode(Element(E.NewElement(tag, attributes)))]
          invariant lastSibling < |before| && LastSibling(before, lastSibling) == LastSibling(before, first)
          decreases |before| - lastSibling
        {
          assert LinksOrdered(before, lastSibling);
          lastSibling := window.nodes[lastSibling].nextSibling.value;
        }
        window.SetNextSibling(lastSibling, Some(node));
        window.SetPreviousSibling(node, Some(lastSibling));
      } else {
        window.SetFirstChild(current, Some(node));
      }
      window.SetLastChild(current, Some(node));
      window.SetParent(node, Some(current));
      stackOfOpenElements := stackOfOpenElements + [node];
    }

    method InitialMode(tok: HtmlToken) returns (outcome: Outcome)
      requires ValidState(State()) && mode == Initial
      modifies this
      ensures Performs(InitialStep(old(State()), tok), outcome, old(State()), State())
    {
      if tok.Char? {
        return Proceed(true);
      }
      mode := BeforeHtml;
      return Proceed(false);
    }

    method BeforeHtmlMode(tok: HtmlToken) returns (outcome: Outcome)
      requires ValidState(State()) && mode == BeforeHtml
      modifies this, window
      ensures Performs(BeforeHtmlStep(old(State()), tok), outcome, old(State()), State())
    {
      if tok.Eof? {
        return Stop;
      }
      if tok.Char? && (tok.c == ' ' || tok.c == '\n') {
        return Proceed(true);
      }
      if tok.EndTag? {
        var tag := tok.tag;
        if tag != "head" || tag != "body" || tag != "html" || tag != "br" {
          return Proceed(true);
        }
      }
      if tok.StartTag? && tok.tag == "html" {
        InsertElement(tok.tag, tok.attributes);
        mode := BeforeHead;
        return Proceed(true);
      }
      InsertElement("html", []);
      mode := BeforeHead;
      return Proceed(false);
    }

    method BeforeHeadMode(tok: HtmlToken) returns (outcome: Outcome)
      requires ValidState(State()) && mode == BeforeHead
      modifies this, window
      ensures Performs(BeforeHeadStep(old(State()), tok), outcome, old(State()), State())
    {
      if tok.Eof? {
        return Stop;
      }
      if tok.Char? && (tok.c == ' ' || tok.c == '\n') {
        return Proceed(true);
      }
      if tok.StartTag? && tok.tag == "head" {
        InsertElement(tok.tag, tok.attributes);
        mode := InHead;
        return Proceed(true);
      }
      InsertElement("head", []);
      mode := InHead;
      return Proceed(false);
    }

    method InHeadMode(tok: HtmlToken) returns (outcome: Outcome)
      requires ValidState(State()) && mode == InHead
      modifies this, window
      ensures Performs(InHeadStep(old(State()), tok), outcome, old(State()), State())
    {
      match tok
      case Eof =>
        return Stop;
      case Char(c) =>
        if c == ' ' || c == '\n' {
          InsertChar(c);
        }
        return Proceed(true);
      case StartTag(tag, _, attributes) =>
        if tag == "style" || tag == "script" {
          InsertElement(tag, attributes);
          originalInsertionMode := mode;
          mode := InsertionMode.Text;
          return Proceed(true);
        }
        if tag == "body" || E.KindFromStr(tag).Ok? {
          var ok := PopUntil(E.Head);
          mode := AfterHead;
          return if ok then Proceed(false) else Panic(NotInStack(E.Head));
        }
        return Proceed(true);
      case EndTag(tag) =>
        if tag == "head" {
          mode := AfterHead;
          var ok := PopUntil(E.Head);
          return if ok then Proceed(true) else Panic(NotInStack(E.Head));
        }
        return Proceed(true);
    }

    method AfterHeadMode(tok: HtmlToken) returns (outcome: Outcome)
      requires ValidState(State()) && mode == AfterHead
      modifies this, window
      ensures Performs(AfterHeadStep(old(State()), tok), outcome, old(State()), State())
    {
      if tok.Eof? {
        return Stop;
      }
      if tok.Char? && (tok.c == ' ' || tok.c == '\n') {
        InsertChar(tok.c);
        return Proceed(true);
      }
      if tok.StartTag? && tok.tag == "body" {
        InsertElement(tok.tag, tok.attributes);
        mode := InBody;
        return Proceed(true);
      }
      InsertElement("body", []);
      mode := InBody;
      return Proceed(false);
    }

    method InBodyMode(tok: HtmlToken) returns (outcome: Outcome)
      requires ValidState(State()) && mode == InBody
      modifies this, window
      ensures Performs(InBodyStep(old(State()), tok), outcome, old(State()), State())
    {
      match tok
      case Eof =>
        return Stop;
      case Char(c) =>
        InsertChar(c);
        return Proceed(true);
      case StartTag(tag, _, attributes) =>
        if tag == "p" || tag == "h1" || tag == "h2" || tag == "a" {
          InsertElement(tag, attributes);
        }
        return Proceed(true);
      case EndTag(tag) =>
        if tag == "body" {
          mode := AfterBody;
          var open := ContainInStack(E.Body);
          if !open {
            return Proceed(true);
          }
          var ok := PopUntil(E.Body);
          return if ok then Proceed(true) else Panic(NotInStack(E.Body));
        }
        if tag == "html" {
          var popped := PopCurrentNode(E.Body);
          if popped {
            mode := AfterBody;
            var poppedHtml := PopCurrentNode(E.Html);
            return if poppedHtml then Proceed(false) else Panic(HtmlNotCurrent);
          }
          return Proceed(true);
        }
        if tag == "p" || tag == "h1" || tag == "h2" || tag == "a" {
          var kind := E.KindFromStr(tag).value;
          var ok := PopUntil(kind);
          return if ok then Proceed(true) else Panic(NotInStack(kind));
        }
        return Proceed(true);
    }

    method TextMode(tok: HtmlToken) returns (outcome: Outcome)
      requires ValidState(State()) && mode == InsertionMode.Text
      modifies this, window
      ensures Performs(TextStep(old(State()), tok), outcome, old(State()), State())
    {
      match tok
      case Eof =>
        return Stop;
      case EndTag(tag) =>
        var ok := true;
        if tag == "style" {
          ok := PopUntil(E.Style);
        } else if tag == "script" {
          ok := PopUntil(E.Script);
        }
        mode := originalInsertionMode;
        return if ok then Proceed(true) else Panic(NotInStack(if tag == "style" then E.Style else E.Script));
      case Char(c) =>
        InsertChar(c);
        return Proceed(true);
      case StartTag(_, _, _) =>
        mode := originalInsertionMode;
        return Proceed(false);
    }

    method AfterBodyMode(tok: HtmlToken) returns (outcome: Outcome)
      requires ValidState(State()) && mode == AfterBody
      modifies this
      ensures Performs(AfterBodyStep(old(State()), tok), outcome, old(State()), State())
    {
      if tok.Eof? {
        return Stop;
      }
      if tok.Char? {
        return Proceed(true);
      }
      if tok.EndTag? && tok.tag == "html" {
        mode := AfterAfterBody;
        return Proceed(true);
      }
      mode := InBody;
      return Proceed(false);
    }

    method AfterAfterBodyMode(tok: HtmlToken) returns (outcome: Outcome)
      requires ValidState(State()) && mode == AfterAfterBody
      modifies this
      ensures Performs(AfterAfterBodyStep(old(State()), tok), outcome, old(State()), State())
    {
      if tok.Eof? {
        return Stop;
      }
      if tok.Char? {
        return Proceed(true);
      }
      mode := InBody;
      return Proceed(false);
    }

    /** One pass of the loop of `construct_tree`: the `match self.mode`. */
    method ProcessToken(tok: HtmlToken) returns (outcome: Outcome)
      requires ValidState(State())
      modifies this, window
      ensures Performs(ParseStep(old(State()), tok), outcome, old(State()), State())
    {
      match mode
      case Initial => outcome := InitialMode(tok);
      case BeforeHtml => outcome := BeforeHtmlMode(tok);
      case BeforeHead => outcome := BeforeHeadMode(tok);
      case InHead => outcome := InHeadMode(tok);
      case AfterHead => outcome := AfterHeadMode(tok);
      case InBody => outcome := InBodyMode(tok);
      case Text => outcome := TextMode(tok);
      case AfterBody => outcome := AfterBodyMode(tok);
      case AfterAfterBody => outcome := AfterAfterBodyMode(tok);
    }

    /**
     * `construct_tree`: runs the state machine over the tokens and returns the window, or the
     * panic that stops it.
     */
    method ConstructTree() returns (result: Result<NodeArena, ParseError>)
      requires ValidState(State())
      modifies this, window
      ensures var spec := Run(old(State()), tokens, 0);
        result.Ok? == spec.Ok? && (spec.Ok? ==> result.value == window && State() == spec.value) &&
        (spec.Err? ==> result == Err(spec.error))
    {
      var i := 0;
      while i < |tokens|
        invariant i <= |tokens| && ValidState(State())
        invariant Run(State(), tokens, i) == Run(old(State()), tokens, 0)
        decreases |tokens| - i, Rank(mode, if i < |tokens| then tokens[i] else Eof)
      {
        ghost var step := ParseStep(State(), tokens[i]);
        RunStep(State(), tokens, i);
        var outcome := ProcessToken(tokens[i]);
        match outcome
        case Stop =>
          return Ok(window);
        case Panic(e) =>
          return Err(e);
        case Proceed(consume) =>
          assert step.Continue? && State() == step.next && consume == step.consume;
          if consume {
            i := i + 1;
          }
      }
      return Ok(window);
    }
  }
}
