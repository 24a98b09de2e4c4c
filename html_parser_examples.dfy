/** The tree-construction examples of html/parser.rs, as properties of `BuildTree`. */
module HtmlParserExamples {
  import opened Wrappers
  import E = DomElement
  import opened DomNode
  import opened HtmlParser

  function Open(tag: string): HtmlToken
  {
    StartTag(tag, false, [])
  }

  /** An element node without attributes. */
  function El(k: E.ElementKind, parent: Option<Handle>, first: Option<Handle>, last: Option<Handle>,
              prev: Option<Handle>, next: Option<Handle>): Node
  {
    Node(Element(E.Element(k, [])), parent, first, last, prev, next)
  }

  function TextNode(s: string, parent: Handle): Node
  {
    Node(NodeKind.Text(s), Some(parent), None, None, None, None)
  }

  /** The tokens of `<html><head></head><body>` followed by `rest`. */
  function Skeleton(rest: seq<HtmlToken>): seq<HtmlToken>
  {
    [Open("html"), Open("head"), EndTag("head"), Open("body")] + rest
  }

  function Doc(): Node
  {
    Node(Document, None, Some(1), Some(1), None, None)
  }

  // The states the parser passes through on `<html><head></head><body>`.

  function AfterHtml(): ParserState
  {
    ParserState([Doc(), El(E.Html, Some(0), None, None, None, None)], [1], BeforeHead, Initial)
  }

  function AfterHeadOpen(): ParserState
  {
    ParserState([Doc(), El(E.Html, Some(0), Some(2), Some(2), None, None), El(E.Head, Some(1), None, None, None, None)],
                [1, 2], InHead, Initial)
  }

  function AfterHeadClose(): ParserState
  {
    AfterHeadOpen().(stack := [1], mode := AfterHead)
  }

  function SkeletonNodes(): seq<Node>
  {
    [Doc(), El(E.Html, Some(0), Some(2), Some(3), None, None),
     El(E.Head, Some(1), None, None, None, Some(3)), El(E.Body, Some(1), None, None, Some(2), None)]
  }

  function InBodyOpen(): ParserState
  {
    ParserState(SkeletonNodes(), [1, 3], InBody, Initial)
  }

  lemma AfterHtmlValid()
    ensures ValidState(AfterHtml())
  {
    assert LinksOrdered(AfterHtml().nodes, 0) && LinksOrdered(AfterHtml().nodes, 1);
  }

  lemma AfterHeadOpenValid()
    ensures ValidState(AfterHeadOpen()) && ValidState(AfterHeadClose())
  {
    var n := AfterHeadOpen().nodes;
    assert LinksOrdered(n, 0) && LinksOrdered(n, 1) && LinksOrdered(n, 2);
  }

  lemma InBodyOpenValid()
    ensures ValidState(InBodyOpen())
  {
    var m := SkeletonNodes();
    assert LinksOrdered(m, 0) && LinksOrdered(m, 1) && LinksOrdered(m, 2) && LinksOrdered(m, 3);
  }

  lemma SkeletonStatesValid()
    ensures ValidState(AfterHtml()) && ValidState(AfterHeadOpen()) && ValidState(InBodyOpen())
  {
    AfterHtmlValid();
    AfterHeadOpenValid();
    InBodyOpenValid();
  }

  lemma RunSteps(st: ParserState, t: seq<HtmlToken>, i: nat, next: ParserState, consume: bool)
    requires ValidState(st) && i < |t| && ParseStep(st, t[i]) == Continue(next, consume)
    ensures Run(st, t, i) == Run(next, t, if consume then i + 1 else i)
  {
  }

  // One lemma per token of `<html><head></head><body>`: what the token does, then the run over it.

  lemma SkeletonParse0()
    ensures ParseStep(InitialState(), Open("html")) == Continue(InitialState().(mode := BeforeHtml), false)
  {
  }

  lemma SkeletonParse1()
    ensures ValidState(InitialState().(mode := BeforeHtml))
    ensures ParseStep(InitialState().(mode := BeforeHtml), Open("html")) == Continue(AfterHtml(), true)
  {
    assert WithElement(InitialState().(mode := BeforeHtml), "html", []).(mode := BeforeHead) == AfterHtml();
  }

  lemma SkeletonParse2()
    ensures ValidState(AfterHtml())
    ensures ParseStep(AfterHtml(), Open("head")) == Continue(AfterHeadOpen(), true)
  {
    AfterHtmlValid();
    assert WithElement(AfterHtml(), "head", []).(mode := InHead) == AfterHeadOpen();
  }

  lemma SkeletonParse3()
    ensures ValidState(AfterHeadOpen())
    ensures ParseStep(AfterHeadOpen(), EndTag("head")) == Continue(AfterHeadClose(), true)
  {
    AfterHeadOpenValid();
    assert ElementKindOf(AfterHeadOpen().nodes[AfterHeadOpen().stack[1]]) == Some(E.Head);
  }

  lemma SkeletonParse4()
    ensures ValidState(AfterHeadClose())
    ensures ParseStep(AfterHeadClose(), Open("body")) == Continue(InBodyOpen(), true)
  {
    AfterHeadOpenValid();
    assert WithElement(AfterHeadClose(), "body", []).(mode := InBody) == InBodyOpen();
  }

  lemma SkeletonStep0(t: seq<HtmlToken>)
    requires 0 < |t| && t[0] == Open("html")
    ensures Run(InitialState(), t, 0) == Run(InitialState().(mode := BeforeHtml), t, 0)
  {
    SkeletonParse0();
    RunSteps(InitialState(), t, 0, InitialState().(mode := BeforeHtml), false);
  }

  lemma SkeletonStep1(t: seq<HtmlToken>)
    requires 0 < |t| && t[0] == Open("html")
    ensures ValidState(InitialState().(mode := BeforeHtml))
    ensures Run(InitialState().(mode := BeforeHtml), t, 0) == Run(AfterHtml(), t, 1)
  {
    SkeletonParse1();
    RunSteps(InitialState().(mode := BeforeHtml), t, 0, AfterHtml(), true);
  }

  lemma SkeletonStep2(t: seq<HtmlToken>)
    requires 1 < |t| && t[1] == Open("head")
    ensures ValidState(AfterHtml())
    ensures Run(AfterHtml(), t, 1) == Run(AfterHeadOpen(), t, 2)
  {
    SkeletonParse2();
    RunSteps(AfterHtml(), t, 1, AfterHeadOpen(), true);
  }

  lemma SkeletonStep3(t: seq<HtmlToken>)
    requires 2 < |t| && t[2] == EndTag("head")
    ensures ValidState(AfterHeadOpen())
    ensures Run(AfterHeadOpen(), t, 2) == Run(AfterHeadClose(), t, 3)
  {
    SkeletonParse3();
    RunSteps(AfterHeadOpen(), t, 2, AfterHeadClose(), true);
  }

  lemma SkeletonStep4(t: seq<HtmlToken>)
    requires 3 < |t| && t[3] == Open("body")
    ensures ValidState(AfterHeadClose())
    ensures Run(AfterHeadClose(), t, 3) == Run(InBodyOpen(), t, 4)
  {
    SkeletonParse4();
    RunSteps(AfterHeadClose(), t, 3, InBodyOpen(), true);
  }

  /** `<html><head></head><body>` leaves `html` and `body` open, in mode `InBody`. */
  lemma SkeletonRun(t: seq<HtmlToken>)
    requires 4 <= |t| && t[0] == Open("html") && t[1] == Open("head") && t[2] == EndTag("head") && t[3] == Open("body")
    ensures ValidState(InBodyOpen())
    ensures Run(InitialState(), t, 0) == Run(InBodyOpen(), t, 4)
  {
    SkeletonStatesValid();
    SkeletonStep0(t);
    SkeletonStep1(t);
    SkeletonStep2(t);
    SkeletonStep3(t);
    SkeletonStep4(t);
  }

  /** `test_empty`: no tokens leave the bare Document. */
  lemma EmptyDocument()
    ensures BuildTree([]) == Ok([NewNode(Document)])
    ensures BuildTree([Eof]) == Ok([NewNode(Document)])
  {
  }

  /**
   * `</body></html>` as the last two tokens, with the body open in mode `InBody`: the stack is popped
   * to below the body and the run ends in `AfterAfterBody`.
   */
  lemma CloseBodyHtml(st: ParserState, t: seq<HtmlToken>, below: seq<Handle>)
    requires ValidState(st) && st.mode == InBody && 2 <= |t|
    requires t[|t| - 2] == EndTag("body") && t[|t| - 1] == EndTag("html")
    requires InStack(st, E.Body) && PopUntilStack(st.nodes, st.stack, E.Body) == below
    ensures ValidState(st.(stack := below, mode := AfterBody))
    ensures Run(st, t, |t| - 2) == Ok(st.(stack := below, mode := AfterAfterBody))
  {
    var after := st.(stack := below, mode := AfterBody);
    assert ParseStep(st, EndTag("body")) == Continue(after, true);
    RunSteps(st, t, |t| - 2, after, true);
    assert ParseStep(after, EndTag("html")) == Continue(after.(mode := AfterAfterBody), true);
    RunSteps(after, t, |t| - 1, after.(mode := AfterAfterBody), true);
  }

  /** In `InBodyOpen()` the body is on the stack, and popping to it leaves only html. */
  lemma InBodyOpenBody()
    ensures ValidState(InBodyOpen()) && InStack(InBodyOpen(), E.Body)
    ensures PopUntilStack(InBodyOpen().nodes, InBodyOpen().stack, E.Body) == [1]
  {
    InBodyOpenValid();
    var st := InBodyOpen();
    assert ElementKindOf(st.nodes[st.stack[1]]) == Some(E.Body);
  }

  /** `test_body`: the Document's child is html, whose children are head then body. */
  lemma BodyDocument()
    ensures BuildTree(Skeleton([EndTag("body"), EndTag("html")])) == Ok(SkeletonNodes())
    ensures Children(SkeletonNodes(), 0) == [1] && Children(SkeletonNodes(), 1) == [2, 3]
  {
    var t := Skeleton([EndTag("body"), EndTag("html")]);
    assert |t| == 6 && t[0] == Open("html") && t[1] == Open("head") && t[2] == EndTag("head") && t[3] == Open("body");
    assert t[4] == EndTag("body") && t[5] == EndTag("html");
    InBodyOpenBody();
    SkeletonRun(t);
    CloseBodyHtml(InBodyOpen(), t, [1]);
    SkeletonChildren();
  }

  lemma SkeletonChildren()
    ensures Children(SkeletonNodes(), 0) == [1] && Children(SkeletonNodes(), 1) == [2, 3]
  {
    InBodyOpenValid();
    assert SiblingChain(SkeletonNodes(), Some(3)) == [3];
  }

  // The states after `<body>` on `test`.

  function BodyWithText(s: string): seq<Node>
  {
    SkeletonNodes()[3 := El(E.Body, Some(1), Some(4), Some(4), Some(2), None)] + [TextNode(s, 3)]
  }

  function InText(s: string): ParserState
  {
    ParserState(BodyWithText(s), [1, 3, 4], InBody, Initial)
  }

  lemma InTextValid(s: string)
    ensures ValidState(InText(s))
  {
    var n := BodyWithText(s);
    assert LinksOrdered(n, 0) && LinksOrdered(n, 1) && LinksOrdered(n, 2) && LinksOrdered(n, 3) && LinksOrdered(n, 4);
  }

  /** A character in the body appends to the open text node. */
  lemma ExtendText(s: string, c: char)
    ensures ValidState(InText(s))
    ensures ParseStep(InText(s), Char(c)) == Continue(InText(s + [c]), true)
  {
    InTextValid(s);
    assert WithChar(InText(s), c) == InText(s + [c]);
  }

  lemma StartText(c: char)
    requires !IsSpace(c)
    ensures ValidState(InBodyOpen())
    ensures ParseStep(InBodyOpen(), Char(c)) == Continue(InText([c]), true)
  {
    InBodyOpenValid();
    InTextValid([c]);
    assert WithChar(InBodyOpen(), c) == InText([c]);
  }

  /** The first character of the body's text, read at position `i`. */
  lemma StartTextAt(c: char, t: seq<HtmlToken>, i: nat)
    requires !IsSpace(c) && i < |t| && t[i] == Char(c)
    ensures ValidState(InBodyOpen())
    ensures Run(InBodyOpen(), t, i) == Run(InText([c]), t, i + 1)
  {
    StartText(c);
    RunSteps(InBodyOpen(), t, i, InText([c]), true);
  }

  /** A further character of the body's text, read at position `i`. */
  lemma ExtendTextAt(s: string, c: char, t: seq<HtmlToken>, i: nat)
    requires i < |t| && t[i] == Char(c)
    ensures ValidState(InText(s))
    ensures Run(InText(s), t, i) == Run(InText(s + [c]), t, i + 1)
  {
    ExtendText(s, c);
    RunSteps(InText(s), t, i, InText(s + [c]), true);
  }

  /** With the text node open, the body is on the stack, and popping to it leaves only html. */
  lemma InTextBody(s: string)
    ensures ValidState(InText(s)) && InStack(InText(s), E.Body)
    ensures PopUntilStack(InText(s).nodes, InText(s).stack, E.Body) == [1]
  {
    InTextValid(s);
    var st := InText(s);
    assert ElementKindOf(st.nodes[st.stack[1]]) == Some(E.Body);
    assert ElementKindOf(st.nodes[st.stack[2]]) == None;
    assert PopUntilStack(st.nodes, [1, 3, 4], E.Body) == [1];
  }

  lemma TextChildren()
    ensures Children(BodyWithText("test"), 1) == [2, 3] && Children(BodyWithText("test"), 3) == [4]
  {
    var n := BodyWithText("test");
    InTextValid("test");
    assert LinksOrdered(n, 1) && LinksOrdered(n, 2) && LinksOrdered(n, 3) && LinksOrdered(n, 4);
    assert SiblingChain(n, Some(4)) == [4];
    assert SiblingChain(n, Some(3)) == [3];
  }

  function TextTokens(): seq<HtmlToken>
  {
    Skeleton([Char('t'), Char('e'), Char('s'), Char('t'), EndTag("body"), EndTag("html")])
  }

  lemma TextCharacters(t: seq<HtmlToken>)
    requires 8 <= |t| && t[4] == Char('t') && t[5] == Char('e') && t[6] == Char('s') && t[7] == Char('t')
    ensures ValidState(InBodyOpen()) && ValidState(InText("test"))
    ensures Run(InBodyOpen(), t, 4) == Run(InText("test"), t, 8)
  {
    assert "t" + ['e'] == "te" && "te" + ['s'] == "tes" && "tes" + ['t'] == "test";
    StartTextAt('t', t, 4);
    ExtendTextAt("t", 'e', t, 5);
    ExtendTextAt("te", 's', t, 6);
    ExtendTextAt("tes", 't', t, 7);
    InTextValid("test");
  }

  lemma TextClosing(t: seq<HtmlToken>)
    requires |t| == 10 && t[8] == EndTag("body") && t[9] == EndTag("html")
    ensures ValidState(InText("test"))
    ensures Run(InText("test"), t, 8) == Ok(InText("test").(stack := [1], mode := AfterAfterBody))
  {
    InTextBody("test");
    CloseBodyHtml(InText("test"), t, [1]);
  }

  /** `test_text`: characters in the body become one text node, the body's only child. */
  lemma TextDocument()
    ensures var r := BuildTree(TextTokens());
      r == Ok(BodyWithText("test")) &&
      Children(r.value, 1) == [2, 3] && Children(r.value, 3) == [4] && r.value[4].kind == NodeKind.Text("test")
  {
    var t := TextTokens();
    assert |t| == 10 && t[0] == Open("html") && t[1] == Open("head") && t[2] == EndTag("head") && t[3] == Open("body");
    assert t[4] == Char('t') && t[5] == Char('e') && t[6] == Char('s') && t[7] == Char('t');
    assert t[8] == EndTag("body") && t[9] == EndTag("html");
    SkeletonRun(t);
    TextCharacters(t);
    TextClosing(t);
    TextChildren();
  }

  /** `</p>` in the body of `<html><head></head><body>`, where no `p` is open. */
  lemma UnopenedEndTag()
    ensures ValidState(InBodyOpen())
    ensures ParseStep(InBodyOpen(), EndTag("p")) == Fail(NotInStack(E.P))
  {
    InBodyOpenValid();
    var st := InBodyOpen();
    assert !InStack(st, E.P) by {
      assert forall j :: 0 <= j < 2 ==> ElementKindOf(st.nodes[st.stack[j]]) != Some(E.P);
    }
    assert E.KindFromStr("p") == Ok(E.P);
  }

  lemma UnopenedEndTagAt(t: seq<HtmlToken>, i: nat)
    requires i < |t| && t[i] == EndTag("p")
    ensures ValidState(InBodyOpen())
    ensures Run(InBodyOpen(), t, i) == Err(NotInStack(E.P))
  {
    UnopenedEndTag();
  }

  /** `<body></p>`: closing an element that is not open is the source's `pop_until` panic. */
  lemma UnopenedEndTagFails()
    ensures BuildTree(Skeleton([EndTag("p")])) == Err(NotInStack(E.P))
  {
    var t := Skeleton([EndTag("p")]);
    assert |t| == 5 && t[0] == Open("html") && t[1] == Open("head") && t[2] == EndTag("head") && t[3] == Open("body");
    assert t[4] == EndTag("p");
    SkeletonRun(t);
    UnopenedEndTagAt(t, 4);
  }

  // `test_style`: `<html><head><style>test</style></head><body></body></html>`.

  function StyleTokens(): seq<HtmlToken>
  {
    [Open("html"), Open("head"), Open("style"), Char('t'), Char('e'), Char('s'), Char('t'),
     EndTag("style"), EndTag("head"), Open("body"), EndTag("body"), EndTag("html")]
  }

  /** After `<style>`: the style element is open below the head, in mode `Text` with `InHead` saved. */
  function StyleOpen(): ParserState
  {
    ParserState([Doc(), El(E.Html, Some(0), Some(2), Some(2), None, None), El(E.Head, Some(1), Some(3), Some(3), None, None),
                 El(E.Style, Some(2), None, None, None, None)], [1, 2, 3], InsertionMode.Text, InHead)
  }

  /** Inside the style element, with the text `s` read so far. */
  function InStyle(s: string): ParserState
  {
    ParserState(StyleOpen().nodes[3 := El(E.Style, Some(2), Some(4), Some(4), None, None)] + [TextNode(s, 3)],
                [1, 2, 3, 4], InsertionMode.Text, InHead)
  }

  function StyleDom(): seq<Node>
  {
    [Doc(), El(E.Html, Some(0), Some(2), Some(5), None, None), El(E.Head, Some(1), Some(3), Some(3), None, Some(5)),
     El(E.Style, Some(2), Some(4), Some(4), None, None), TextNode("test", 3), El(E.Body, Some(1), None, None, Some(2), None)]
  }

  function StyleBodyOpen(): ParserState
  {
    ParserState(StyleDom(), [1, 5], InBody, InHead)
  }

  lemma StyleOpenValid()
    ensures ValidState(StyleOpen())
  {
    var n := StyleOpen().nodes;
    assert LinksOrdered(n, 0) && LinksOrdered(n, 1) && LinksOrdered(n, 2) && LinksOrdered(n, 3);
  }

  lemma InStyleValid(s: string)
    ensures ValidState(InStyle(s))
    ensures ValidState(InStyle(s).(stack := [1, 2], mode := InHead))
    ensures ValidState(InStyle(s).(stack := [1], mode := AfterHead))
  {
    var m := InStyle(s).nodes;
    assert LinksOrdered(m, 0) && LinksOrdered(m, 1) && LinksOrdered(m, 2) && LinksOrdered(m, 3) && LinksOrdered(m, 4);
  }

  lemma StyleBodyOpenValid()
    ensures ValidState(StyleBodyOpen())
  {
    var d := StyleDom();
    assert LinksOrdered(d, 0) && LinksOrdered(d, 1) && LinksOrdered(d, 2) && LinksOrdered(d, 3) && LinksOrdered(d, 4) && LinksOrdered(d, 5);
  }

  /** `<style>` in the head opens the element and switches to `Text`, saving `InHead`. */
  lemma StyleStart()
    ensures ValidState(AfterHeadOpen())
    ensures ParseStep(AfterHeadOpen(), Open("style")) == Continue(StyleOpen(), true)
  {
    AfterHeadOpenValid();
    assert WithElement(AfterHeadOpen(), "style", []).(original := InHead, mode := InsertionMode.Text) == StyleOpen();
  }

  lemma StyleFirstChar()
    ensures ValidState(StyleOpen())
    ensures ParseStep(StyleOpen(), Char('t')) == Continue(InStyle("t"), true)
  {
    StyleOpenValid();
    InStyleValid("t");
    assert WithChar(StyleOpen(), 't') == InStyle("t");
  }

  lemma StyleMoreText(s: string, c: char)
    ensures ValidState(InStyle(s))
    ensures ParseStep(InStyle(s), Char(c)) == Continue(InStyle(s + [c]), true)
  {
    InStyleValid(s);
    InStyleValid(s + [c]);
    assert WithChar(InStyle(s), c) == InStyle(s + [c]);
  }

  /** `</style>` pops the text node and the style element, and returns to `InHead`. */
  lemma StyleEnd()
    ensures ValidState(InStyle("test"))
    ensures ParseStep(InStyle("test"), EndTag("style")) == Continue(InStyle("test").(stack := [1, 2], mode := InHead), true)
  {
    InStyleValid("test");
    var st := InStyle("test");
    assert ElementKindOf(st.nodes[st.stack[2]]) == Some(E.Style);
    assert ElementKindOf(st.nodes[st.stack[3]]) == None;
    assert PopUntilStack(st.nodes, [1, 2, 3, 4], E.Style) == [1, 2];
  }

  lemma StyleHeadEnd()
    ensures ValidState(InStyle("test").(stack := [1, 2], mode := InHead))
    ensures ParseStep(InStyle("test").(stack := [1, 2], mode := InHead), EndTag("head"))
      == Continue(InStyle("test").(stack := [1], mode := AfterHead), true)
  {
    InStyleValid("test");
    var st := InStyle("test").(stack := [1, 2], mode := InHead);
    assert ElementKindOf(st.nodes[st.stack[1]]) == Some(E.Head);
  }

  /** `<body>` after the head becomes the head's next sibling. */
  lemma StyleBody()
    ensures ValidState(InStyle("test").(stack := [1], mode := AfterHead))
    ensures ParseStep(InStyle("test").(stack := [1], mode := AfterHead), Open("body")) == Continue(StyleBodyOpen(), true)
  {
    InStyleValid("test");
    StyleBodyOpenValid();
    var st := InStyle("test").(stack := [1], mode := AfterHead);
    assert SiblingChain(st.nodes, Some(2)) == [2];
    assert LastSibling(st.nodes, 2) == 2;
    assert WithElement(st, "body", []).(mode := InBody) == StyleBodyOpen();
  }

  /** In `StyleBodyOpen()` the body is on the stack, and popping to it leaves only html. */
  lemma StyleBodyOpenBody()
    ensures ValidState(StyleBodyOpen()) && InStack(StyleBodyOpen(), E.Body)
    ensures PopUntilStack(StyleBodyOpen().nodes, StyleBodyOpen().stack, E.Body) == [1]
  {
    StyleBodyOpenValid();
    var st := StyleBodyOpen();
    assert ElementKindOf(st.nodes[st.stack[1]]) == Some(E.Body);
  }

  // The same steps as runs over any token sequence holding the token at position `i`.

  lemma StyleStartAt(t: seq<HtmlToken>, i: nat)
    requires i < |t| && t[i] == Open("style")
    ensures ValidState(AfterHeadOpen())
    ensures Run(AfterHeadOpen(), t, i) == Run(StyleOpen(), t, i + 1)
  {
    StyleStart();
    RunSteps(AfterHeadOpen(), t, i, StyleOpen(), true);
  }

  lemma StyleFirstCharAt(t: seq<HtmlToken>, i: nat)
    requires i < |t| && t[i] == Char('t')
    ensures ValidState(StyleOpen())
    ensures Run(StyleOpen(), t, i) == Run(InStyle("t"), t, i + 1)
  {
    StyleFirstChar();
    RunSteps(StyleOpen(), t, i, InStyle("t"), true);
  }

  /** One character of the style's text, read at position `i`. */
  lemma StyleCharAt(s: string, c: char, t: seq<HtmlToken>, i: nat)
    requires i < |t| && t[i] == Char(c)
    ensures ValidState(InStyle(s)) && ValidState(InStyle(s + [c]))
    ensures Run(InStyle(s), t, i) == Run(InStyle(s + [c]), t, i + 1)
  {
    StyleMoreText(s, c);
    InStyleValid(s + [c]);
    RunSteps(InStyle(s), t, i, InStyle(s + [c]), true);
  }

  lemma StyleEndAt(t: seq<HtmlToken>, i: nat)
    requires i < |t| && t[i] == EndTag("style")
    ensures ValidState(InStyle("test"))
    ensures Run(InStyle("test"), t, i) == Run(InStyle("test").(stack := [1, 2], mode := InHead), t, i + 1)
  {
    StyleEnd();
    RunSteps(InStyle("test"), t, i, InStyle("test").(stack := [1, 2], mode := InHead), true);
  }

  lemma StyleHeadEndAt(t: seq<HtmlToken>, i: nat)
    requires i < |t| && t[i] == EndTag("head")
    ensures ValidState(InStyle("test").(stack := [1, 2], mode := InHead))
    ensures Run(InStyle("test").(stack := [1, 2], mode := InHead), t, i) == Run(InStyle("test").(stack := [1], mode := AfterHead), t, i + 1)
  {
    StyleHeadEnd();
    RunSteps(InStyle("test").(stack := [1, 2], mode := InHead), t, i, InStyle("test").(stack := [1], mode := AfterHead), true);
  }

  lemma StyleBodyAt(t: seq<HtmlToken>, i: nat)
    requires i < |t| && t[i] == Open("body")
    ensures ValidState(InStyle("test").(stack := [1], mode := AfterHead))
    ensures Run(InStyle("test").(stack := [1], mode := AfterHead), t, i) == Run(StyleBodyOpen(), t, i + 1)
  {
    StyleBody();
    RunSteps(InStyle("test").(stack := [1], mode := AfterHead), t, i, StyleBodyOpen(), true);
  }

  lemma StyleHead(t: seq<HtmlToken>)
    requires 2 <= |t| && t[0] == Open("html") && t[1] == Open("head")
    ensures ValidState(AfterHeadOpen())
    ensures Run(InitialState(), t, 0) == Run(AfterHeadOpen(), t, 2)
  {
    SkeletonStatesValid();
    SkeletonStep0(t);
    SkeletonStep1(t);
    SkeletonStep2(t);
  }

  lemma StyleText(t: seq<HtmlToken>)
    requires 7 <= |t| && t[2] == Open("style") && t[3] == Char('t') && t[4] == Char('e') && t[5] == Char('s') && t[6] == Char('t')
    ensures ValidState(AfterHeadOpen()) && ValidState(InStyle("test"))
    ensures Run(AfterHeadOpen(), t, 2) == Run(InStyle("test"), t, 7)
  {
    assert "t" + ['e'] == "te" && "te" + ['s'] == "tes" && "tes" + ['t'] == "test";
    StyleStartAt(t, 2);
    StyleFirstCharAt(t, 3);
    StyleCharAt("t", 'e', t, 4);
    StyleCharAt("te", 's', t, 5);
    StyleCharAt("tes", 't', t, 6);
  }

  lemma StyleClosing(t: seq<HtmlToken>)
    requires |t| == 12 && t[7] == EndTag("style") && t[8] == EndTag("head") && t[9] == Open("body")
    requires t[10] == EndTag("body") && t[11] == EndTag("html")
    ensures ValidState(InStyle("test"))
    ensures Run(InStyle("test"), t, 7) == Ok(StyleBodyOpen().(stack := [1], mode := AfterAfterBody))
  {
    StyleEndAt(t, 7);
    StyleHeadEndAt(t, 8);
    StyleBodyAt(t, 9);
    StyleBodyOpenBody();
    CloseBodyHtml(StyleBodyOpen(), t, [1]);
  }

  lemma StyleChildren()
    ensures ValidArena(StyleDom())
    ensures Children(StyleDom(), 0) == [1] && Children(StyleDom(), 1) == [2, 5]
    ensures Children(StyleDom(), 2) == [3] && Children(StyleDom(), 3) == [4]
  {
    StyleBodyOpenValid();
    var d := StyleDom();
    assert LinksOrdered(d, 0) && LinksOrdered(d, 1) && LinksOrdered(d, 2) && LinksOrdered(d, 3) && LinksOrdered(d, 4) && LinksOrdered(d, 5);
    assert SiblingChain(d, Some(1)) == [1];
    assert SiblingChain(d, Some(5)) == [5];
    assert SiblingChain(d, Some(3)) == [3];
    assert SiblingChain(d, Some(4)) == [4];
  }

  /**
   * `test_style`: the head's child is the style element, whose only child is the text `test`,
   * and the body follows the head.
   */
  lemma StyleDocument()
    ensures var r := BuildTree(StyleTokens());
      r == Ok(StyleDom()) &&
      Children(r.value, 0) == [1] && Children(r.value, 1) == [2, 5] && Children(r.value, 2) == [3] &&
      Children(r.value, 3) == [4] && r.value[3].kind == Element(E.Element(E.Style, [])) &&
      r.value[4].kind == NodeKind.Text("test")
  {
    var t := StyleTokens();
    assert |t| == 12 && t[0] == Open("html") && t[1] == Open("head") && t[2] == Open("style");
    assert t[3] == Char('t') && t[4] == Char('e') && t[5] == Char('s') && t[6] == Char('t');
    assert t[7] == EndTag("style") && t[8] == EndTag("head") && t[9] == Open("body");
    assert t[10] == EndTag("body") && t[11] == EndTag("html");
    StyleHead(t);
    StyleText(t);
    StyleClosing(t);
    StyleChildren();
  }
}
