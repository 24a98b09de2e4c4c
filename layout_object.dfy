/**
 * Layout objects (layout/layout_object.rs): which style rules select a node, the cascade of their
 * declarations, the kind of box a node becomes, and a box's size and position.
 *
 * The source links layout objects with `Rc`/`Weak` pointers and updates them through `RefCell`;
 * here the objects of one layout tree live in an arena (`LayoutArena`) and a link is a handle.
 * The computed-style module (colours by name and code, display names, `defaulting`) and the
 * layout constants are not part of this model: they are the parameters collected in `StyleEnv`.
 */
module LayoutObject {
  import opened Wrappers
  import E = DomElement
  import D = DomNode
  import opened CssTokens
  import opened Cssom

  datatype LayoutKind = Block | Inline | Text

  datatype LayoutPoint = LayoutPoint(x: int, y: int)

  datatype LayoutSize = LayoutSize(width: int, height: int)

  datatype DisplayType = DisplayBlock | DisplayInline | DisplayNone

  datatype FontSize = Medium | XLarge | XXLarge

  /** A colour of the computed-style module, known here only by its code. */
  datatype Color = Color(code: string)

  /** The cascaded values: a property no selected declaration set is `None`. */
  datatype ComputedStyle = ComputedStyle(backgroundColor: Option<Color>, color: Option<Color>, display: Option<DisplayType>)

  /** `ComputedStyle::new`: nothing set. */
  function NewComputedStyle(): (s: ComputedStyle)
    ensures s.backgroundColor.None? && s.color.None? && s.display.None?
  {
    ComputedStyle(None, None, None)
  }

  /** A style after `defaulting`: every property the layout reads has a value. */
  datatype Style = Style(backgroundColor: Color, color: Color, display: DisplayType, fontSize: FontSize)

  /** `CHAR_WIDTH`, `CHAR_HEIGHT_WITH_PADDING` and `CONTENT_AREA_WIDTH` of the constants module. */
  datatype Metrics = Metrics(charWidth: int, charHeightWithPadding: int, contentAreaWidth: int)

  predicate ValidMetrics(m: Metrics)
  {
    m.charWidth > 0 && m.charHeightWithPadding > 0 && m.contentAreaWidth > 0
  }

  /**
   * The computed-style functions the layout calls: `Color::from_name`, `Color::from_code`,
   * `Color::white`, `Color::black`, `DisplayType::from_str` and `ComputedStyle::defaulting`
   * (which sees the node, the parent's style and the cascaded values), and the constants.
   */
  datatype StyleEnv = StyleEnv(
    colorFromName: string -> Option<Color>,
    colorFromCode: string -> Option<Color>,
    white: Color,
    black: Color,
    displayFromStr: string -> Option<DisplayType>,
    defaulting: (D.NodeKind, Option<Style>, ComputedStyle) -> Style,
    metrics: Metrics)

  // ---------------------------------------------------------------------------------------------
  // Selector matching

  /** Some attribute has this name and exactly this value. */
  predicate HasAttribute(attributes: seq<E.Attribute>, name: string, value: string)
  {
    exists i :: 0 <= i < |attributes| && attributes[i].name == name && attributes[i].value == value
  }

  /** The attribute loop of `is_node_selected`: returns at the first attribute that matches. */
  function AttributeLoop(attributes: seq<E.Attribute>, name: string, value: string): (found: bool)
    ensures found <==> HasAttribute(attributes, name, value)
  {
    if |attributes| == 0 then false
    else if attributes[0].name == name && attributes[0].value == value then true
    else
      var found := AttributeLoop(attributes[1..], name, value);
      assert forall i :: 1 <= i < |attributes| ==> attributes[i] == attributes[1..][i - 1];
      assert found ==> exists i :: 1 <= i < |attributes| && attributes[i].name == name && attributes[i].value == value by {
        if found {
          var i :| 0 <= i < |attributes[1..]| && attributes[1..][i].name == name && attributes[1..][i].value == value;
          assert attributes[i + 1] == attributes[1..][i];
        }
      }
      found
  }

  /** `is_node_selected`: only elements are selected, and an unknown selector selects nothing. */
  function IsNodeSelected(kind: D.NodeKind, selector: Selector): (selected: bool)
    ensures !kind.Element? ==> !selected
    ensures kind.Element? ==> match selector
      case IdSelector(id) => selected <==> HasAttribute(kind.element.attributes, "id", id)
      case ClassSelector(c) => selected <==> HasAttribute(kind.element.attributes, "class", c)
      case TypeSelector(tag) => selected <==> E.KindFromStr(tag) == Ok(kind.element.kind)
      case UnknownSelector => !selected
  {
    match kind
    case Element(elem) =>
      (match selector
       case IdSelector(id) => AttributeLoop(elem.attributes, "id", id)
       case ClassSelector(c) => AttributeLoop(elem.attributes, "class", c)
       case TypeSelector(tag) =>
         E.KindToStringInjective(elem.kind, elem.kind);
         if tag == E.KindToString(elem.kind) then true
         else
           assert E.KindFromStr(tag) != Ok(elem.kind) by {
             if E.KindFromStr(tag) == Ok(elem.kind) { E.DisplayOfParsedName(tag); }
           }
           false
       case UnknownSelector => false)
    case _ => false
  }

  // ---------------------------------------------------------------------------------------------
  // Cascade

  datatype Property = BackgroundColorProperty | ColorProperty | DisplayProperty

  datatype Value = ColorValue(color: Color) | DisplayValue(display: DisplayType)

  /** The value a cascaded style holds for a property. */
  function Get(s: ComputedStyle, p: Property): Option<Value>
  {
    match p
    case BackgroundColorProperty => if s.backgroundColor.Some? then Some(ColorValue(s.backgroundColor.value)) else None
    case ColorProperty => if s.color.Some? then Some(ColorValue(s.color.value)) else None
    case DisplayProperty => if s.display.Some? then Some(DisplayValue(s.display.value)) else None
  }

  function ColorOr(c: Option<Color>, fallback: Color): Color
  {
    if c.Some? then c.value else fallback
  }

  /**
   * What one declaration assigns to a property, if anything: a colour property takes an
   * identifier (a colour name) or a hash (a colour code) and falls back to white for the
   * background and black for the text colour; `display` takes an identifier and falls back to
   * `none`; other values, and other properties, assign nothing.
   */
  function Effect(env: StyleEnv, d: Declaration, p: Property): Option<Value>
  {
    match p
    case BackgroundColorProperty =>
      if d.property != "background-color" then None
      else if d.value.Ident? then Some(ColorValue(ColorOr(env.colorFromName(d.value.ident), env.white)))
      else if d.value.HashToken? then Some(ColorValue(ColorOr(env.colorFromCode(d.value.hash), env.white)))
      else None
    case ColorProperty =>
      if d.property != "color" then None
      else if d.value.Ident? then Some(ColorValue(ColorOr(env.colorFromName(d.value.ident), env.black)))
      else if d.value.HashToken? then Some(ColorValue(ColorOr(env.colorFromCode(d.value.hash), env.black)))
      else None
    case DisplayProperty =>
      if d.property == "display" && d.value.Ident? then
        var t := env.displayFromStr(d.value.ident);
        Some(DisplayValue(if t.Some? then t.value else DisplayNone))
      else None
  }

  /** One iteration of `cascading_style`'s loop: the matching arm sets one field of the style. */
  function CascadeDeclaration(env: StyleEnv, style: ComputedStyle, d: Declaration): (s: ComputedStyle)
    ensures forall p :: Get(s, p) == if Effect(env, d, p).Some? then Effect(env, d, p) else Get(style, p)
  {
    match d.property
    case "background-color" =>
      (match d.value
       case Ident(v) => style.(backgroundColor := Some(ColorOr(env.colorFromName(v), env.white)))
       case HashToken(v) => style.(backgroundColor := Some(ColorOr(env.colorFromCode(v), env.white)))
       case _ => style)
    case "color" =>
      (match d.value
       case Ident(v) => style.(color := Some(ColorOr(env.colorFromName(v), env.black)))
       case HashToken(v) => style.(color := Some(ColorOr(env.colorFromCode(v), env.black)))
       case _ => style)
    case "display" =>
      (match d.value
       case Ident(v) =>
         var t := env.displayFromStr(v);
         style.(display := Some(if t.Some? then t.value else DisplayNone))
       case _ => style)
    case _ => style
  }

  /** `cascading_style`: the declarations applied in order. */
  function Cascade(env: StyleEnv, style: ComputedStyle, ds: seq<Declaration>): ComputedStyle
  {
    if |ds| == 0 then style else CascadeDeclaration(env, Cascade(env, style, ds[..|ds| - 1]), ds[|ds| - 1])
  }

  /** The last declaration that assigns a property decides it. */
  lemma {:induction false} CascadeLastWins(env: StyleEnv, style: ComputedStyle, ds: seq<Declaration>, p: Property, k: nat)
    requires k < |ds| && Effect(env, ds[k], p).Some?
    requires forall j :: k < j < |ds| ==> Effect(env, ds[j], p).None?
    ensures Get(Cascade(env, style, ds), p) == Effect(env, ds[k], p)
  {
    if k < |ds| - 1 {
      CascadeLastWins(env, style, ds[..|ds| - 1], p, k);
    }
  }

  /** A property no declaration assigns keeps its value. */
  lemma {:induction false} CascadeUntouched(env: StyleEnv, style: ComputedStyle, ds: seq<Declaration>, p: Property)
    requires forall j :: 0 <= j < |ds| ==> Effect(env, ds[j], p).None?
    ensures Get(Cascade(env, style, ds), p) == Get(style, p)
  {
    if |ds| > 0 {
      CascadeUntouched(env, style, ds[..|ds| - 1], p);
    }
  }

  /** Cascading two lists in turn is cascading their concatenation. */
  lemma {:induction false} CascadeAppend(env: StyleEnv, style: ComputedStyle, a: seq<Declaration>, b: seq<Declaration>)
    ensures Cascade(env, style, a + b) == Cascade(env, Cascade(env, style, a), b)
    decreases |b|
  {
    if |b| == 0 {
      assert a + b == a;
    } else {
      assert (a + b)[..|a + b| - 1] == a + b[..|b| - 1];
      CascadeAppend(env, style, a, b[..|b| - 1]);
    }
  }

  /** The rule loop of `create_layout_object`: each selected rule's declarations cascade in turn. */
  function CascadeRules(env: StyleEnv, kind: D.NodeKind, style: ComputedStyle, rules: seq<QualifiedRule>): ComputedStyle
  {
    if |rules| == 0 then style
    else
      var before := CascadeRules(env, kind, style, rules[..|rules| - 1]);
      var rule := rules[|rules| - 1];
      if IsNodeSelected(kind, rule.selector) then Cascade(env, before, rule.declarations) else before
  }

  /** The declarations of the rules that select a node, in sheet order. */
  function MatchingDeclarations(kind: D.NodeKind, rules: seq<QualifiedRule>): seq<Declaration>
  {
    if |rules| == 0 then []
    else
      var rule := rules[|rules| - 1];
      MatchingDeclarations(kind, rules[..|rules| - 1]) + (if IsNodeSelected(kind, rule.selector) then rule.declarations else [])
  }

  /** Every declaration gathered comes from a rule selecting the node, and every such rule's declarations are gathered. */
  lemma {:induction false} MatchingDeclarationsSelected(kind: D.NodeKind, rules: seq<QualifiedRule>)
    ensures forall d :: d in MatchingDeclarations(kind, rules) ==>
      exists k :: 0 <= k < |rules| && IsNodeSelected(kind, rules[k].selector) && d in rules[k].declarations
    ensures forall k, d :: 0 <= k < |rules| && IsNodeSelected(kind, rules[k].selector) && d in rules[k].declarations ==>
      d in MatchingDeclarations(kind, rules)
  {
    if |rules| > 0 {
      var init := rules[..|rules| - 1];
      MatchingDeclarationsSelected(kind, init);
      var r := MatchingDeclarations(kind, rules);
      var before := MatchingDeclarations(kind, init);
      forall d | d in r
        ensures exists k :: 0 <= k < |rules| && IsNodeSelected(kind, rules[k].selector) && d in rules[k].declarations
      {
        if d in before {
          var k :| 0 <= k < |init| && IsNodeSelected(kind, init[k].selector) && d in init[k].declarations;
          assert rules[k] == init[k];
        } else {
          assert d in rules[|rules| - 1].declarations;
        }
      }
      forall k, d | 0 <= k < |rules| && IsNodeSelected(kind, rules[k].selector) && d in rules[k].declarations
        ensures d in r
      {
        if k < |init| {
          assert rules[k] == init[k];
        }
      }
    }
  }

  /** The rule loop is one cascade over the selected declarations, whatever selected them. */
  lemma {:induction false} CascadeRulesIsCascade(env: StyleEnv, kind: D.NodeKind, style: ComputedStyle, rules: seq<QualifiedRule>)
    ensures CascadeRules(env, kind, style, rules) == Cascade(env, style, MatchingDeclarations(kind, rules))
  {
    if |rules| > 0 {
      var rule := rules[|rules| - 1];
      CascadeRulesIsCascade(env, kind, style, rules[..|rules| - 1]);
      var before := MatchingDeclarations(kind, rules[..|rules| - 1]);
      if IsNodeSelected(kind, rule.selector) {
        CascadeAppend(env, style, before, rule.declarations);
      } else {
        assert before + [] == before;
      }
    }
  }

  // ---------------------------------------------------------------------------------------------
  // Kinds, sizes and positions

  /** `update_kind`; the source panics for a Document node and for an element with display none. */
  function KindFor(kind: D.NodeKind, display: DisplayType): (k: LayoutKind)
    requires !kind.Document? && !(kind.Element? && display == DisplayNone)
    ensures kind.Text? <==> k == Text
    ensures kind.Element? ==> (k == Block <==> display == DisplayBlock) && (k == Inline <==> display == DisplayInline)
  {
    match kind
    case Element(_) =>
      (match display
       case DisplayBlock => Block
       case DisplayInline => Inline)
    case Text(_) => Text
  }

  /** The font-size ratio of a text box. */
  function Ratio(f: FontSize): (r: int)
    ensures 1 <= r <= 3
    ensures r == 1 <==> f == Medium
  {
    match f
    case Medium => 1
    case XLarge => 2
    case XXLarge => 3
  }

  /** The number of bytes of the UTF-8 encoding of a string (`String::len`). */
  function Utf8Length(s: string): (n: nat)
    ensures |s| <= n <= 4 * |s|
  {
    if |s| == 0 then 0
    else
      var c := s[0] as int;
      (if c < 0x80 then 1 else if c < 0x800 then 2 else if c < 0x10000 then 3 else 4) + Utf8Length(s[1..])
  }

  /** ASCII text takes one byte per character, so its byte length is its character count. */
  lemma {:induction false} AsciiUtf8Length(s: string)
    requires forall i :: 0 <= i < |s| ==> s[i] as int < 0x80
    ensures Utf8Length(s) == |s|
  {
    if |s| > 0 {
      AsciiUtf8Length(s[1..]);
    }
  }

  /** `wrapping_div` rounded up: the number of lines a run of `width` pixels needs. */
  function Lines(width: int, lineWidth: int): (lines: int)
    requires width > 0 && lineWidth > 0
    ensures lines >= 1
    ensures (lines - 1) * lineWidth < width <= lines * lineWidth
  {
    var q, r := width / lineWidth, width % lineWidth;
    assert width == q * lineWidth + r;
    if r == 0 then q else q + 1
  }

  /**
   * The size of a text box of `length` bytes: one line as wide as the text when it fits the
   * content area, otherwise the full content width and as many lines as the text needs.
   */
  function TextSize(m: Metrics, f: FontSize, length: nat): (s: LayoutSize)
    requires ValidMetrics(m)
    ensures var width := m.charWidth * Ratio(f) * length;
      width <= m.contentAreaWidth ==> s == LayoutSize(width, Ratio(f) * m.charHeightWithPadding)
    ensures var width := m.charWidth * Ratio(f) * length;
      width > m.contentAreaWidth ==>
        s.width == m.contentAreaWidth &&
        exists lines :: s.height == lines * Ratio(f) * m.charHeightWithPadding &&
          (lines - 1) * m.contentAreaWidth < width <= lines * m.contentAreaWidth
  {
    var width := m.charWidth * Ratio(f) * length;
    if width > m.contentAreaWidth then
      var lines := Lines(width, m.contentAreaWidth);
      LayoutSize(m.contentAreaWidth, lines * Ratio(f) * m.charHeightWithPadding)
    else LayoutSize(width, Ratio(f) * m.charHeightWithPadding)
  }

  /** A text box is never wider than the content area, and it is as tall as at least one line. */
  lemma TextSizeBounds(m: Metrics, f: FontSize, length: nat)
    requires ValidMetrics(m)
    ensures 0 <= TextSize(m, f, length).width <= m.contentAreaWidth
    ensures TextSize(m, f, length).height >= Ratio(f) * m.charHeightWithPadding
  {
    var r := Ratio(f);
    var width := m.charWidth * r * length;
    ProductNonNegative(m.charWidth, r, length);
    if width > m.contentAreaWidth {
      LinesHeight(Lines(width, m.contentAreaWidth), r, m.charHeightWithPadding);
    }
  }

  lemma ProductNonNegative(a: int, b: int, c: nat)
    requires a > 0 && b > 0
    ensures a * b * c >= 0
  {
    assert a * b > 0;
  }

  lemma LinesHeight(lines: int, r: int, h: int)
    requires lines >= 1 && r >= 1 && h > 0
    ensures lines * r * h >= r * h
  {
    assert lines * r * h == (lines - 1) * (r * h) + r * h;
    assert (lines - 1) * (r * h) >= 0;
  }

  /**
   * `compute_position`: a box next to a block (or itself a block) starts at the parent's left
   * edge below its previous sibling; an inline box after an inline box continues the line to
   * its right; anything else sits at the parent's origin. With no previous geometry the
   * parent's point is used.
   */
  function PositionFor(kind: LayoutKind, parentPoint: LayoutPoint, previousKind: LayoutKind,
                       previousPoint: Option<LayoutPoint>, previousSize: Option<LayoutSize>): (p: LayoutPoint)
    ensures var known := previousPoint.Some? && previousSize.Some?;
      if kind == Block || previousKind == Block then
        p.x == parentPoint.x && p.y == (if known then previousPoint.value.y + previousSize.value.height else parentPoint.y)
      else if kind == Inline && previousKind == Inline && known then
        p == LayoutPoint(previousPoint.value.x + previousSize.value.width, previousPoint.value.y)
      else p == parentPoint
  {
    match (kind, previousKind)
    case (Block, _) =>
      LayoutPoint(parentPoint.x, if previousSize.Some? && previousPoint.Some? then previousPoint.value.y + previousSize.value.height else parentPoint.y)
    case (_, Block) =>
      LayoutPoint(parentPoint.x, if previousSize.Some? && previousPoint.Some? then previousPoint.value.y + previousSize.value.height else parentPoint.y)
    case (Inline, Inline) =>
      if previousSize.Some? && previousPoint.Some? then LayoutPoint(previousPoint.value.x + previousSize.value.width, previousPoint.value.y)
      else parentPoint
    case _ => parentPoint
  }

  /** Block boxes stack: with no negative heights a block never starts above its previous sibling. */
  lemma BlocksStack(parentPoint: LayoutPoint, previousKind: LayoutKind, previous: LayoutPoint, size: LayoutSize)
    requires size.height >= 0
    ensures PositionFor(Block, parentPoint, previousKind, Some(previous), Some(size)).y >= previous.y
    ensures PositionFor(Block, parentPoint, previousKind, Some(previous), Some(size)).x == parentPoint.x
  {
  }

  // ---------------------------------------------------------------------------------------------
  // Layout objects

  /**
   * A layout object. `node` is the handle of its DOM node and `nodeKind` a copy of that node's
   * kind (the layout never changes the DOM). Links are handles into the layout arena.
   */
  datatype LayoutObject = LayoutObject(
    kind: LayoutKind,
    node: D.Handle,
    nodeKind: D.NodeKind,
    parent: Option<nat>,
    firstChild: Option<nat>,
    nextSibling: Option<nat>,
    style: Style,
    point: LayoutPoint,
    size: LayoutSize)

  /** `PartialEq for LayoutObject`: kind, point and size; the node, links and style are ignored. */
  predicate ObjectEq(a: LayoutObject, b: LayoutObject)
  {
    a.kind == b.kind && a.point == b.point && a.size == b.size
  }

  /** Objects are appended as they are created, so a parent comes before its children and siblings after. */
  predicate ObjectLinksOrdered(o: LayoutObject, h: nat, size: nat)
  {
    (o.parent.None? || o.parent.value < h) &&
    (o.firstChild.None? || h < o.firstChild.value < size) &&
    (o.nextSibling.None? || h < o.nextSibling.value < size)
  }

  predicate ValidObjects(objs: seq<LayoutObject>)
  {
    forall h :: 0 <= h < |objs| ==> ObjectLinksOrdered(objs[h], h, |objs|)
  }

  predicate InObjects(objs: seq<LayoutObject>, link: Option<nat>)
  {
    link.None? || link.value < |objs|
  }

  /** The arenas have the same objects up to their points and sizes. */
  predicate SameShape(a: seq<LayoutObject>, b: seq<LayoutObject>)
  {
    |a| == |b| &&
    forall h :: 0 <= h < |a| ==> a[h].(point := b[h].point, size := b[h].size) == b[h]
  }

  lemma SameShapeValid(a: seq<LayoutObject>, b: seq<LayoutObject>)
    requires SameShape(a, b) && ValidObjects(a)
    ensures ValidObjects(b)
  {
    forall h | 0 <= h < |b| ensures ObjectLinksOrdered(b[h], h, |b|) {
      assert a[h].(point := b[h].point, size := b[h].size) == b[h];
    }
  }

  /** The style of the object a link points to, handed to `defaulting` as the parent's style. */
  function ParentStyle(objs: seq<LayoutObject>, parent: Option<nat>): Option<Style>
    requires InObjects(objs, parent)
  {
    if parent.Some? then Some(objs[parent.value].style) else None
  }

  /** The style `create_layout_object` gives a node: the selected declarations cascaded, then defaulted. */
  function StyleFor(env: StyleEnv, kind: D.NodeKind, parentStyle: Option<Style>, sheet: StyleSheet): Style
  {
    env.defaulting(kind, parentStyle, Cascade(env, NewComputedStyle(), MatchingDeclarations(kind, sheet.rules)))
  }

  /**
   * `create_layout_object`: nothing for a missing node or a node whose style says display none;
   * otherwise a fresh, unlinked object at the origin with no size, whose kind follows its display.
   * The source panics for the Document node, which its callers never pass.
   */
  function CreateLayoutObject(env: StyleEnv, dom: seq<D.Node>, link: Option<D.Handle>, parent: Option<nat>,
                              parentStyle: Option<Style>, sheet: StyleSheet): (r: Option<LayoutObject>)
    requires D.InArena(dom, link) && (link.Some? ==> !dom[link.value].kind.Document?)
    ensures link.None? ==> r.None?
    ensures link.Some? ==>
      var kind := dom[link.value].kind;
      var style := StyleFor(env, kind, parentStyle, sheet);
      (r.None? <==> style.display == DisplayNone) &&
      (r.Some? ==> r.value == LayoutObject(KindFor(kind, style.display), link.value, kind, parent, None, None,
                                           style, LayoutPoint(0, 0), LayoutSize(0, 0)))
  {
    match link
    case None => None
    case Some(h) =>
      var kind := dom[h].kind;
      var cascaded := CascadeRules(env, kind, NewComputedStyle(), sheet.rules);
      CascadeRulesIsCascade(env, kind, NewComputedStyle(), sheet.rules);
      var style := env.defaulting(kind, parentStyle, cascaded);
      if style.display == DisplayNone then None
      else Some(LayoutObject(KindFor(kind, style.display), h, kind, parent, None, None, style, LayoutPoint(0, 0), LayoutSize(0, 0)))
  }

  /** The height of a block: its children's heights, counting a child only if it or the child before it is a block. */
  function BlockHeight(objs: seq<LayoutObject>, child: Option<nat>, previousKind: LayoutKind): int
    requires ValidObjects(objs) && InObjects(objs, child)
    decreases if child.Some? then |objs| - child.value else 0
  {
    match child
    case None => 0
    case Some(c) =>
      assert ObjectLinksOrdered(objs[c], c, |objs|);
      (if previousKind == Block || objs[c].kind == Block then objs[c].size.height else 0) +
      BlockHeight(objs, objs[c].nextSibling, objs[c].kind)
  }

  /** The total width of a chain of siblings. */
  function ChainWidth(objs: seq<LayoutObject>, child: Option<nat>): int
    requires ValidObjects(objs) && InObjects(objs, child)
    decreases if child.Some? then |objs| - child.value else 0
  {
    match child
    case None => 0
    case Some(c) =>
      assert ObjectLinksOrdered(objs[c], c, |objs|);
      objs[c].size.width + ChainWidth(objs, objs[c].nextSibling)
  }

  /** The total height of a chain of siblings. */
  function ChainHeight(objs: seq<LayoutObject>, child: Option<nat>): int
    requires ValidObjects(objs) && InObjects(objs, child)
    decreases if child.Some? then |objs| - child.value else 0
  {
    match child
    case None => 0
    case Some(c) =>
      assert ObjectLinksOrdered(objs[c], c, |objs|);
      objs[c].size.height + ChainHeight(objs, objs[c].nextSibling)
  }

  /** Every object of a sibling chain is a block. */
  predicate AllBlocks(objs: seq<LayoutObject>, child: Option<nat>)
    requires ValidObjects(objs) && InObjects(objs, child)
    decreases if child.Some? then |objs| - child.value else 0
  {
    match child
    case None => true
    case Some(c) =>
      assert ObjectLinksOrdered(objs[c], c, |objs|);
      objs[c].kind == Block && AllBlocks(objs, objs[c].nextSibling)
  }

  /** Among block children every child counts: the block height is the plain sum of heights. */
  lemma {:induction false} BlockHeightOfBlocks(objs: seq<LayoutObject>, child: Option<nat>, previousKind: LayoutKind)
    requires ValidObjects(objs) && InObjects(objs, child) && AllBlocks(objs, child)
    ensures BlockHeight(objs, child, previousKind) == ChainHeight(objs, child)
    decreases if child.Some? then |objs| - child.value else 0
  {
    if child.Some? {
      assert ObjectLinksOrdered(objs[child.value], child.value, |objs|);
      BlockHeightOfBlocks(objs, objs[child.value].nextSibling, Block);
    }
  }

  /** An inline child right after an inline child adds nothing to its block's height. */
  lemma InlineAfterInlineNotCounted(objs: seq<LayoutObject>, c: nat)
    requires ValidObjects(objs) && c < |objs| && objs[c].kind == Inline
    ensures BlockHeight(objs, Some(c), Inline) == BlockHeight(objs, objs[c].nextSibling, Inline)
  {
    assert ObjectLinksOrdered(objs[c], c, |objs|);
  }

  /**
   * The size `compute_size` computes for object `h` inside a parent of size `parentSize`: a block
   * takes the parent's width and its counted children's heights, an inline box the sums of its
   * children's widths and heights, a text box the size of its text.
   */
  function SizeFor(env: StyleEnv, objs: seq<LayoutObject>, h: nat, parentSize: LayoutSize): LayoutSize
    requires ValidObjects(objs) && h < |objs| && ValidMetrics(env.metrics)
  {
    var o := objs[h];
    assert ObjectLinksOrdered(o, h, |objs|);
    match o.kind
    case Block => LayoutSize(parentSize.width, BlockHeight(objs, o.firstChild, Block))
    case Inline => LayoutSize(ChainWidth(objs, o.firstChild), ChainHeight(objs, o.firstChild))
    case Text =>
      if o.nodeKind.Text? then TextSize(env.metrics, o.style.fontSize, Utf8Length(o.nodeKind.text))
      else LayoutSize(0, 0)
  }

  /** Changing an object does not change the heights and widths of chains that lie after it. */
  lemma {:induction false} ChainsIgnoreEarlierObjects(objs: seq<LayoutObject>, objs': seq<LayoutObject>, child: Option<nat>, previousKind: LayoutKind, h: nat)
    requires ValidObjects(objs) && ValidObjects(objs') && |objs| == |objs'| && InObjects(objs, child)
    requires forall i :: 0 <= i < |objs| && i != h ==> objs'[i] == objs[i]
    requires child.None? || h < child.value
    ensures BlockHeight(objs', child, previousKind) == BlockHeight(objs, child, previousKind)
    ensures ChainWidth(objs', child) == ChainWidth(objs, child)
    ensures ChainHeight(objs', child) == ChainHeight(objs, child)
    decreases if child.Some? then |objs| - child.value else 0
  {
    if child.Some? {
      var c := child.value;
      assert ObjectLinksOrdered(objs[c], c, |objs|);
      ChainsIgnoreEarlierObjects(objs, objs', objs[c].nextSibling, objs[c].kind, h);
    }
  }

  /**
   * The layout objects of one layout tree. The source updates each object in place through
   * `RefCell`; here an update replaces one entry of the arena.
   */
  class LayoutArena {
    var objects: seq<LayoutObject>

    predicate Valid()
      reads this
    {
      ValidObjects(objects)
    }

    constructor ()
      ensures objects == [] && Valid()
    {
      objects := [];
    }

    /** Adds a newly created object and returns its handle. */
    method Append(o: LayoutObject) returns (h: nat)
      requires Valid() && ObjectLinksOrdered(o, |objects|, |objects| + 1)
      modifies this
      ensures h == |old(objects)| && objects == old(objects) + [o] && Valid()
    {
      h := |objects|;
      objects := objects + [o];
      assert forall i :: 0 <= i < h ==> objects[i] == old(objects)[i];
    }

    /** `cascading_style`: the loop over one rule's declarations. */
    static method CascadingStyle(env: StyleEnv, style: ComputedStyle, ds: seq<Declaration>) returns (s: ComputedStyle)
      ensures s == Cascade(env, style, ds)
    {
      s := style;
      for i := 0 to |ds|
        invariant s == Cascade(env, style, ds[..i])
      {
        assert ds[..i + 1][..i] == ds[..i];
        s := CascadeDeclaration(env, s, ds[i]);
      }
      assert ds[..|ds|] == ds;
    }

    /**
     * `create_layout_object`: tests the rules in sheet order, cascades the declarations of each
     * rule that selects the node, applies `defaulting` with the parent object's style, and gives
     * up on display none. The object is not added to the arena.
     */
    method Create(env: StyleEnv, dom: seq<D.Node>, link: Option<D.Handle>, parent: Option<nat>, sheet: StyleSheet)
      returns (r: Option<LayoutObject>)
      requires D.InArena(dom, link) && (link.Some? ==> !dom[link.value].kind.Document?) && InObjects(objects, parent)
      ensures r == CreateLayoutObject(env, dom, link, parent, ParentStyle(objects, parent), sheet)
    {
      if link.None? {
        return None;
      }
      var h := link.value;
      var kind := dom[h].kind;
      var cascaded := NewComputedStyle();
      var rules := sheet.rules;
      for i := 0 to |rules|
        invariant cascaded == CascadeRules(env, kind, NewComputedStyle(), rules[..i])
      {
        assert rules[..i + 1][..i] == rules[..i];
        if IsNodeSelected(kind, rules[i].selector) {
          cascaded := CascadingStyle(env, cascaded, rules[i].declarations);
        }
      }
      assert rules[..|rules|] == rules;
      var parentStyle := if parent.Some? then Some(objects[parent.value].style) else None;
      var style := env.defaulting(kind, parentStyle, cascaded);
      if style.display == DisplayNone {
        return None;
      }
      r := Some(LayoutObject(KindFor(kind, style.display), h, kind, parent, None, None, style, LayoutPoint(0, 0), LayoutSize(0, 0)));
    }

    /** `set_first_child` */
    method SetFirstChild(h: nat, firstChild: Option<nat>)
      requires h < |objects|
      modifies this
      ensures objects == old(objects)[h := old(objects)[h].(firstChild := firstChild)]
    {
      objects := objects[h := objects[h].(firstChild := firstChild)];
    }

    /** `set_next_sibling` */
    method SetNextSibling(h: nat, nextSibling: Option<nat>)
      requires h < |objects|
      modifies this
      ensures objects == old(objects)[h := old(objects)[h].(nextSibling := nextSibling)]
    {
      objects := objects[h := objects[h].(nextSibling := nextSibling)];
    }

    /** The size `compute_size` computes, walking the child chain as its loops do. */
    method MeasureSize(env: StyleEnv, h: nat, parentSize: LayoutSize) returns (size: LayoutSize)
      requires Valid() && h < |objects| && ValidMetrics(env.metrics)
      ensures size == SizeFor(env, objects, h, parentSize)
    {
      var o := objects[h];
      assert ObjectLinksOrdered(o, h, |objects|);
      size := LayoutSize(0, 0);
      match o.kind {
        case Block =>
          var height := 0;
          var child := o.firstChild;
          var previousKind := Block;
          while child.Some?
            invariant InObjects(objects, child)
            invariant height + BlockHeight(objects, child, previousKind) == BlockHeight(objects, o.firstChild, Block)
            decreases if child.Some? then |objects| - child.value else 0
          {
            var c := objects[child.value];
            assert ObjectLinksOrdered(c, child.value, |objects|);
            if previousKind == Block || c.kind == Block {
              height := height + c.size.height;
            }
            previousKind := c.kind;
            child := c.nextSibling;
          }
          size := LayoutSize(parentSize.width, height);
        case Inline =>
          var width, height := 0, 0;
          var child := o.firstChild;
          while child.Some?
            invariant InObjects(objects, child)
            invariant width + ChainWidth(objects, child) == ChainWidth(objects, o.firstChild)
            invariant height + ChainHeight(objects, child) == ChainHeight(objects, o.firstChild)
            decreases if child.Some? then |objects| - child.value else 0
          {
            var c := objects[child.value];
            assert ObjectLinksOrdered(c, child.value, |objects|);
            width := width + c.size.width;
            height := height + c.size.height;
            child := c.nextSibling;
          }
          size := LayoutSize(width, height);
        case Text =>
          if o.nodeKind.Text? {
            var ratio := Ratio(o.style.fontSize);
            var m := env.metrics;
            var width := m.charWidth * ratio * Utf8Length(o.nodeKind.text);
            if width > m.contentAreaWidth {
              var lines := if width % m.contentAreaWidth == 0 then width / m.contentAreaWidth else width / m.contentAreaWidth + 1;
              size := LayoutSize(m.contentAreaWidth, lines * ratio * m.charHeightWithPadding);
            } else {
              size := LayoutSize(width, ratio * m.charHeightWithPadding);
            }
          }
      }
    }

    /** `compute_size` as written: the size is computed into a local and dropped, so nothing changes. */
    method ComputeSizeAsWritten(env: StyleEnv, h: nat, parentSize: LayoutSize)
      requires Valid() && h < |objects| && ValidMetrics(env.metrics)
      modifies this
      ensures objects == old(objects)
    {
      var size := MeasureSize(env, h, parentSize);
    }

    /** `compute_size` with the computed size stored in the object; nothing else changes. */
    method ComputeSize(env: StyleEnv, h: nat, parentSize: LayoutSize)
      requires Valid() && h < |objects| && ValidMetrics(env.metrics)
      modifies this
      ensures objects == old(objects)[h := old(objects)[h].(size := SizeFor(env, old(objects), h, parentSize))]
      ensures Valid()
    {
      var size := MeasureSize(env, h, parentSize);
      objects := objects[h := objects[h].(size := size)];
      assert SameShape(old(objects), objects);
      SameShapeValid(old(objects), objects);
    }

    /** `compute_position`: only the object's point changes. */
    method ComputePosition(h: nat, parentPoint: LayoutPoint, previousKind: LayoutKind,
                           previousPoint: Option<LayoutPoint>, previousSize: Option<LayoutSize>)
      requires Valid() && h < |objects|
      modifies this
      ensures objects == old(objects)[h := old(objects)[h].(point := PositionFor(old(objects)[h].kind, parentPoint, previousKind, previousPoint, previousSize))]
      ensures Valid()
    {
      var point := PositionFor(objects[h].kind, parentPoint, previousKind, previousPoint, previousSize);
      objects := objects[h := objects[h].(point := point)];
      assert SameShape(old(objects), objects);
      SameShapeValid(old(objects), objects);
    }
  }
}
