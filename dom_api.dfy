/** Queries over the DOM (dom/api.rs). */
module DomApi {
  import opened Wrappers
  import E = DomElement
  import opened DomNode

  /** Node `h` is an element of kind `kind`. */
  predicate IsKind(nodes: seq<Node>, h: Handle, kind: E.ElementKind)
  {
    h < |nodes| && ElementKindOf(nodes[h]) == Some(kind)
  }

  /** Handles reachable from `link` along first-child and next-sibling links, in visiting order. */
  function Preorder(nodes: seq<Node>, link: Option<Handle>): seq<Handle>
    requires ValidArena(nodes) && InArena(nodes, link)
    decreases if link.Some? then |nodes| - link.value else 0
  {
    match link
    case None => []
    case Some(h) =>
      assert LinksOrdered(nodes, h);
      [h] + Preorder(nodes, nodes[h].firstChild) + Preorder(nodes, nodes[h].nextSibling)
  }

  /** The first handle of `order` that is an element of kind `kind`. */
  function FirstOfKind(nodes: seq<Node>, order: seq<Handle>, kind: E.ElementKind): (r: Option<Handle>)
    ensures r.Some? ==> r.value in order && IsKind(nodes, r.value, kind)
  {
    if |order| == 0 then None
    else if IsKind(nodes, order[0], kind) then Some(order[0])
    else FirstOfKind(nodes, order[1..], kind)
  }

  /** `FirstOfKind` finds something exactly when some handle qualifies, and nothing before it does. */
  lemma {:induction false} FirstOfKindIsFirst(nodes: seq<Node>, order: seq<Handle>, kind: E.ElementKind)
    ensures FirstOfKind(nodes, order, kind).Some? <==> exists i :: 0 <= i < |order| && IsKind(nodes, order[i], kind)
    ensures FirstOfKind(nodes, order, kind).Some? ==>
      exists i :: 0 <= i < |order| && order[i] == FirstOfKind(nodes, order, kind).value &&
        forall j :: 0 <= j < i ==> !IsKind(nodes, order[j], kind)
  {
    if |order| > 0 && !IsKind(nodes, order[0], kind) {
      FirstOfKindIsFirst(nodes, order[1..], kind);
      assert forall i :: 1 <= i < |order| ==> order[i] == order[1..][i - 1];
      if FirstOfKind(nodes, order, kind).Some? {
        var i :| 0 <= i < |order[1..]| && order[1..][i] == FirstOfKind(nodes, order, kind).value &&
          forall j :: 0 <= j < i ==> !IsKind(nodes, order[1..][j], kind);
        assert order[i + 1] == FirstOfKind(nodes, order, kind).value;
        assert forall j :: 0 <= j < i + 1 ==> !IsKind(nodes, order[j], kind) by {
          forall j | 0 <= j < i + 1 ensures !IsKind(nodes, order[j], kind) {
            if j > 0 { assert order[j] == order[1..][j - 1]; }
          }
        }
      }
    }
  }

  lemma {:induction false} FirstOfKindAppend(nodes: seq<Node>, a: seq<Handle>, b: seq<Handle>, kind: E.ElementKind)
    ensures FirstOfKind(nodes, a + b, kind) ==
            (if FirstOfKind(nodes, a, kind).Some? then FirstOfKind(nodes, a, kind) else FirstOfKind(nodes, b, kind))
    decreases |a|
  {
    if |a| == 0 {
      assert a + b == b;
    } else {
      assert (a + b)[0] == a[0];
      assert (a + b)[1..] == a[1..] + b;
      FirstOfKindAppend(nodes, a[1..], b, kind);
    }
  }

  /**
   * The test `get_target_element_node` applies to each node: equality with a fresh element made
   * from the kind's name, which holds exactly for the elements of that kind.
   */
  predicate MatchesFreshElement(n: Node, kind: E.ElementKind)
    ensures MatchesFreshElement(n, kind) <==> ElementKindOf(n) == Some(kind)
  {
    var wanted := E.NewElement(E.KindToString(kind), []);
    E.KindToStringInjective(wanted.kind, kind);
    KindEq(n.kind, Element(wanted))
  }

  /**
   * `get_target_element_node`: compares each node with a fresh element of the wanted kind, then
   * searches the first child's subtree and the following siblings, preferring the former.
   */
  function FindElement(nodes: seq<Node>, link: Option<Handle>, kind: E.ElementKind): (r: Option<Handle>)
    requires ValidArena(nodes) && InArena(nodes, link)
    ensures r.Some? ==> link.Some? && link.value <= r.value < |nodes| && IsKind(nodes, r.value, kind)
    decreases if link.Some? then |nodes| - link.value else 0
  {
    match link
    case None => None
    case Some(h) =>
      assert LinksOrdered(nodes, h);
      if MatchesFreshElement(nodes[h], kind) then Some(h)
      else
        var r1 := FindElement(nodes, nodes[h].firstChild, kind);
        var r2 := FindElement(nodes, nodes[h].nextSibling, kind);
        if r1.None? && r2.None? then None
        else if r1.None? then r2
        else r1
  }

  /** The search returns the first element of the wanted kind in preorder, and finds one if any exists. */
  lemma {:induction false} FindElementIsFirstInPreorder(nodes: seq<Node>, link: Option<Handle>, kind: E.ElementKind)
    requires ValidArena(nodes) && InArena(nodes, link)
    ensures FindElement(nodes, link, kind) == FirstOfKind(nodes, Preorder(nodes, link), kind)
    decreases if link.Some? then |nodes| - link.value else 0
  {
    if link.Some? {
      var h := link.value;
      assert LinksOrdered(nodes, h);
      if !IsKind(nodes, h, kind) {
        FindElementIsFirstInPreorder(nodes, nodes[h].firstChild, kind);
        FindElementIsFirstInPreorder(nodes, nodes[h].nextSibling, kind);
      }
      SearchStep(nodes, h, kind);
    }
  }

  /** One step of the induction: the node itself, then its first child's preorder, then its siblings'. */
  lemma SearchStep(nodes: seq<Node>, h: Handle, kind: E.ElementKind)
    requires ValidArena(nodes) && h < |nodes| && LinksOrdered(nodes, h)
    requires !IsKind(nodes, h, kind) ==>
      FindElement(nodes, nodes[h].firstChild, kind) == FirstOfKind(nodes, Preorder(nodes, nodes[h].firstChild), kind) &&
      FindElement(nodes, nodes[h].nextSibling, kind) == FirstOfKind(nodes, Preorder(nodes, nodes[h].nextSibling), kind)
    ensures FindElement(nodes, Some(h), kind) == FirstOfKind(nodes, Preorder(nodes, Some(h)), kind)
  {
    var below, after := Preorder(nodes, nodes[h].firstChild), Preorder(nodes, nodes[h].nextSibling);
    assert Preorder(nodes, Some(h)) == [h] + (below + after);
    if IsKind(nodes, h, kind) {
      assert FindElement(nodes, Some(h), kind) == Some(h);
      assert ([h] + (below + after))[0] == h;
    } else {
      FirstOfKindAppend(nodes, [h], below + after, kind);
      assert [h][1..] == [];
      FirstOfKindAppend(nodes, below, after, kind);
    }
  }

  /**
   * `get_style_content`: the text of the first child of the first `style` element below `root`;
   * empty when there is no style element, it has no child, or the child is not a text node.
   */
  function GetStyleContent(nodes: seq<Node>, root: Handle): (content: string)
    requires ValidArena(nodes) && root < |nodes|
    ensures var style := FirstOfKind(nodes, Preorder(nodes, Some(root)), E.Style);
      if style.Some? && LinksOrdered(nodes, style.value) && nodes[style.value].firstChild.Some?
         && nodes[nodes[style.value].firstChild.value].kind.Text?
      then content == nodes[nodes[style.value].firstChild.value].kind.text
      else content == []
  {
    FindElementIsFirstInPreorder(nodes, Some(root), E.Style);
    match FindElement(nodes, Some(root), E.Style)
    case None => []
    case Some(s) =>
      assert LinksOrdered(nodes, s);
      match nodes[s].firstChild
      case None => []
      case Some(t) =>
        match nodes[t].kind
        case Text(text) => text
        case _ => []
  }
}
