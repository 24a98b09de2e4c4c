/**
 * DOM nodes (dom/node.rs). The source links nodes with `Rc`/`Weak` pointers; here every node of a
 * page lives in one arena and a link is the handle (index) of the node it points to. Handle 0 is
 * the Document. Nodes are only ever appended, so links that point "down" (first child, last child,
 * next sibling) go to larger handles and links that point "up" (parent, previous sibling) go to
 * smaller ones; `ValidArena` states this and it is what makes tree walks terminate.
 */
module DomNode {
  import opened Wrappers
  import E = DomElement

  type Handle = nat

  const DocumentHandle: Handle := 0

  datatype NodeKind = Document | Element(element: E.Element) | Text(text: string)

  /** A node and its five links; the back-link to the window is not modelled. */
  datatype Node = Node(
    kind: NodeKind,
    parent: Option<Handle>,
    firstChild: Option<Handle>,
    lastChild: Option<Handle>,
    previousSibling: Option<Handle>,
    nextSibling: Option<Handle>)

  /** `PartialEq for NodeKind`: elements compare by kind only, any two texts are equal. */
  predicate KindEq(a: NodeKind, b: NodeKind)
  {
    match a
    case Document => b.Document?
    case Element(e1) => b.Element? && e1.kind == b.element.kind
    case Text(_) => b.Text?
  }

  /** `PartialEq for Node`: only the kinds are compared, never the links. */
  predicate NodeEq(a: Node, b: Node)
  {
    KindEq(a.kind, b.kind)
  }

  /** `Node::new`: a node with no links. */
  function NewNode(kind: NodeKind): (n: Node)
    ensures n.kind == kind
    ensures n.parent.None? && n.firstChild.None? && n.lastChild.None?
    ensures n.previousSibling.None? && n.nextSibling.None?
  {
    Node(kind, None, None, None, None, None)
  }

  /** `Node::get_element`. */
  function GetElement(n: Node): (r: Option<E.Element>)
    ensures r.Some? <==> n.kind.Element?
    ensures r.Some? ==> r.value == n.kind.element
  {
    match n.kind
    case Element(e) => Some(e)
    case _ => None
  }

  /** `Node::element_kind`. */
  function ElementKindOf(n: Node): (r: Option<E.ElementKind>)
    ensures r.Some? <==> n.kind.Element?
    ensures r.Some? ==> r.value == n.kind.element.kind
  {
    match GetElement(n)
    case Some(e) => Some(e.kind)
    case None => None
  }

  /** Node equality is an equivalence relation. */
  lemma KindEqIsEquivalence(a: NodeKind, b: NodeKind, c: NodeKind)
    ensures KindEq(a, a)
    ensures KindEq(a, b) ==> KindEq(b, a)
    ensures KindEq(a, b) && KindEq(b, c) ==> KindEq(a, c)
  {
  }

  /** Node equality ignores the links, the text of text nodes and the attributes of elements. */
  lemma NodeEqIgnores(a: Node, b: Node)
    ensures NodeEq(a, b) <==> NodeEq(NewNode(a.kind), NewNode(b.kind))
    ensures a.kind.Text? && b.kind.Text? ==> NodeEq(a, b)
    ensures a.kind.Element? && b.kind.Element? ==> (NodeEq(a, b) <==> ElementKindOf(a) == ElementKindOf(b))
  {
  }

  predicate LinkBelow(link: Option<Handle>, h: Handle)
  {
    link.None? || link.value < h
  }

  predicate LinkAbove(link: Option<Handle>, h: Handle, size: nat)
  {
    link.None? || h < link.value < size
  }

  /** The links of a node stored at handle `h` of an arena of `size` nodes respect the allocation order. */
  predicate NodeLinksOrdered(n: Node, h: Handle, size: nat)
  {
    LinkBelow(n.parent, h) && LinkBelow(n.previousSibling, h) &&
    LinkAbove(n.firstChild, h, size) && LinkAbove(n.lastChild, h, size) &&
    LinkAbove(n.nextSibling, h, size)
  }

  predicate LinksOrdered(nodes: seq<Node>, h: Handle)
    requires h < |nodes|
  {
    NodeLinksOrdered(nodes[h], h, |nodes|)
  }

  /** The arena invariant: the Document is handle 0 and only there, and every link is ordered. */
  predicate ValidArena(nodes: seq<Node>)
  {
    |nodes| > 0 && nodes[0].kind.Document? &&
    (forall h :: 0 < h < |nodes| ==> !nodes[h].kind.Document?) &&
    (forall h :: 0 <= h < |nodes| ==> LinksOrdered(nodes, h))
  }

  /** Replacing one node by one whose links are ordered keeps the arena valid. */
  lemma ReplaceKeepsValid(nodes: seq<Node>, h: Handle, n: Node)
    requires ValidArena(nodes) && h < |nodes|
    requires NodeLinksOrdered(n, h, |nodes|) && (n.kind.Document? <==> h == 0)
    ensures ValidArena(nodes[h := n])
  {
    var nodes' := nodes[h := n];
    forall x | 0 <= x < |nodes'|
      ensures LinksOrdered(nodes', x)
    {
      if x != h {
        assert LinksOrdered(nodes, x);
      }
    }
  }

  /** Appending a node with no downward links and ordered upward links keeps the arena valid. */
  lemma AppendKeepsValid(nodes: seq<Node>, n: Node)
    requires ValidArena(nodes)
    requires NodeLinksOrdered(n, |nodes|, |nodes| + 1) && !n.kind.Document?
    ensures ValidArena(nodes + [n])
  {
    var nodes' := nodes + [n];
    forall x | 0 <= x < |nodes'|
      ensures LinksOrdered(nodes', x)
    {
      if x < |nodes| {
        assert LinksOrdered(nodes, x);
        assert nodes'[x] == nodes[x];
      }
    }
  }

  predicate InArena(nodes: seq<Node>, link: Option<Handle>)
  {
    link.None? || link.value < |nodes|
  }

  /** The handles reached from `link` by following next-sibling links. */
  function SiblingChain(nodes: seq<Node>, link: Option<Handle>): seq<Handle>
    requires ValidArena(nodes) && InArena(nodes, link)
    decreases if link.Some? then |nodes| - link.value else 0
  {
    match link
    case None => []
    case Some(h) =>
      assert LinksOrdered(nodes, h);
      [h] + SiblingChain(nodes, nodes[h].nextSibling)
  }

  /** The children of node `h`: its first child and that child's following siblings. */
  function Children(nodes: seq<Node>, h: Handle): seq<Handle>
    requires ValidArena(nodes) && h < |nodes|
  {
    assert LinksOrdered(nodes, h);
    SiblingChain(nodes, nodes[h].firstChild)
  }

  /** A sibling chain starts at its link, stays in the arena and only moves forward, so it never revisits a node. */
  lemma {:induction false} ChainAscends(nodes: seq<Node>, link: Option<Handle>)
    requires ValidArena(nodes) && InArena(nodes, link)
    ensures forall i :: 0 <= i < |SiblingChain(nodes, link)| ==>
      link.Some? && link.value <= SiblingChain(nodes, link)[i] < |nodes|
    ensures forall i, j :: 0 <= i < j < |SiblingChain(nodes, link)| ==>
      SiblingChain(nodes, link)[i] < SiblingChain(nodes, link)[j]
    decreases if link.Some? then |nodes| - link.value else 0
  {
    if link.Some? {
      var h := link.value;
      assert LinksOrdered(nodes, h);
      var next := nodes[h].nextSibling;
      var rest := SiblingChain(nodes, next);
      ChainAscends(nodes, next);
      var c := SiblingChain(nodes, link);
      assert c == [h] + rest;
      forall i | 0 <= i < |c|
        ensures h <= c[i] < |nodes|
      {
        if i > 0 {
          assert c[i] == rest[i - 1];
        }
      }
      forall i, j | 0 <= i < j < |c|
        ensures c[i] < c[j]
      {
        assert c[j] == rest[j - 1];
        if i > 0 {
          assert c[i] == rest[i - 1];
        } else {
          assert next.value > h;
        }
      }
    } else {
      assert SiblingChain(nodes, link) == [];
    }
  }

  /** The children of a node come after it in the arena, in strictly increasing order, so none appears twice. */
  lemma ChildrenAscend(nodes: seq<Node>, h: Handle)
    requires ValidArena(nodes) && h < |nodes|
    ensures var r := Children(nodes, h);
      (forall i :: 0 <= i < |r| ==> h < r[i] < |nodes|) &&
      (forall i, j :: 0 <= i < j < |r| ==> r[i] < r[j])
  {
    assert LinksOrdered(nodes, h);
    ChainAscends(nodes, nodes[h].firstChild);
  }

  /** The end of the sibling chain that starts at `h`. */
  function LastSibling(nodes: seq<Node>, h: Handle): (last: Handle)
    requires ValidArena(nodes) && h < |nodes|
    ensures h <= last < |nodes| && nodes[last].nextSibling.None?
    ensures SiblingChain(nodes, Some(h))[|SiblingChain(nodes, Some(h))| - 1] == last
    decreases |nodes| - h
  {
    assert LinksOrdered(nodes, h);
    match nodes[h].nextSibling
    case None => h
    case Some(next) => LastSibling(nodes, next)
  }

  /** The last sibling of a chain is on the chain, and following siblings from it goes nowhere. */
  lemma {:induction false} LastSiblingOnChain(nodes: seq<Node>, start: Handle)
    requires ValidArena(nodes) && start < |nodes|
    ensures LastSibling(nodes, start) in SiblingChain(nodes, Some(start))
    decreases |nodes| - start
  {
    assert LinksOrdered(nodes, start);
    if nodes[start].nextSibling.Some? {
      LastSiblingOnChain(nodes, nodes[start].nextSibling.value);
    }
  }

  /**
   * Linking a node appended to the arena after the last sibling of a chain extends that chain by
   * exactly the new node, provided no other next-sibling link changed.
   */
  lemma {:induction false} ChainExtended(nodes: seq<Node>, nodes': seq<Node>, start: Handle)
    requires ValidArena(nodes) && ValidArena(nodes') && start < |nodes| && |nodes'| == |nodes| + 1
    requires forall x :: 0 <= x < |nodes| && x != LastSibling(nodes, start) ==> nodes'[x].nextSibling == nodes[x].nextSibling
    requires nodes'[LastSibling(nodes, start)].nextSibling == Some(|nodes|)
    requires nodes'[|nodes|].nextSibling.None?
    ensures SiblingChain(nodes', Some(start)) == SiblingChain(nodes, Some(start)) + [|nodes|]
    decreases |nodes| - start
  {
    assert LinksOrdered(nodes, start) && LinksOrdered(nodes', |nodes|);
    var last := LastSibling(nodes, start);
    if start == last {
      assert SiblingChain(nodes', Some(|nodes|)) == [|nodes|];
    } else {
      var next := nodes[start].nextSibling.value;
      assert nodes'[start].nextSibling == Some(next);
      ChainExtended(nodes, nodes', next);
    }
  }

  /**
   * The nodes of one page with the source's setters. The source mutates each node in place
   * through `RefCell`; here a setter replaces one entry of the arena.
   */
  class NodeArena {
    var nodes: seq<Node>

    /** The arena of a fresh window: just the Document (dom/window.rs). */
    constructor ()
      ensures nodes == [NewNode(Document)]
      ensures ValidArena(nodes)
    {
      nodes := [NewNode(Document)];
    }

    /** Adds a node with no links and returns its handle. */
    method Append(kind: NodeKind) returns (h: Handle)
      modifies this
      ensures h == |old(nodes)|
      ensures nodes == old(nodes) + [NewNode(kind)]
    {
      h := |nodes|;
      nodes := nodes + [NewNode(kind)];
    }

    method SetParent(h: Handle, parent: Option<Handle>)
      requires h < |nodes|
      modifies this
      ensures nodes == old(nodes)[h := old(nodes)[h].(parent := parent)]
    {
      nodes := nodes[h := nodes[h].(parent := parent)];
    }

    method SetFirstChild(h: Handle, firstChild: Option<Handle>)
      requires h < |nodes|
      modifies this
      ensures nodes == old(nodes)[h := old(nodes)[h].(firstChild := firstChild)]
    {
      nodes := nodes[h := nodes[h].(firstChild := firstChild)];
    }

    method SetLastChild(h: Handle, lastChild: Option<Handle>)
      requires h < |nodes|
      modifies this
      ensures nodes == old(nodes)[h := old(nodes)[h].(lastChild := lastChild)]
    {
      nodes := nodes[h := nodes[h].(lastChild := lastChild)];
    }

    method SetPreviousSibling(h: Handle, previousSibling: Option<Handle>)
      requires h < |nodes|
      modifies this
      ensures nodes == old(nodes)[h := old(nodes)[h].(previousSibling := previousSibling)]
    {
      nodes := nodes[h := nodes[h].(previousSibling := previousSibling)];
    }

    method SetNextSibling(h: Handle, nextSibling: Option<Handle>)
      requires h < |nodes|
      modifies this
      ensures nodes == old(nodes)[h := old(nodes)[h].(nextSibling := nextSibling)]
    {
      nodes := nodes[h := nodes[h].(nextSibling := nextSibling)];
    }

    /** Replaces the kind of a node, as the parser does when it appends to a text node. */
    method SetKind(h: Handle, kind: NodeKind)
      requires h < |nodes|
      modifies this
      ensures nodes == old(nodes)[h := old(nodes)[h].(kind := kind)]
    {
      nodes := nodes[h := nodes[h].(kind := kind)];
    }
  }
}
