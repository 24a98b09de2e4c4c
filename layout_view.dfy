/**
 * The layout tree (layout/layout_view.rs): building it from the DOM and the style sheet, the size
 * and position passes, and painting. The objects live in a `LayoutArena`; the pure functions
 * below say what each traversal leaves in the arena, and the methods are proved to do exactly that.
 */
module LayoutView {
  import opened Wrappers
  import E = DomElement
  import D = DomNode
  import DomApi
  import opened Cssom
  import opened LayoutObject

  /** A link into the DOM that never reaches the Document (handle 0). */
  predicate NotDocumentLink(link: Option<D.Handle>)
  {
    link.None? || link.value > 0
  }

  function Measure(dom: seq<D.Node>, link: Option<D.Handle>): nat
    requires D.InArena(dom, link)
  {
    if link.Some? then |dom| - link.value else 0
  }

  /** `create_layout_object` gives up on node `x`: its resolved display is none. */
  predicate Suppressed(env: StyleEnv, dom: seq<D.Node>, x: D.Handle, parentStyle: Option<Style>, sheet: StyleSheet)
    requires x < |dom|
  {
    StyleFor(env, dom[x].kind, parentStyle, sheet).display == DisplayNone
  }

  /**
   * The search loop at the start of `build_layout_tree`: the first node of the sibling chain
   * starting at `link` for which a layout object is created.
   */
  function FirstShown(env: StyleEnv, dom: seq<D.Node>, link: Option<D.Handle>, parentStyle: Option<Style>, sheet: StyleSheet): (r: Option<D.Handle>)
    requires D.ValidArena(dom) && D.InArena(dom, link) && NotDocumentLink(link)
    ensures r.Some? ==> link.Some? && link.value <= r.value < |dom| && r.value > 0 && !Suppressed(env, dom, r.value, parentStyle, sheet)
    decreases Measure(dom, link)
  {
    match link
    case None => None
    case Some(x) =>
      assert D.LinksOrdered(dom, x);
      if !Suppressed(env, dom, x, parentStyle, sheet) then Some(x)
      else FirstShown(env, dom, dom[x].nextSibling, parentStyle, sheet)
  }

  /** Every node of `nodes` is in the arena and suppressed. */
  predicate AllSuppressed(env: StyleEnv, dom: seq<D.Node>, nodes: seq<D.Handle>, parentStyle: Option<Style>, sheet: StyleSheet)
  {
    forall i :: 0 <= i < |nodes| ==> nodes[i] < |dom| && Suppressed(env, dom, nodes[i], parentStyle, sheet)
  }

  lemma SuppressedCons(env: StyleEnv, dom: seq<D.Node>, x: D.Handle, rest: seq<D.Handle>, parentStyle: Option<Style>, sheet: StyleSheet)
    ensures AllSuppressed(env, dom, [x] + rest, parentStyle, sheet) <==>
      x < |dom| && Suppressed(env, dom, x, parentStyle, sheet) && AllSuppressed(env, dom, rest, parentStyle, sheet)
  {
    var s := [x] + rest;
    assert s[0] == x;
    if AllSuppressed(env, dom, s, parentStyle, sheet) {
      forall i | 0 <= i < |rest| ensures rest[i] < |dom| && Suppressed(env, dom, rest[i], parentStyle, sheet) {
        assert rest[i] == s[i + 1];
      }
    }
    if x < |dom| && Suppressed(env, dom, x, parentStyle, sheet) && AllSuppressed(env, dom, rest, parentStyle, sheet) {
      forall i | 0 <= i < |s| ensures s[i] < |dom| && Suppressed(env, dom, s[i], parentStyle, sheet) {
        if i > 0 { assert s[i] == rest[i - 1]; }
      }
    }
  }

  /** `FirstShown` finds nothing exactly when the whole chain is suppressed, and otherwise the first node that is not. */
  lemma {:induction false} FirstShownIsFirst(env: StyleEnv, dom: seq<D.Node>, link: Option<D.Handle>, parentStyle: Option<Style>, sheet: StyleSheet)
    requires D.ValidArena(dom) && D.InArena(dom, link) && NotDocumentLink(link)
    ensures FirstShown(env, dom, link, parentStyle, sheet).None? <==>
      AllSuppressed(env, dom, D.SiblingChain(dom, link), parentStyle, sheet)
    ensures var chain := D.SiblingChain(dom, link);
      FirstShown(env, dom, link, parentStyle, sheet).Some? ==>
        exists i :: 0 <= i < |chain| && chain[i] == FirstShown(env, dom, link, parentStyle, sheet).value &&
          AllSuppressed(env, dom, chain[..i], parentStyle, sheet)
    decreases Measure(dom, link)
  {
    if link.Some? {
      var x := link.value;
      assert D.LinksOrdered(dom, x);
      var next := dom[x].nextSibling;
      var chain := D.SiblingChain(dom, link);
      var rest := D.SiblingChain(dom, next);
      assert chain == [x] + rest;
      SuppressedCons(env, dom, x, rest, parentStyle, sheet);
      if Suppressed(env, dom, x, parentStyle, sheet) {
        FirstShownIsFirst(env, dom, next, parentStyle, sheet);
        assert FirstShown(env, dom, link, parentStyle, sheet) == FirstShown(env, dom, next, parentStyle, sheet);
        if FirstShown(env, dom, next, parentStyle, sheet).Some? {
          var i :| 0 <= i < |rest| && rest[i] == FirstShown(env, dom, next, parentStyle, sheet).value &&
            AllSuppressed(env, dom, rest[..i], parentStyle, sheet);
          assert chain[i + 1] == rest[i];
          assert chain[..i + 1] == [x] + rest[..i];
          SuppressedCons(env, dom, x, rest[..i], parentStyle, sheet);
        }
      } else {
        assert chain[..0] == [];
      }
    }
  }

  /** The arena after a (partial) build, and the handle of the object built, if any. */
  datatype Built = Built(objects: seq<LayoutObject>, root: Option<nat>)

  predicate BuildPre(dom: seq<D.Node>, objs: seq<LayoutObject>, link: Option<D.Handle>, parent: Option<nat>)
  {
    D.ValidArena(dom) && D.InArena(dom, link) && NotDocumentLink(link) && ValidObjects(objs) && InObjects(objs, parent)
  }

  /**
   * The arena `objs'` grows `objs`: it is valid, the objects that were there are left alone, and
   * the objects added have no geometry yet.
   */
  predicate Extends(objs: seq<LayoutObject>, objs': seq<LayoutObject>)
  {
    ValidObjects(objs') && |objs| <= |objs'| &&
    (forall i :: 0 <= i < |objs| ==> objs'[i] == objs[i]) &&
    (forall i :: |objs| <= i < |objs'| ==> objs'[i].point == LayoutPoint(0, 0) && objs'[i].size == LayoutSize(0, 0))
  }

  lemma ExtendsTrans(a: seq<LayoutObject>, b: seq<LayoutObject>, c: seq<LayoutObject>)
    requires Extends(a, b) && Extends(b, c)
    ensures Extends(a, c)
  {
    forall i | |a| <= i < |c| ensures c[i].point == LayoutPoint(0, 0) && c[i].size == LayoutSize(0, 0) {
      if i < |b| { assert c[i] == b[i]; }
    }
  }

  /** What every build guarantees: the arena grows, nothing is added when nothing is built, and the object built is the first one added. */
  predicate BuildPost(objs: seq<LayoutObject>, b: Built)
  {
    Extends(objs, b.objects) &&
    (b.root.None? ==> b.objects == objs) &&
    (b.root.Some? ==> b.root.value == |objs| < |b.objects|)
  }

  lemma AppendCreated(objs: seq<LayoutObject>, o: LayoutObject)
    requires ValidObjects(objs) && ObjectLinksOrdered(o, |objs|, |objs| + 1)
    requires o.point == LayoutPoint(0, 0) && o.size == LayoutSize(0, 0)
    ensures Extends(objs, objs + [o])
  {
    var objs' := objs + [o];
    forall h | 0 <= h < |objs'| ensures ObjectLinksOrdered(objs'[h], h, |objs'|) {
      if h < |objs| { assert objs'[h] == objs[h]; assert ObjectLinksOrdered(objs[h], h, |objs|); }
    }
  }

  /** Linking the first added object to later ones keeps the arena growing from `objs`. */
  lemma LinkRoot(objs: seq<LayoutObject>, objs': seq<LayoutObject>, firstChild: Option<nat>, nextSibling: Option<nat>)
    requires Extends(objs, objs') && |objs| < |objs'|
    requires objs'[|objs|].parent.None? || objs'[|objs|].parent.value < |objs|
    requires firstChild.None? || |objs| < firstChild.value < |objs'|
    requires nextSibling.None? || |objs| < nextSibling.value < |objs'|
    ensures Extends(objs, objs'[|objs| := objs'[|objs|].(firstChild := firstChild, nextSibling := nextSibling)])
  {
    var h := |objs|;
    var linked := objs'[h := objs'[h].(firstChild := firstChild, nextSibling := nextSibling)];
    forall i | 0 <= i < |linked| ensures ObjectLinksOrdered(linked[i], i, |linked|) {
      if i != h { assert ObjectLinksOrdered(objs'[i], i, |objs'|); }
    }
  }

  /**
   * `build_layout_tree`: the object of the first shown node of the chain at `link` is added, the
   * trees of its children and siblings are built (`BuildKids`), and the object is linked to them.
   */
  function BuildTree(env: StyleEnv, dom: seq<D.Node>, objs: seq<LayoutObject>, link: Option<D.Handle>, parent: Option<nat>, sheet: StyleSheet): (b: Built)
    requires BuildPre(dom, objs, link, parent)
    ensures BuildPost(objs, b)
    ensures b.root.None? <==> FirstShown(env, dom, link, ParentStyle(objs, parent), sheet).None?
    decreases Measure(dom, link), 1
  {
    var parentStyle := ParentStyle(objs, parent);
    match FirstShown(env, dom, link, parentStyle, sheet)
    case None => Built(objs, None)
    case Some(n) =>
      var o := CreateLayoutObject(env, dom, Some(n), parent, parentStyle, sheet).value;
      var h := |objs|;
      AppendCreated(objs, o);
      var k := BuildKids(env, dom, objs + [o], n, sheet);
      ExtendsTrans(objs, objs + [o], k.objects);
      assert k.objects[h] == o;
      LinkRoot(objs, k.objects, k.firstChild, k.nextSibling);
      Built(k.objects[h := o.(firstChild := k.firstChild, nextSibling := k.nextSibling)], Some(h))
  }

  /** The arena after building an object's children and siblings, and the handles of the two. */
  datatype Kids = Kids(objects: seq<LayoutObject>, firstChild: Option<nat>, nextSibling: Option<nat>)

  /**
   * The rest of `build_layout_tree` for the object just added (the last of `objs`) for DOM node
   * `n`: the tree of its children with this object as parent, the tree of its siblings with no
   * parent, and, when either is empty although the DOM has nodes there, a retry from the
   * following DOM sibling with this object as parent.
   */
  function BuildKids(env: StyleEnv, dom: seq<D.Node>, objs: seq<LayoutObject>, n: D.Handle, sheet: StyleSheet): (k: Kids)
    requires D.ValidArena(dom) && 0 < n < |dom| && ValidObjects(objs) && |objs| > 0
    ensures Extends(objs, k.objects)
    ensures k.firstChild.None? || |objs| - 1 < k.firstChild.value < |k.objects|
    ensures k.nextSibling.None? || |objs| - 1 < k.nextSibling.value < |k.objects|
    decreases Measure(dom, Some(n)), 0
  {
    assert D.LinksOrdered(dom, n);
    var h := |objs| - 1;
    var originalFirstChild, originalNextSibling := dom[n].firstChild, dom[n].nextSibling;
    var fc := BuildTree(env, dom, objs, originalFirstChild, Some(h), sheet);
    var ns := BuildTree(env, dom, fc.objects, originalNextSibling, None, sheet);
    ExtendsTrans(objs, fc.objects, ns.objects);
    var fc2 := Refill(env, dom, ns.objects, fc.root, originalFirstChild, h, sheet);
    ExtendsTrans(objs, ns.objects, fc2.objects);
    var ns2 := Refill(env, dom, fc2.objects, ns.root, originalNextSibling, h, sheet);
    ExtendsTrans(objs, fc2.objects, ns2.objects);
    Kids(ns2.objects, fc2.root, ns2.root)
  }

  /**
   * The retry after a first attempt that built `root` from the DOM link `original`: when nothing
   * was built although there was a node, build again from the node after it, with the object `h`
   * as parent; otherwise keep what was built.
   */
  function Refill(env: StyleEnv, dom: seq<D.Node>, objs: seq<LayoutObject>, root: Option<nat>, original: Option<D.Handle>, h: nat, sheet: StyleSheet): (b: Built)
    requires D.ValidArena(dom) && D.InArena(dom, original) && NotDocumentLink(original)
    requires ValidObjects(objs) && h < |objs| && InObjects(objs, root)
    ensures Extends(objs, b.objects) && InObjects(b.objects, b.root)
    ensures b.root.Some? ==> b.root == root || b.root.value == |objs|
    decreases Measure(dom, original), 3
  {
    if root.None? && original.Some? then
      assert D.LinksOrdered(dom, original.value);
      Retry(env, dom, objs, dom[original.value].nextSibling, Some(h), sheet)
    else Built(objs, root)
  }

  /** The retry `loop` of `build_layout_tree`: build from `link`, and move on to its next sibling while nothing is built. */
  function Retry(env: StyleEnv, dom: seq<D.Node>, objs: seq<LayoutObject>, link: Option<D.Handle>, parent: Option<nat>, sheet: StyleSheet): (b: Built)
    requires BuildPre(dom, objs, link, parent)
    ensures BuildPost(objs, b)
    decreases Measure(dom, link), 2
  {
    var r := BuildTree(env, dom, objs, link, parent, sheet);
    if r.root.None? && link.Some? then
      assert D.LinksOrdered(dom, link.value);
      Retry(env, dom, r.objects, dom[link.value].nextSibling, parent, sheet)
    else r
  }

  /** The retry loops find nothing the first build missed: a build from `link` already searches all of its siblings. */
  lemma {:induction false} RetryIsBuild(env: StyleEnv, dom: seq<D.Node>, objs: seq<LayoutObject>, link: Option<D.Handle>, parent: Option<nat>, sheet: StyleSheet)
    requires BuildPre(dom, objs, link, parent)
    ensures Retry(env, dom, objs, link, parent, sheet) == BuildTree(env, dom, objs, link, parent, sheet)
    decreases Measure(dom, link)
  {
    var r := BuildTree(env, dom, objs, link, parent, sheet);
    if r.root.None? && link.Some? {
      var x := link.value;
      assert D.LinksOrdered(dom, x);
      RetryIsBuild(env, dom, objs, dom[x].nextSibling, parent, sheet);
      assert FirstShown(env, dom, dom[x].nextSibling, ParentStyle(objs, parent), sheet).None?;
    }
  }

  /** The DOM node of the object a link points to. */
  function NodeOf(objs: seq<LayoutObject>, link: Option<nat>): Option<D.Handle>
    requires InObjects(objs, link)
  {
    if link.Some? then Some(objs[link.value].node) else None
  }

  /**
   * The DOM node a built object's next sibling comes from: the first shown node of the
   * following DOM siblings with no parent style or, when there is none, the first node after
   * the immediate next sibling shown with the object's own style as the parent's.
   */
  function NextShown(env: StyleEnv, dom: seq<D.Node>, n: D.Handle, style: Style, sheet: StyleSheet): (r: Option<D.Handle>)
    requires D.ValidArena(dom) && 0 < n < |dom|
    ensures r.Some? ==> n < r.value < |dom| && dom[n].nextSibling.Some?
    ensures dom[n].nextSibling.None? ==> r.None?
  {
    assert D.LinksOrdered(dom, n);
    var direct := FirstShown(env, dom, dom[n].nextSibling, None, sheet);
    if direct.Some? || dom[n].nextSibling.None? then direct
    else
      assert D.LinksOrdered(dom, dom[n].nextSibling.value);
      FirstShown(env, dom, dom[dom[n].nextSibling.value].nextSibling, Some(style), sheet)
  }

  /** A build adds an object exactly for the node `FirstShown` finds. */
  lemma BuildTreeFinds(env: StyleEnv, dom: seq<D.Node>, objs: seq<LayoutObject>, link: Option<D.Handle>, parent: Option<nat>, sheet: StyleSheet)
    requires BuildPre(dom, objs, link, parent)
    ensures var b := BuildTree(env, dom, objs, link, parent, sheet);
      InObjects(b.objects, b.root) && NodeOf(b.objects, b.root) == FirstShown(env, dom, link, ParentStyle(objs, parent), sheet)
  {
    var parentStyle := ParentStyle(objs, parent);
    var found := FirstShown(env, dom, link, parentStyle, sheet);
    if found.Some? {
      var n := found.value;
      var o := CreateLayoutObject(env, dom, Some(n), parent, parentStyle, sheet).value;
      var h := |objs|;
      AppendCreated(objs, o);
      var k := BuildKids(env, dom, objs + [o], n, sheet);
      assert k.objects[h] == (objs + [o])[h] == o;
      assert BuildTree(env, dom, objs, link, parent, sheet) == Built(k.objects[h := o.(firstChild := k.firstChild, nextSibling := k.nextSibling)], Some(h));
    }
  }

  /** Growing the arena does not change the node of an object already there. */
  lemma NodeOfExtends(objs: seq<LayoutObject>, objs': seq<LayoutObject>, link: Option<nat>)
    requires Extends(objs, objs') && InObjects(objs, link)
    ensures InObjects(objs', link) && NodeOf(objs', link) == NodeOf(objs, link)
  {
  }

  /** A retry builds an object for the first shown node after `original`, with object `h`'s style as the parent's. */
  lemma RefillFinds(env: StyleEnv, dom: seq<D.Node>, objs: seq<LayoutObject>, root: Option<nat>, original: Option<D.Handle>, h: nat, sheet: StyleSheet)
    requires D.ValidArena(dom) && D.InArena(dom, original) && NotDocumentLink(original)
    requires ValidObjects(objs) && h < |objs| && InObjects(objs, root)
    ensures var b := Refill(env, dom, objs, root, original, h, sheet);
      if root.None? && original.Some? then
        D.LinksOrdered(dom, original.value) &&
        NodeOf(b.objects, b.root) == FirstShown(env, dom, dom[original.value].nextSibling, Some(objs[h].style), sheet)
      else b == Built(objs, root)
  {
    if root.None? && original.Some? {
      assert D.LinksOrdered(dom, original.value);
      RetryIsBuild(env, dom, objs, dom[original.value].nextSibling, Some(h), sheet);
      BuildTreeFinds(env, dom, objs, dom[original.value].nextSibling, Some(h), sheet);
    }
  }

  /** The first child and the next sibling built for the object of node `n` come from the nodes the source intends. */
  lemma KidsLinks(env: StyleEnv, dom: seq<D.Node>, objs: seq<LayoutObject>, n: D.Handle, sheet: StyleSheet)
    requires D.ValidArena(dom) && 0 < n < |dom| && ValidObjects(objs) && |objs| > 0
    ensures var k := BuildKids(env, dom, objs, n, sheet);
      D.LinksOrdered(dom, n) &&
      NodeOf(k.objects, k.firstChild) == FirstShown(env, dom, dom[n].firstChild, Some(objs[|objs| - 1].style), sheet) &&
      NodeOf(k.objects, k.nextSibling) == NextShown(env, dom, n, objs[|objs| - 1].style, sheet)
  {
    assert D.LinksOrdered(dom, n);
    var h := |objs| - 1;
    var style := objs[h].style;
    var originalFirstChild, originalNextSibling := dom[n].firstChild, dom[n].nextSibling;
    var fc := BuildTree(env, dom, objs, originalFirstChild, Some(h), sheet);
    BuildTreeFinds(env, dom, objs, originalFirstChild, Some(h), sheet);
    var ns := BuildTree(env, dom, fc.objects, originalNextSibling, None, sheet);
    BuildTreeFinds(env, dom, fc.objects, originalNextSibling, None, sheet);
    ExtendsTrans(objs, fc.objects, ns.objects);
    NodeOfExtends(fc.objects, ns.objects, fc.root);
    assert ns.objects[h] == objs[h];
    var fc2 := Refill(env, dom, ns.objects, fc.root, originalFirstChild, h, sheet);
    RefillFinds(env, dom, ns.objects, fc.root, originalFirstChild, h, sheet);
    assert NodeOf(fc2.objects, fc2.root) == FirstShown(env, dom, originalFirstChild, Some(style), sheet);
    ExtendsTrans(objs, ns.objects, fc2.objects);
    assert fc2.objects[h] == objs[h];
    var ns2 := Refill(env, dom, fc2.objects, ns.root, originalNextSibling, h, sheet);
    RefillFinds(env, dom, fc2.objects, ns.root, originalNextSibling, h, sheet);
    NodeOfExtends(ns.objects, fc2.objects, ns.root);
    assert NodeOf(ns2.objects, ns2.root) == NextShown(env, dom, n, style, sheet);
    NodeOfExtends(fc2.objects, ns2.objects, fc2.root);
  }

  /**
   * A build that finds a shown node adds its object first and links it to the objects of the
   * nodes `KidsLinks` names.
   */
  lemma BuildLinks(env: StyleEnv, dom: seq<D.Node>, objs: seq<LayoutObject>, link: Option<D.Handle>, parent: Option<nat>, sheet: StyleSheet)
    requires BuildPre(dom, objs, link, parent)
    requires FirstShown(env, dom, link, ParentStyle(objs, parent), sheet).Some?
    ensures var b := BuildTree(env, dom, objs, link, parent, sheet);
      var n := FirstShown(env, dom, link, ParentStyle(objs, parent), sheet).value;
      var style := b.objects[|objs|].style;
      D.LinksOrdered(dom, n) && b.root == Some(|objs|) && b.objects[|objs|].node == n &&
      InObjects(b.objects, b.objects[|objs|].firstChild) && InObjects(b.objects, b.objects[|objs|].nextSibling) &&
      NodeOf(b.objects, b.objects[|objs|].firstChild) == FirstShown(env, dom, dom[n].firstChild, Some(style), sheet) &&
      NodeOf(b.objects, b.objects[|objs|].nextSibling) == NextShown(env, dom, n, style, sheet)
  {
    var parentStyle := ParentStyle(objs, parent);
    var n := FirstShown(env, dom, link, parentStyle, sheet).value;
    var o := CreateLayoutObject(env, dom, Some(n), parent, parentStyle, sheet).value;
    var h := |objs|;
    AppendCreated(objs, o);
    var k := BuildKids(env, dom, objs + [o], n, sheet);
    KidsLinks(env, dom, objs + [o], n, sheet);
    assert (objs + [o])[h] == o;
    var b := BuildTree(env, dom, objs, link, parent, sheet);
    assert b == Built(k.objects[h := o.(firstChild := k.firstChild, nextSibling := k.nextSibling)], Some(h));
    assert NodeOf(b.objects, k.firstChild) == NodeOf(k.objects, k.firstChild);
    assert NodeOf(b.objects, k.nextSibling) == NodeOf(k.objects, k.nextSibling);
  }

  /**
   * `build_layout_tree` on the arena: the search loop for the first shown node, then the object
   * is added and linked to the trees `BuildKidsOf` builds.
   */
  method BuildLayoutTree(arena: LayoutArena, env: StyleEnv, dom: seq<D.Node>, link: Option<D.Handle>, parent: Option<nat>, sheet: StyleSheet)
    returns (r: Option<nat>)
    requires BuildPre(dom, arena.objects, link, parent)
    modifies arena
    ensures Built(arena.objects, r) == BuildTree(env, dom, old(arena.objects), link, parent, sheet)
    decreases Measure(dom, link), 1
  {
    ghost var objs0 := arena.objects;
    var target, layoutObject := FindShown(arena, env, dom, link, parent, sheet);
    if layoutObject.None? {
      assert BuildTree(env, dom, objs0, link, parent, sheet) == Built(objs0, None);
      return None;
    }
    var n := target.value;
    var o := layoutObject.value;
    AppendCreated(objs0, o);
    var h := arena.Append(o);
    var firstChild, nextSibling := BuildKidsOf(arena, env, dom, n, sheet);
    ghost var k := BuildKids(env, dom, objs0 + [o], n, sheet);
    assert k == Kids(arena.objects, firstChild, nextSibling);
    ExtendsTrans(objs0, objs0 + [o], arena.objects);
    assert arena.objects[h] == o;
    LinkRoot(objs0, arena.objects, firstChild, nextSibling);
    ghost var linked := arena.objects[h := o.(firstChild := firstChild, nextSibling := nextSibling)];
    arena.SetFirstChild(h, firstChild);
    arena.SetNextSibling(h, nextSibling);
    assert arena.objects == linked;
    r := Some(h);
    BuildTreeFound(env, dom, objs0, link, parent, sheet);
  }

  /** A build that finds a shown node adds its object and links it to the trees `BuildKids` builds. */
  lemma BuildTreeFound(env: StyleEnv, dom: seq<D.Node>, objs: seq<LayoutObject>, link: Option<D.Handle>, parent: Option<nat>, sheet: StyleSheet)
    requires BuildPre(dom, objs, link, parent)
    requires FirstShown(env, dom, link, ParentStyle(objs, parent), sheet).Some?
    ensures var n := FirstShown(env, dom, link, ParentStyle(objs, parent), sheet).value;
      var o := CreateLayoutObject(env, dom, Some(n), parent, ParentStyle(objs, parent), sheet).value;
      var k := BuildKids(env, dom, objs + [o], n, sheet);
      BuildTree(env, dom, objs, link, parent, sheet) ==
        Built(k.objects[|objs| := o.(firstChild := k.firstChild, nextSibling := k.nextSibling)], Some(|objs|))
  {
  }

  /**
   * The search loop of `build_layout_tree`: tries `create_layout_object` on the chain from `link`
   * until an object is created, and gives up at the end of the chain.
   */
  method FindShown(arena: LayoutArena, env: StyleEnv, dom: seq<D.Node>, link: Option<D.Handle>, parent: Option<nat>, sheet: StyleSheet)
    returns (target: Option<D.Handle>, layoutObject: Option<LayoutObject>)
    requires BuildPre(dom, arena.objects, link, parent)
    ensures layoutObject.None? <==> FirstShown(env, dom, link, ParentStyle(arena.objects, parent), sheet).None?
    ensures layoutObject.Some? ==>
      target == FirstShown(env, dom, link, ParentStyle(arena.objects, parent), sheet) &&
      layoutObject == CreateLayoutObject(env, dom, target, parent, ParentStyle(arena.objects, parent), sheet)
  {
    var parentStyle := ParentStyle(arena.objects, parent);
    target := link;
    layoutObject := arena.Create(env, dom, link, parent, sheet);
    while layoutObject.None?
      invariant D.InArena(dom, target) && NotDocumentLink(target)
      invariant layoutObject == CreateLayoutObject(env, dom, target, parent, parentStyle, sheet)
      invariant FirstShown(env, dom, link, parentStyle, sheet) == FirstShown(env, dom, target, parentStyle, sheet)
      decreases Measure(dom, target)
    {
      if target.Some? {
        assert D.LinksOrdered(dom, target.value);
        target := dom[target.value].nextSibling;
        layoutObject := arena.Create(env, dom, target, parent, sheet);
      } else {
        return;
      }
    }
  }

  /**
   * The second half of `build_layout_tree`, for the object just added (the last one) for DOM node
   * `n`: the first child and the next sibling, each retried when the first attempt builds nothing.
   */
  method BuildKidsOf(arena: LayoutArena, env: StyleEnv, dom: seq<D.Node>, n: D.Handle, sheet: StyleSheet)
    returns (firstChild: Option<nat>, nextSibling: Option<nat>)
    requires D.ValidArena(dom) && 0 < n < |dom| && arena.Valid() && |arena.objects| > 0
    modifies arena
    ensures Kids(arena.objects, firstChild, nextSibling) == BuildKids(env, dom, old(arena.objects), n, sheet)
    decreases Measure(dom, Some(n)), 0
  {
    assert D.LinksOrdered(dom, n);
    ghost var objs0 := arena.objects;
    var h := |arena.objects| - 1;
    var originalFirstChild := dom[n].firstChild;
    var originalNextSibling := dom[n].nextSibling;
    firstChild := BuildLayoutTree(arena, env, dom, originalFirstChild, Some(h), sheet);
    ghost var fc := Built(arena.objects, firstChild);
    nextSibling := BuildLayoutTree(arena, env, dom, originalNextSibling, None, sheet);
    ghost var ns := Built(arena.objects, nextSibling);
    ExtendsTrans(objs0, fc.objects, ns.objects);
    firstChild := RefillLoop(arena, env, dom, firstChild, originalFirstChild, h, sheet);
    ghost var fc2 := Built(arena.objects, firstChild);
    ExtendsTrans(objs0, ns.objects, fc2.objects);
    nextSibling := RefillLoop(arena, env, dom, nextSibling, originalNextSibling, h, sheet);
    assert BuildKids(env, dom, objs0, n, sheet) == Kids(arena.objects, fc2.root, nextSibling);
  }

  /** One of the two retries of `build_layout_tree`: the retry loop, run when the first attempt built nothing. */
  method RefillLoop(arena: LayoutArena, env: StyleEnv, dom: seq<D.Node>, root: Option<nat>, original: Option<D.Handle>, h: nat, sheet: StyleSheet)
    returns (r: Option<nat>)
    requires D.ValidArena(dom) && D.InArena(dom, original) && NotDocumentLink(original)
    requires arena.Valid() && h < |arena.objects| && InObjects(arena.objects, root)
    modifies arena
    ensures Built(arena.objects, r) == Refill(env, dom, old(arena.objects), root, original, h, sheet)
    decreases Measure(dom, original), 3
  {
    r := root;
    if root.None? && original.Some? {
      assert D.LinksOrdered(dom, original.value);
      r := RetryLoop(arena, env, dom, dom[original.value].nextSibling, Some(h), sheet);
    }
  }

  /** The retry `loop`: builds from successive DOM siblings until something is built or the chain ends. */
  method RetryLoop(arena: LayoutArena, env: StyleEnv, dom: seq<D.Node>, start: Option<D.Handle>, parent: Option<nat>, sheet: StyleSheet)
    returns (r: Option<nat>)
    requires BuildPre(dom, arena.objects, start, parent)
    modifies arena
    ensures Built(arena.objects, r) == Retry(env, dom, old(arena.objects), start, parent, sheet)
    decreases Measure(dom, start), 2
  {
    var originalDomNode := start;
    while true
      invariant BuildPre(dom, arena.objects, originalDomNode, parent) && Measure(dom, originalDomNode) <= Measure(dom, start)
      invariant arena.objects == old(arena.objects)
      invariant Retry(env, dom, old(arena.objects), start, parent, sheet) == Retry(env, dom, arena.objects, originalDomNode, parent, sheet)
      decreases Measure(dom, originalDomNode)
    {
      r := BuildLayoutTree(arena, env, dom, originalDomNode, parent, sheet);
      if r.None? && originalDomNode.Some? {
        assert D.LinksOrdered(dom, originalDomNode.value);
        originalDomNode := dom[originalDomNode.value].nextSibling;
        continue;
      }
      break;
    }
  }

  // ---------------------------------------------------------------------------------------------
  // Size and position passes

  /**
   * `calculate_node_size`: a block is sized before its children (so they see its width), the
   * first child is sized inside this object's size and the next sibling inside the parent's, and
   * then the object is sized again from its children's sizes.
   */
  function SizePass(env: StyleEnv, objs: seq<LayoutObject>, link: Option<nat>, parentSize: LayoutSize): (r: seq<LayoutObject>)
    requires ValidObjects(objs) && InObjects(objs, link) && ValidMetrics(env.metrics)
    ensures Resized(objs, r, if link.Some? then link.value else |objs|)
    decreases if link.Some? then |objs| - link.value else 0
  {
    match link
    case None => objs
    case Some(h) =>
      assert ObjectLinksOrdered(objs[h], h, |objs|);
      var o1 := if objs[h].kind == Block then StoreSize(objs, h, SizeFor(env, objs, h, parentSize)) else objs;
      var o2 := SizePass(env, o1, o1[h].firstChild, o1[h].size);
      ResizedTrans(objs, o1, o2, h, if o1[h].firstChild.Some? then o1[h].firstChild.value else |o1|);
      var o3 := SizePass(env, o2, o2[h].nextSibling, parentSize);
      ResizedTrans(objs, o2, o3, h, if o2[h].nextSibling.Some? then o2[h].nextSibling.value else |o2|);
      var r := StoreSize(o3, h, SizeFor(env, o3, h, parentSize));
      ResizedTrans(objs, o3, r, h, h);
      r
  }

  /**
   * The arena `b` is `a` with some sizes and points changed, and the objects before handle `n`
   * untouched.
   */
  predicate Resized(a: seq<LayoutObject>, b: seq<LayoutObject>, n: nat)
  {
    SameShape(a, b) && ValidObjects(b) && forall i :: 0 <= i < |a| && i < n ==> b[i] == a[i]
  }

  lemma ResizedTrans(a: seq<LayoutObject>, b: seq<LayoutObject>, c: seq<LayoutObject>, n: nat, m: nat)
    requires Resized(a, b, n) && Resized(b, c, m)
    ensures Resized(a, c, if n < m then n else m)
  {
    forall h | 0 <= h < |a| ensures a[h].(point := c[h].point, size := c[h].size) == c[h] {
      assert a[h].(point := b[h].point, size := b[h].size) == b[h];
      assert b[h].(point := c[h].point, size := c[h].size) == c[h];
    }
  }

  /** Storing a size into object `h`. */
  function StoreSize(objs: seq<LayoutObject>, h: nat, size: LayoutSize): (r: seq<LayoutObject>)
    requires ValidObjects(objs) && h < |objs|
    ensures Resized(objs, r, h) && r[h].size == size
  {
    var r := objs[h := objs[h].(size := size)];
    assert SameShape(objs, r);
    SameShapeValid(objs, r);
    r
  }

  /**
   * After the size pass an object's size is what `compute_size` gives for the final sizes of its
   * children: a block is as wide as its parent, a text box has its text's size.
   */
  lemma SizePassSizesRoot(env: StyleEnv, objs: seq<LayoutObject>, h: nat, parentSize: LayoutSize)
    requires ValidObjects(objs) && h < |objs| && ValidMetrics(env.metrics)
    ensures var r := SizePass(env, objs, Some(h), parentSize);
      r[h].size == SizeFor(env, r, h, parentSize) &&
      (r[h].kind == Block ==> r[h].size.width == parentSize.width) &&
      (r[h].kind == Text && r[h].nodeKind.Text? ==> r[h].size == TextSize(env.metrics, r[h].style.fontSize, Utf8Length(r[h].nodeKind.text)))
  {
    assert ObjectLinksOrdered(objs[h], h, |objs|);
    var o1 := if objs[h].kind == Block then StoreSize(objs, h, SizeFor(env, objs, h, parentSize)) else objs;
    var o2 := SizePass(env, o1, o1[h].firstChild, o1[h].size);
    var o3 := SizePass(env, o2, o2[h].nextSibling, parentSize);
    var r := StoreSize(o3, h, SizeFor(env, o3, h, parentSize));
    assert SizePass(env, objs, Some(h), parentSize) == r;
    assert ObjectLinksOrdered(r[h], h, |r|);
    ChainsIgnoreEarlierObjects(o3, r, r[h].firstChild, Block, h);
  }

  /** `calculate_node_size` over `compute_size` as written, which computes a size and drops it. */
  function SizePassAsWritten(env: StyleEnv, objs: seq<LayoutObject>, link: Option<nat>, parentSize: LayoutSize): (r: seq<LayoutObject>)
    requires ValidObjects(objs) && InObjects(objs, link) && ValidMetrics(env.metrics)
    ensures SameShape(objs, r) && ValidObjects(r)
    decreases if link.Some? then |objs| - link.value else 0
  {
    match link
    case None => objs
    case Some(h) =>
      assert ObjectLinksOrdered(objs[h], h, |objs|);
      var o2 := SizePassAsWritten(env, objs, objs[h].firstChild, objs[h].size);
      assert o2[h].(point := objs[h].point, size := objs[h].size) == objs[h];
      SizePassAsWritten(env, o2, o2[h].nextSibling, parentSize)
  }

  /** As written, the size pass leaves every object as it was: no size is ever stored. */
  lemma {:induction false} SizePassAsWrittenChangesNothing(env: StyleEnv, objs: seq<LayoutObject>, link: Option<nat>, parentSize: LayoutSize)
    requires ValidObjects(objs) && InObjects(objs, link) && ValidMetrics(env.metrics)
    ensures SizePassAsWritten(env, objs, link, parentSize) == objs
    decreases if link.Some? then |objs| - link.value else 0
  {
    if link.Some? {
      var h := link.value;
      assert ObjectLinksOrdered(objs[h], h, |objs|);
      SizePassAsWrittenChangesNothing(env, objs, objs[h].firstChild, objs[h].size);
      SizePassAsWrittenChangesNothing(env, objs, objs[h].nextSibling, parentSize);
    }
  }

  /**
   * `calculate_node_position`: each object is placed from its parent's point and its previous
   * sibling, then its first child is placed inside it (after a notional block, with no previous
   * geometry) and its next sibling after it, with this object's point as the parent point.
   */
  function PositionPass(objs: seq<LayoutObject>, link: Option<nat>, parentPoint: LayoutPoint, previousKind: LayoutKind,
                        previousPoint: Option<LayoutPoint>, previousSize: Option<LayoutSize>): (r: seq<LayoutObject>)
    requires ValidObjects(objs) && InObjects(objs, link)
    ensures SameShape(objs, r) && ValidObjects(r)
    ensures forall i :: 0 <= i < |objs| && (link.None? || i < link.value) ==> r[i] == objs[i]
    ensures forall i :: 0 <= i < |objs| ==> r[i].size == objs[i].size
    decreases if link.Some? then |objs| - link.value else 0
  {
    match link
    case None => objs
    case Some(h) =>
      assert ObjectLinksOrdered(objs[h], h, |objs|);
      var o1 := objs[h := objs[h].(point := PositionFor(objs[h].kind, parentPoint, previousKind, previousPoint, previousSize))];
      assert SameShape(objs, o1);
      SameShapeValid(objs, o1);
      var o2 := PositionPass(o1, o1[h].firstChild, o1[h].point, Block, None, None);
      assert o2[h] == o1[h];
      PositionPass(o2, o2[h].nextSibling, o2[h].point, o2[h].kind, Some(o2[h].point), Some(o2[h].size))
  }

  /** The position pass places an object once, by `compute_position`, and never moves it again. */
  lemma PositionPassPlacesRoot(objs: seq<LayoutObject>, h: nat, parentPoint: LayoutPoint, previousKind: LayoutKind,
                               previousPoint: Option<LayoutPoint>, previousSize: Option<LayoutSize>)
    requires ValidObjects(objs) && h < |objs|
    ensures PositionPass(objs, Some(h), parentPoint, previousKind, previousPoint, previousSize)[h].point ==
            PositionFor(objs[h].kind, parentPoint, previousKind, previousPoint, previousSize)
  {
    assert ObjectLinksOrdered(objs[h], h, |objs|);
  }

  /** `calculate_node_size` on the arena. */
  method CalculateNodeSize(arena: LayoutArena, env: StyleEnv, link: Option<nat>, parentSize: LayoutSize)
    requires arena.Valid() && InObjects(arena.objects, link) && ValidMetrics(env.metrics)
    modifies arena
    ensures arena.objects == SizePass(env, old(arena.objects), link, parentSize)
    decreases if link.Some? then |arena.objects| - link.value else 0
  {
    if link.Some? {
      var h := link.value;
      assert ObjectLinksOrdered(arena.objects[h], h, |arena.objects|);
      if arena.objects[h].kind == Block {
        arena.ComputeSize(env, h, parentSize);
      }
      CalculateNodeSize(arena, env, arena.objects[h].firstChild, arena.objects[h].size);
      CalculateNodeSize(arena, env, arena.objects[h].nextSibling, parentSize);
      arena.ComputeSize(env, h, parentSize);
    }
  }

  /** `calculate_node_size` with `compute_size` as written. */
  method CalculateNodeSizeAsWritten(arena: LayoutArena, env: StyleEnv, link: Option<nat>, parentSize: LayoutSize)
    requires arena.Valid() && InObjects(arena.objects, link) && ValidMetrics(env.metrics)
    modifies arena
    ensures arena.objects == SizePassAsWritten(env, old(arena.objects), link, parentSize)
    decreases if link.Some? then |arena.objects| - link.value else 0
  {
    SizePassAsWrittenChangesNothing(env, arena.objects, link, parentSize);
    if link.Some? {
      var h := link.value;
      assert ObjectLinksOrdered(arena.objects[h], h, |arena.objects|);
      if arena.objects[h].kind == Block {
        arena.ComputeSizeAsWritten(env, h, parentSize);
      }
      CalculateNodeSizeAsWritten(arena, env, arena.objects[h].firstChild, arena.objects[h].size);
      SizePassAsWrittenChangesNothing(env, arena.objects, arena.objects[h].firstChild, arena.objects[h].size);
      CalculateNodeSizeAsWritten(arena, env, arena.objects[h].nextSibling, parentSize);
      SizePassAsWrittenChangesNothing(env, arena.objects, arena.objects[h].nextSibling, parentSize);
      arena.ComputeSizeAsWritten(env, h, parentSize);
    }
  }

  /** `calculate_node_position` on the arena. */
  method CalculateNodePosition(arena: LayoutArena, link: Option<nat>, parentPoint: LayoutPoint, previousKind: LayoutKind,
                               previousPoint: Option<LayoutPoint>, previousSize: Option<LayoutSize>)
    requires arena.Valid() && InObjects(arena.objects, link)
    modifies arena
    ensures arena.objects == PositionPass(old(arena.objects), link, parentPoint, previousKind, previousPoint, previousSize)
    decreases if link.Some? then |arena.objects| - link.value else 0
  {
    if link.None? {
      return;
    }
    var h := link.value;
    assert ObjectLinksOrdered(arena.objects[h], h, |arena.objects|);
    arena.ComputePosition(h, parentPoint, previousKind, previousPoint, previousSize);
    CalculateNodePosition(arena, arena.objects[h].firstChild, arena.objects[h].point, Block, None, None);
    var n := arena.objects[h];
    CalculateNodePosition(arena, n.nextSibling, n.point, n.kind, Some(n.point), Some(n.size));
  }

  // ---------------------------------------------------------------------------------------------
  // Painting

  /** The objects reachable from `link` along first-child and next-sibling links, in visiting order. */
  function Preorder(objs: seq<LayoutObject>, link: Option<nat>): (order: seq<nat>)
    requires ValidObjects(objs) && InObjects(objs, link)
    ensures forall i :: 0 <= i < |order| ==> order[i] < |objs|
    decreases if link.Some? then |objs| - link.value else 0
  {
    match link
    case None => []
    case Some(h) =>
      assert ObjectLinksOrdered(objs[h], h, |objs|);
      [h] + Preorder(objs, objs[h].firstChild) + Preorder(objs, objs[h].nextSibling)
  }

  /** The display items of the objects of `order`, one object after another. */
  function ItemsOf<T>(objs: seq<LayoutObject>, order: seq<nat>, paint: LayoutObject -> seq<T>): seq<T>
    requires forall i :: 0 <= i < |order| ==> order[i] < |objs|
  {
    if |order| == 0 then [] else paint(objs[order[0]]) + ItemsOf(objs, order[1..], paint)
  }

  lemma {:induction false} ItemsOfAppend<T>(objs: seq<LayoutObject>, a: seq<nat>, b: seq<nat>, paint: LayoutObject -> seq<T>)
    requires forall i :: 0 <= i < |a| ==> a[i] < |objs|
    requires forall i :: 0 <= i < |b| ==> b[i] < |objs|
    ensures ItemsOf(objs, a + b, paint) == ItemsOf(objs, a, paint) + ItemsOf(objs, b, paint)
    decreases |a|
  {
    if |a| == 0 {
      assert a + b == b;
    } else {
      assert (a + b)[0] == a[0];
      assert (a + b)[1..] == a[1..] + b;
      ItemsOfAppend(objs, a[1..], b, paint);
    }
  }

  /** The items of an object followed by an order are its own, then the order's. */
  lemma ItemsOfCons<T>(objs: seq<LayoutObject>, h: nat, rest: seq<nat>, paint: LayoutObject -> seq<T>)
    requires h < |objs| && forall i :: 0 <= i < |rest| ==> rest[i] < |objs|
    ensures forall i :: 0 <= i < |[h] + rest| ==> ([h] + rest)[i] < |objs|
    ensures ItemsOf(objs, [h] + rest, paint) == paint(objs[h]) + ItemsOf(objs, rest, paint)
  {
    assert ([h] + rest)[1..] == rest;
  }

  /** The items of a subtree: the object's own, then its first child's subtree's, then its next sibling's. */
  lemma ItemsOfStep<T>(objs: seq<LayoutObject>, h: nat, paint: LayoutObject -> seq<T>)
    requires ValidObjects(objs) && h < |objs| && ObjectLinksOrdered(objs[h], h, |objs|)
    ensures ItemsOf(objs, Preorder(objs, Some(h)), paint) ==
      paint(objs[h]) + ItemsOf(objs, Preorder(objs, objs[h].firstChild), paint) + ItemsOf(objs, Preorder(objs, objs[h].nextSibling), paint)
  {
    PreorderStep(objs, h);
    var below, after := Preorder(objs, objs[h].firstChild), Preorder(objs, objs[h].nextSibling);
    ItemsOfAppend(objs, below, after, paint);
    ItemsOfCons(objs, h, below + after, paint);
    SeqAssoc3(paint(objs[h]), ItemsOf(objs, below, paint), ItemsOf(objs, after, paint));
  }

  lemma SeqAssoc3<T>(a: seq<T>, b: seq<T>, c: seq<T>)
    ensures a + (b + c) == a + b + c
  {
  }

  /** An object's subtree is the object, then its first child's subtree, then its next sibling's. */
  lemma PreorderStep(objs: seq<LayoutObject>, h: nat)
    requires ValidObjects(objs) && h < |objs|
    ensures ObjectLinksOrdered(objs[h], h, |objs|)
    ensures Preorder(objs, Some(h)) == [h] + (Preorder(objs, objs[h].firstChild) + Preorder(objs, objs[h].nextSibling))
  {
    assert ObjectLinksOrdered(objs[h], h, |objs|);
  }

  /** The items `paint_node` has gathered after both recursive calls are those of the whole subtree. */
  lemma PaintedSubtree<T>(objs: seq<LayoutObject>, h: nat, paint: LayoutObject -> seq<T>, items: seq<T>, mid: seq<T>, out: seq<T>)
    requires ValidObjects(objs) && h < |objs| && ObjectLinksOrdered(objs[h], h, |objs|)
    requires mid == items + paint(objs[h]) + ItemsOf(objs, Preorder(objs, objs[h].firstChild), paint)
    requires out == mid + ItemsOf(objs, Preorder(objs, objs[h].nextSibling), paint)
    ensures out == items + ItemsOf(objs, Preorder(objs, Some(h)), paint)
  {
    ItemsOfStep(objs, h, paint);
    var own, below, after := paint(objs[h]), ItemsOf(objs, Preorder(objs, objs[h].firstChild), paint), ItemsOf(objs, Preorder(objs, objs[h].nextSibling), paint);
    SeqAssoc(items, own, below, after);
  }

  lemma SeqAssoc<T>(a: seq<T>, b: seq<T>, c: seq<T>, d: seq<T>)
    ensures a + b + c + d == a + (b + c + d)
  {
  }

  /**
   * `paint_node`: the items of the object (`LayoutObject::paint`, which is not part of this model
   * and is the parameter `paint`), then those of its first child's subtree, then those of its
   * next sibling's.
   */
  method PaintNode<T>(arena: LayoutArena, link: Option<nat>, paint: LayoutObject -> seq<T>, items: seq<T>) returns (out: seq<T>)
    requires arena.Valid() && InObjects(arena.objects, link)
    ensures out == items + ItemsOf(arena.objects, Preorder(arena.objects, link), paint)
    decreases if link.Some? then |arena.objects| - link.value else 0
  {
    match link {
      case Some(h) =>
        assert ObjectLinksOrdered(arena.objects[h], h, |arena.objects|);
        var o := arena.objects[h];
        var mid := PaintNode(arena, o.firstChild, paint, items + paint(o));
        out := PaintNode(arena, o.nextSibling, paint, mid);
        PaintedSubtree(arena.objects, h, paint, items, mid, out);
      case None =>
        out := items;
        assert ItemsOf(arena.objects, [], paint) == [];
    }
  }

  // ---------------------------------------------------------------------------------------------
  // The view

  /** The arena after the size pass (inside the content area's width) and the position pass (from the origin). */
  function UpdateLayout(env: StyleEnv, objs: seq<LayoutObject>, root: Option<nat>): (r: seq<LayoutObject>)
    requires ValidObjects(objs) && InObjects(objs, root) && ValidMetrics(env.metrics)
    ensures SameShape(objs, r) && ValidObjects(r)
  {
    var sized := SizePass(env, objs, root, LayoutSize(env.metrics.contentAreaWidth, 0));
    PositionPass(sized, root, LayoutPoint(0, 0), Block, None, None)
  }

  /** A block root ends up at the origin, as wide as the content area. */
  lemma UpdateLayoutRoot(env: StyleEnv, objs: seq<LayoutObject>, h: nat)
    requires ValidObjects(objs) && h < |objs| && ValidMetrics(env.metrics) && objs[h].kind == Block
    ensures UpdateLayout(env, objs, Some(h))[h].point == LayoutPoint(0, 0)
    ensures UpdateLayout(env, objs, Some(h))[h].size.width == env.metrics.contentAreaWidth
  {
    var sized := SizePass(env, objs, Some(h), LayoutSize(env.metrics.contentAreaWidth, 0));
    SizePassSizesRoot(env, objs, h, LayoutSize(env.metrics.contentAreaWidth, 0));
    assert sized[h].kind == Block;
    PositionPassPlacesRoot(sized, h, LayoutPoint(0, 0), Block, None, None);
  }

  /** The layout of a page: the tree built from the first `body` element of the DOM. */
  class LayoutView {
    const arena: LayoutArena
    var root: Option<nat>

    predicate Valid()
      reads this, arena
    {
      arena.Valid() && InObjects(arena.objects, root)
    }

    /**
     * `LayoutView::new`: builds the tree from the first `body` element in preorder, with no
     * parent, and lays it out.
     */
    constructor (env: StyleEnv, dom: seq<D.Node>, sheet: StyleSheet)
      requires D.ValidArena(dom) && ValidMetrics(env.metrics)
      ensures Valid() && fresh(arena)
      ensures var built := BuildTree(env, dom, [], DomApi.FindElement(dom, Some(D.DocumentHandle), E.Body), None, sheet);
        root == built.root && arena.objects == UpdateLayout(env, built.objects, built.root)
    {
      var a := new LayoutArena();
      var body := DomApi.FindElement(dom, Some(D.DocumentHandle), E.Body);
      assert body.Some? ==> dom[body.value].kind.Element?;
      var r := BuildLayoutTree(a, env, dom, body, None, sheet);
      arena := a;
      root := r;
      new;
      UpdateLayoutPasses(env);
    }

    /** `update_layout` */
    method UpdateLayoutPasses(env: StyleEnv)
      requires Valid() && ValidMetrics(env.metrics)
      modifies arena
      ensures Valid() && arena.objects == UpdateLayout(env, old(arena.objects), root)
    {
      CalculateNodeSize(arena, env, root, LayoutSize(env.metrics.contentAreaWidth, 0));
      CalculateNodePosition(arena, root, LayoutPoint(0, 0), Block, None, None);
    }

    /** `LayoutView::paint`: every object's items, in preorder. */
    method Paint<T>(paint: LayoutObject -> seq<T>) returns (items: seq<T>)
      requires Valid()
      ensures items == ItemsOf(arena.objects, Preorder(arena.objects, root), paint)
    {
      items := PaintNode(arena, root, paint, []);
    }
  }
}
