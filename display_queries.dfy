/**
 * The query engine of the layout coordinator: bounding-box lookup and hit
 * testing over the cached display list. A display list is a sequence of items;
 * each item has bounds and the identity of the document node that owns it, and
 * a clip item owns a nested list of children.
 */
module DisplayQueries {
  import opened Wrappers
  import opened Geometry

  /** The identity of a document node, compared by `==` (the item's `extra`). */
  type NodeId = nat

  /** The non-clip item classes; which one an item is does not matter to queries. */
  datatype PaintKind = SolidColor | Text | Image | Border

  datatype ItemBase = ItemBase(bounds: Rect, extra: NodeId)

  datatype DisplayItem =
    | Clip(base: ItemBase, children: seq<DisplayItem>)
    | Paint(kind: PaintKind, base: ItemBase)

  type DisplayList = seq<DisplayItem>

  // ---------------------------------------------------------------------------
  // The tree's items in traversal order, as an independent reference.

  /**
   * Every item of the tree, at any depth: for each item in order, the items
   * nested under it (when it is a clip) and then the item itself.
   */
  function Flatten(items: seq<DisplayItem>): seq<DisplayItem>
    decreases items
  {
    if items == [] then []
    else
      (if items[0].Clip? then Flatten(items[0].children) else [])
      + [items[0]] + Flatten(items[1..])
  }

  /** The bounds of the items in `items` that `node` owns, in order. */
  function OwnedBounds(items: seq<DisplayItem>, node: NodeId): seq<Rect>
  {
    if items == [] then []
    else
      (if items[0].base.extra == node then [items[0].base.bounds] else [])
      + OwnedBounds(items[1..], node)
  }

  lemma {:induction false} FlattenAppend(a: seq<DisplayItem>, b: seq<DisplayItem>)
    ensures Flatten(a + b) == Flatten(a) + Flatten(b)
    decreases a
  {
    if a == [] {
      assert a + b == b;
    } else {
      assert (a + b)[0] == a[0];
      assert (a + b)[1..] == a[1..] + b;
      FlattenAppend(a[1..], b);
    }
  }

  lemma {:induction false} OwnedBoundsAppend(a: seq<DisplayItem>, b: seq<DisplayItem>, node: NodeId)
    ensures OwnedBounds(a + b, node) == OwnedBounds(a, node) + OwnedBounds(b, node)
    decreases a
  {
    if a == [] {
      assert a + b == b;
    } else {
      assert (a + b)[0] == a[0];
      assert (a + b)[1..] == a[1..] + b;
      OwnedBoundsAppend(a[1..], b, node);
      var own := if a[0].base.extra == node then [a[0].base.bounds] else [];
      calc {
        OwnedBounds(a + b, node);
        own + OwnedBounds(a[1..] + b, node);
        own + (OwnedBounds(a[1..], node) + OwnedBounds(b, node));
        (own + OwnedBounds(a[1..], node)) + OwnedBounds(b, node);
      }
    }
  }

  /** Every bound in `OwnedBounds` belongs to an item of the list that `node` owns, and back. */
  lemma {:induction false} OwnedBoundsMembers(items: seq<DisplayItem>, node: NodeId, r: Rect)
    ensures r in OwnedBounds(items, node) <==>
            exists it :: it in items && it.base.extra == node && it.base.bounds == r
  {
    if items != [] {
      OwnedBoundsMembers(items[1..], node, r);
      assert forall it :: it in items <==> it == items[0] || it in items[1..];
    }
  }

  // ---------------------------------------------------------------------------
  // The content-box queries.

  /**
   * The bounds the content-box traversal collects for `node`, in the order it
   * collects them: for each item, first the matches among its nested items,
   * then the item's own bounds when `node` owns it.
   */
  function Matches(items: seq<DisplayItem>, node: NodeId): seq<Rect>
    decreases items
  {
    if items == [] then [] else ItemMatches(items[0], node) + Matches(items[1..], node)
  }

  /** The bounds the traversal collects for one item and the items nested under it. */
  function ItemMatches(item: DisplayItem, node: NodeId): seq<Rect>
    decreases item
  {
    (if item.Clip? then Matches(item.children, node) else [])
    + (if item.base.extra == node then [item.base.bounds] else [])
  }

  lemma MatchesSnoc(items: seq<DisplayItem>, i: nat, node: NodeId)
    requires i < |items|
    ensures Matches(items[..i + 1], node) == Matches(items[..i], node) + ItemMatches(items[i], node)
  {
    assert items[..i + 1] == items[..i] + [items[i]];
    MatchesAppend(items[..i], [items[i]], node);
    assert [items[i]][1..] == [];
  }

  /** Sibling order is preserved: the matches of a concatenation are the concatenated matches. */
  lemma {:induction false} MatchesAppend(a: seq<DisplayItem>, b: seq<DisplayItem>, node: NodeId)
    ensures Matches(a + b, node) == Matches(a, node) + Matches(b, node)
    decreases a
  {
    if a == [] {
      assert a + b == b;
    } else {
      assert (a + b)[0] == a[0];
      assert (a + b)[1..] == a[1..] + b;
      MatchesAppend(a[1..], b, node);
    }
  }

  /** A clip's descendants' matches come before the clip's own bounds. */
  lemma ClipMatchesOrder(base: ItemBase, children: seq<DisplayItem>, node: NodeId)
    requires base.extra == node
    ensures Matches([Clip(base, children)], node) == Matches(children, node) + [base.bounds]
  {
    assert [Clip(base, children)][1..] == [];
  }

  /**
   * The collected bounds are exactly the bounds of the items, at any depth,
   * that `node` owns, in traversal order; so there are as many as there are
   * such items.
   */
  lemma {:induction false} MatchesAreOwnedItems(items: seq<DisplayItem>, node: NodeId)
    ensures Matches(items, node) == OwnedBounds(Flatten(items), node)
    ensures |Matches(items, node)| == |OwnedBounds(Flatten(items), node)|
    decreases items
  {
    if items != [] {
      var head := if items[0].Clip? then Flatten(items[0].children) else [];
      if items[0].Clip? {
        MatchesAreOwnedItems(items[0].children, node);
      }
      MatchesAreOwnedItems(items[1..], node);
      OwnedBoundsAppend(head + [items[0]], Flatten(items[1..]), node);
      OwnedBoundsAppend(head, [items[0]], node);
      assert [items[0]][1..] == [];
    }
  }

  /** Membership form of the above: a bound is collected iff some owned item at any depth has it. */
  lemma MatchesMembers(items: seq<DisplayItem>, node: NodeId, r: Rect)
    ensures r in Matches(items, node) <==>
            exists it :: it in Flatten(items) && it.base.extra == node && it.base.bounds == r
  {
    MatchesAreOwnedItems(items, node);
    OwnedBoundsMembers(Flatten(items), node, r);
  }

  /** One step of `union_boxes_for_node`'s accumulator: start it, or widen it. */
  function Accumulate(acc: Option<Rect>, bounds: Rect): (r: Option<Rect>)
    ensures r.Some? && Encloses(r.value, bounds)
    ensures acc.Some? ==> Encloses(r.value, acc.value)
  {
    match acc
    case None => Some(bounds)
    case Some(a) => Some(Union(a, bounds))
  }

  /** The accumulator after folding `rs` into `acc` from left to right. */
  function UnionAll(acc: Option<Rect>, rs: seq<Rect>): Option<Rect>
    decreases |rs|
  {
    if rs == [] then acc
    else Accumulate(UnionAll(acc, rs[..|rs| - 1]), rs[|rs| - 1])
  }

  lemma {:induction false} UnionAllAppend(acc: Option<Rect>, xs: seq<Rect>, ys: seq<Rect>)
    ensures UnionAll(acc, xs + ys) == UnionAll(UnionAll(acc, xs), ys)
    decreases |ys|
  {
    if ys == [] {
      assert xs + ys == xs;
    } else {
      assert (xs + ys)[..|xs + ys| - 1] == xs + ys[..|ys| - 1];
      UnionAllAppend(acc, xs, ys[..|ys| - 1]);
    }
  }

  /** The fold is empty exactly when it started empty and nothing was folded in. */
  lemma {:induction false} UnionAllNone(acc: Option<Rect>, rs: seq<Rect>)
    ensures UnionAll(acc, rs).None? <==> acc.None? && rs == []
  {
  }

  /** The fold encloses the starting rectangle and every rectangle folded in. */
  lemma {:induction false} UnionAllEncloses(acc: Option<Rect>, rs: seq<Rect>)
    requires acc.Some? || rs != []
    ensures UnionAll(acc, rs).Some?
    ensures acc.Some? ==> Encloses(UnionAll(acc, rs).value, acc.value)
    ensures forall i :: 0 <= i < |rs| ==> Encloses(UnionAll(acc, rs).value, rs[i])
    decreases |rs|
  {
    if rs == [] {
      return;
    }
    var init := rs[..|rs| - 1];
    if init == [] {
      if acc.Some? {
        assert UnionAll(acc, init) == acc;
      }
    } else {
      UnionAllEncloses(acc, init);
      forall i | 0 <= i < |init|
        ensures Encloses(UnionAll(acc, rs).value, rs[i])
      {
        assert rs[i] == init[i];
      }
    }
  }

  /** The fold is no larger than needed: whatever encloses all its inputs encloses it. */
  lemma {:induction false} UnionAllLeast(acc: Option<Rect>, rs: seq<Rect>, c: Rect)
    requires UnionAll(acc, rs).Some?
    requires acc.Some? ==> Encloses(c, acc.value)
    requires forall i :: 0 <= i < |rs| ==> Encloses(c, rs[i])
    ensures Encloses(c, UnionAll(acc, rs).value)
    decreases |rs|
  {
    if rs != [] {
      var init := rs[..|rs| - 1];
      if UnionAll(acc, init).Some? {
        UnionAllLeast(acc, init, c);
      }
    }
  }

  /**
   * `union_boxes_for_node`: walks `items`, recursing into every item's nested
   * list before looking at the item itself, and widens the accumulator by the
   * bounds of every item `node` owns.
   */
  method UnionBoxesForNode(acc: Option<Rect>, items: seq<DisplayItem>, node: NodeId)
    returns (out: Option<Rect>)
    ensures out == UnionAll(acc, Matches(items, node))
    decreases items
  {
    out := acc;
    for i := 0 to |items|
      invariant out == UnionAll(acc, Matches(items[..i], node))
    {
      var item := items[i];
      ghost var before := Matches(items[..i], node);
      if item.Clip? {
        out := UnionBoxesForNode(out, item.children, node);
        UnionAllAppend(acc, before, Matches(item.children, node));
      } else {
        assert before + [] == before;
      }
      ghost var mid := out;
      if item.base.extra == node {
        out := Accumulate(out, item.base.bounds);
      }
      UnionItemStep(acc, before, item, node, mid);
      MatchesSnoc(items, i, node);
    }
    assert items[..|items|] == items;
  }

  /** The accumulator after one item, given the accumulator after its nested list. */
  lemma UnionItemStep(acc: Option<Rect>, before: seq<Rect>, item: DisplayItem, node: NodeId, mid: Option<Rect>)
    requires mid == UnionAll(acc, before + (if item.Clip? then Matches(item.children, node) else []))
    ensures (if item.base.extra == node then Accumulate(mid, item.base.bounds) else mid)
            == UnionAll(acc, before + ItemMatches(item, node))
  {
    var inner := if item.Clip? then Matches(item.children, node) else [];
    assert ItemMatches(item, node) == inner + (if item.base.extra == node then [item.base.bounds] else []);
    if item.base.extra == node {
      UnionAllSnoc(acc, before + inner, item.base.bounds);
      assert before + inner + [item.base.bounds] == before + ItemMatches(item, node);
    } else {
      assert before + ItemMatches(item, node) == before + inner;
    }
  }

  lemma UnionAllSnoc(acc: Option<Rect>, xs: seq<Rect>, r: Rect)
    ensures UnionAll(acc, xs + [r]) == Accumulate(UnionAll(acc, xs), r)
  {
    assert (xs + [r])[..|xs|] == xs;
  }

  /**
   * The content-box answer for `node`: the union of the bounds of all items
   * it owns, or the zero rectangle when it owns none.
   */
  function ContentBox(list: DisplayList, node: NodeId): Rect
  {
    UnionAll(None, Matches(list, node)).GetOr(ZeroRect)
  }

  /** With no owned item anywhere in the tree, the content box is the zero rectangle. */
  lemma ContentBoxOfUnowned(list: DisplayList, node: NodeId)
    requires forall it :: it in Flatten(list) ==> it.base.extra != node
    ensures ContentBox(list, node) == ZeroRect
  {
    if Matches(list, node) != [] {
      MatchesMembers(list, node, Matches(list, node)[0]);
      assert false;
    }
  }

  /** The content box encloses the bounds of every item `node` owns, at any depth. */
  lemma ContentBoxEnclosesOwned(list: DisplayList, node: NodeId, it: DisplayItem)
    requires it in Flatten(list) && it.base.extra == node
    ensures Encloses(ContentBox(list, node), it.base.bounds)
  {
    var ms := Matches(list, node);
    MatchesMembers(list, node, it.base.bounds);
    UnionAllEncloses(None, ms);
    var i :| 0 <= i < |ms| && ms[i] == it.base.bounds;
  }

  /**
   * When `node` owns some item, every rectangle that encloses the bounds of
   * all the items it owns also encloses the content box: the content box is
   * the smallest such rectangle.
   */
  lemma ContentBoxLeast(list: DisplayList, node: NodeId, c: Rect)
    requires exists it :: it in Flatten(list) && it.base.extra == node
    requires forall it :: it in Flatten(list) && it.base.extra == node ==> Encloses(c, it.base.bounds)
    ensures Encloses(c, ContentBox(list, node))
  {
    var ms := Matches(list, node);
    var w :| w in Flatten(list) && w.base.extra == node;
    MatchesMembers(list, node, w.base.bounds);
    forall i | 0 <= i < |ms| ensures Encloses(c, ms[i]) {
      MatchesMembers(list, node, ms[i]);
    }
    UnionAllNone(None, ms);
    UnionAllLeast(None, ms, c);
  }

  /**
   * `add_boxes_for_node`: the same walk as `UnionBoxesForNode`, pushing
   * each owned item's bounds onto the accumulator.
   */
  method AddBoxesForNode(acc: seq<Rect>, items: seq<DisplayItem>, node: NodeId)
    returns (out: seq<Rect>)
    ensures out == acc + Matches(items, node)
    decreases items
  {
    out := acc;
    for i := 0 to |items|
      invariant out == acc + Matches(items[..i], node)
    {
      var item := items[i];
      if item.Clip? {
        out := AddBoxesForNode(out, item.children, node);
      }
      if item.base.extra == node {
        out := out + [item.base.bounds];
      }
      MatchesSnoc(items, i, node);
    }
    assert items[..|items|] == items;
  }

  // ---------------------------------------------------------------------------
  // Hit testing.

  /** A non-clip item whose bounds contain the point. */
  predicate IsLeafHit(item: DisplayItem, x: Au, y: Au)
  {
    item.Paint? && ContainsPoint(item.base.bounds, x, y)
  }

  /**
   * `hit_test`: first, for every clip item from last to first, search its
   * nested list (the clip's own bounds are not consulted) and return the first
   * hit; then, only if that found nothing, return the last non-clip item of
   * this level whose bounds contain the point.
   */
  function HitTest(x: Au, y: Au, list: seq<DisplayItem>): Option<DisplayItem>
    decreases list, 1
  {
    match HitClips(x, y, list, |list|)
    case Some(item) => Some(item)
    case None => HitLeaves(x, y, list, |list|)
  }

  /** The first loop of `hit_test`, over `list[..k]` from last to first. */
  function HitClips(x: Au, y: Au, list: seq<DisplayItem>, k: nat): Option<DisplayItem>
    requires k <= |list|
    decreases list, 0, k
  {
    if k == 0 then None
    else if list[k - 1].Clip? && HitTest(x, y, list[k - 1].children).Some? then
      HitTest(x, y, list[k - 1].children)
    else HitClips(x, y, list, k - 1)
  }

  /** The second loop of `hit_test`, over `list[..k]` from last to first. */
  function HitLeaves(x: Au, y: Au, list: seq<DisplayItem>, k: nat): (r: Option<DisplayItem>)
    requires k <= |list|
    ensures r.Some? ==> r.value in list[..k] && IsLeafHit(r.value, x, y)
    ensures r.None? <==> forall j :: 0 <= j < k ==> !IsLeafHit(list[j], x, y)
    decreases k
  {
    if k == 0 then None
    else if IsLeafHit(list[k - 1], x, y) then Some(list[k - 1])
    else HitLeaves(x, y, list, k - 1)
  }

  /** The last leaf hit of this level wins the second loop. */
  lemma {:induction false} HitLeavesTopmost(x: Au, y: Au, list: seq<DisplayItem>, k: nat, j: nat)
    requires j < k <= |list|
    requires IsLeafHit(list[j], x, y)
    requires forall i :: j < i < k ==> !IsLeafHit(list[i], x, y)
    ensures HitLeaves(x, y, list, k) == Some(list[j])
    decreases k
  {
    if j < k - 1 {
      HitLeavesTopmost(x, y, list, k - 1, j);
    }
  }

  lemma {:induction false} FlattenMember(items: seq<DisplayItem>, i: nat)
    requires i < |items|
    ensures items[i] in Flatten(items)
    ensures items[i].Clip? ==> forall it :: it in Flatten(items[i].children) ==> it in Flatten(items)
  {
    FlattenAppend(items[..i], items[i..]);
    assert items == items[..i] + items[i..];
    assert items[i..][0] == items[i];
  }

  /** What `HitClips` returns lies in the flattened tree and is a leaf hit. */
  lemma {:induction false} HitClipsSound(x: Au, y: Au, list: seq<DisplayItem>, k: nat)
    requires k <= |list|
    ensures var r := HitClips(x, y, list, k);
            r.Some? ==> r.value in Flatten(list) && IsLeafHit(r.value, x, y)
    decreases list, 0, k
  {
    if k > 0 {
      var item := list[k - 1];
      if item.Clip? && HitTest(x, y, item.children).Some? {
        HitTestSound(x, y, item.children);
        FlattenMember(list, k - 1);
      } else {
        HitClipsSound(x, y, list, k - 1);
      }
    }
  }

  /** Soundness: a hit is a non-clip item of the tree, at any depth, that contains the point. */
  lemma {:induction false} HitTestSound(x: Au, y: Au, list: seq<DisplayItem>)
    ensures var r := HitTest(x, y, list);
            r.Some? ==> r.value in Flatten(list) && IsLeafHit(r.value, x, y)
    decreases list, 1
  {
    HitClipsSound(x, y, list, |list|);
    var r := HitLeaves(x, y, list, |list|);
    if r.Some? {
      assert list[..|list|] == list;
      var j :| 0 <= j < |list| && list[j] == r.value;
      FlattenMember(list, j);
    }
  }

  /** `HitClips` finds nothing only when no clip's nested list holds a leaf hit. */
  lemma {:induction false} HitClipsComplete(x: Au, y: Au, list: seq<DisplayItem>, k: nat)
    requires k <= |list|
    requires HitClips(x, y, list, k).None?
    ensures forall j :: 0 <= j < k && list[j].Clip? ==> HitTest(x, y, list[j].children).None?
    decreases k
  {
    if k > 0 {
      HitClipsComplete(x, y, list, k - 1);
    }
  }

  /** An item of a list is in its flattened tree at the head, or lies under an item of it. */
  lemma {:induction false} FlattenCases(items: seq<DisplayItem>, it: DisplayItem)
    requires it in Flatten(items)
    ensures exists j :: 0 <= j < |items| &&
              (items[j] == it || (items[j].Clip? && it in Flatten(items[j].children)))
    decreases items
  {
    var head := if items[0].Clip? then Flatten(items[0].children) else [];
    assert Flatten(items) == head + [items[0]] + Flatten(items[1..]);
    if it in head {
    } else if it == items[0] {
    } else {
      assert it in Flatten(items[1..]);
      FlattenCases(items[1..], it);
      var j :| 0 <= j < |items[1..]| &&
               (items[1..][j] == it || (items[1..][j].Clip? && it in Flatten(items[1..][j].children)));
      assert items[j + 1] == items[1..][j];
    }
  }

  /**
   * Completeness: the hit test fails exactly when no non-clip item of the
   * tree, at any depth, contains the point.
   */
  lemma {:induction false} HitTestComplete(x: Au, y: Au, list: seq<DisplayItem>)
    ensures HitTest(x, y, list).None? <==>
            forall it :: it in Flatten(list) ==> !IsLeafHit(it, x, y)
    decreases list
  {
    if HitTest(x, y, list).None? {
      forall it | it in Flatten(list) ensures !IsLeafHit(it, x, y) {
        HitClipsComplete(x, y, list, |list|);
        FlattenCases(list, it);
        var j :| 0 <= j < |list| && (list[j] == it || (list[j].Clip? && it in Flatten(list[j].children)));
        if list[j] != it {
          HitTestComplete(x, y, list[j].children);
        }
      }
    } else {
      HitTestSound(x, y, list);
    }
  }

  /**
   * Clip items are searched first, last to first: the last clip whose nested
   * list holds a hit decides the result, whatever leaf items this level has.
   */
  lemma {:induction false} HitTestClipsFirst(x: Au, y: Au, list: seq<DisplayItem>, j: nat)
    requires j < |list| && list[j].Clip? && HitTest(x, y, list[j].children).Some?
    requires forall i :: j < i < |list| && list[i].Clip? ==> HitTest(x, y, list[i].children).None?
    ensures HitTest(x, y, list) == HitTest(x, y, list[j].children)
  {
    HitClipsAt(x, y, list, |list|, j);
  }

  lemma {:induction false} HitClipsAt(x: Au, y: Au, list: seq<DisplayItem>, k: nat, j: nat)
    requires j < k <= |list| && list[j].Clip? && HitTest(x, y, list[j].children).Some?
    requires forall i :: j < i < k && list[i].Clip? ==> HitTest(x, y, list[i].children).None?
    ensures HitClips(x, y, list, k) == HitTest(x, y, list[j].children)
    decreases k
  {
    if j < k - 1 {
      HitClipsAt(x, y, list, k - 1, j);
    }
  }

  /**
   * When no clip's nested list holds a hit, the topmost (last) non-clip item
   * of this level that contains the point is the result.
   */
  lemma HitTestTopmostLeaf(x: Au, y: Au, list: seq<DisplayItem>, j: nat)
    requires j < |list| && IsLeafHit(list[j], x, y)
    requires forall i :: j < i < |list| ==> !IsLeafHit(list[i], x, y)
    requires forall i :: 0 <= i < |list| && list[i].Clip? ==> HitTest(x, y, list[i].children).None?
    ensures HitTest(x, y, list) == Some(list[j])
  {
    HitClipsNone(x, y, list, |list|);
    HitLeavesTopmost(x, y, list, |list|, j);
  }

  lemma {:induction false} HitClipsNone(x: Au, y: Au, list: seq<DisplayItem>, k: nat)
    requires k <= |list|
    requires forall i :: 0 <= i < k && list[i].Clip? ==> HitTest(x, y, list[i].children).None?
    ensures HitClips(x, y, list, k).None?
    decreases k
  {
    if k > 0 {
      HitClipsNone(x, y, list, k - 1);
    }
  }

  /**
   * The clip's own bounds are not consulted: a single clip answers exactly
   * as its nested list does, whatever its bounds.
   */
  lemma HitTestIgnoresClipBounds(x: Au, y: Au, b: ItemBase, children: seq<DisplayItem>)
    ensures HitTest(x, y, [Clip(b, children)]) == HitTest(x, y, children)
  {
    if HitTest(x, y, children).None? {
      assert HitClips(x, y, [Clip(b, children)], 0).None?;
      assert HitLeaves(x, y, [Clip(b, children)], 0).None?;
    }
  }

  /** Replacing the bounds of any clip of a level leaves the hit test's answer unchanged. */
  lemma HitTestClipBoundsIrrelevant(x: Au, y: Au, list: seq<DisplayItem>, j: nat, b: ItemBase)
    requires j < |list| && list[j].Clip?
    ensures HitTest(x, y, list[j := Clip(b, list[j].children)]) == HitTest(x, y, list)
  {
    var list' := list[j := Clip(b, list[j].children)];
    HitClipsRebound(x, y, list, list', |list|);
    HitLeavesRebound(x, y, list, list', |list|);
  }

  /** The first loop only looks at which items are clips and at their nested lists. */
  lemma {:induction false} HitClipsRebound(x: Au, y: Au, list: seq<DisplayItem>, list': seq<DisplayItem>, k: nat)
    requires k <= |list| == |list'|
    requires forall i :: 0 <= i < |list| ==> list'[i].Clip? == list[i].Clip?
    requires forall i :: 0 <= i < |list| && list[i].Clip? ==> list'[i].children == list[i].children
    requires forall i :: 0 <= i < |list| && !list[i].Clip? ==> list'[i] == list[i]
    ensures HitClips(x, y, list', k) == HitClips(x, y, list, k)
    decreases k
  {
    if k > 0 {
      HitClipsRebound(x, y, list, list', k - 1);
    }
  }

  /** The second loop only looks at non-clip items. */
  lemma {:induction false} HitLeavesRebound(x: Au, y: Au, list: seq<DisplayItem>, list': seq<DisplayItem>, k: nat)
    requires k <= |list| == |list'|
    requires forall i :: 0 <= i < |list| ==> list'[i].Clip? == list[i].Clip?
    requires forall i :: 0 <= i < |list| && !list[i].Clip? ==> list'[i] == list[i]
    ensures HitLeaves(x, y, list', k) == HitLeaves(x, y, list, k)
    decreases k
  {
    if k > 0 {
      HitLeavesRebound(x, y, list, list', k - 1);
    }
  }

  /** A clip with zero bounds over a leaf (0,0) 10x10 still yields the leaf at (5,5). */
  lemma HitTestIgnoresClipBoundsExample()
    ensures var leaf := Paint(SolidColor, ItemBase(Rect(Point(0, 0), Size(10, 10)), 1));
            var clip := Clip(ItemBase(ZeroRect, 2), [leaf]);
            !ContainsPoint(clip.base.bounds, 5, 5) && HitTest(5, 5, [clip]) == Some(leaf)
  {
    var leaf := Paint(SolidColor, ItemBase(Rect(Point(0, 0), Size(10, 10)), 1));
    var clip := Clip(ItemBase(ZeroRect, 2), [leaf]);
    HitClipsNone(5, 5, [leaf], 1);
    assert HitLeaves(5, 5, [leaf], 1) == Some(leaf);
    assert HitTest(5, 5, [leaf]) == Some(leaf);
    assert HitClips(5, 5, [clip], 1) == Some(leaf);
  }

  /**
   * Two overlapping items A = (0,0)-(10,10) and B = (0,0)-(20,20), B painted
   * last: (5,5) hits B, (15,15) hits B, (25,25) hits nothing, and with A alone
   * its top-left corner is a hit and its bottom-right corner is not.
   */
  lemma HitTestExamples()
    ensures var a := Paint(SolidColor, ItemBase(Rect(Point(0, 0), Size(10, 10)), 1));
            var b := Paint(SolidColor, ItemBase(Rect(Point(0, 0), Size(20, 20)), 2));
            && HitTest(5, 5, [a, b]) == Some(b)
            && HitTest(15, 15, [a, b]) == Some(b)
            && HitTest(25, 25, [a, b]) == None
            && HitTest(0, 0, [a, b]) == Some(b)
            && HitTest(10, 10, [a, b]) == Some(b)
            && HitTest(0, 0, [a]) == Some(a)
            && HitTest(10, 10, [a]) == None
  {
    var a := Paint(SolidColor, ItemBase(Rect(Point(0, 0), Size(10, 10)), 1));
    var b := Paint(SolidColor, ItemBase(Rect(Point(0, 0), Size(20, 20)), 2));
    HitClipsNone(5, 5, [a, b], 2);
    HitClipsNone(15, 15, [a, b], 2);
    HitClipsNone(25, 25, [a, b], 2);
    HitClipsNone(0, 0, [a, b], 2);
    HitClipsNone(10, 10, [a, b], 2);
    HitClipsNone(0, 0, [a], 1);
    HitClipsNone(10, 10, [a], 1);
    assert HitLeaves(5, 5, [a, b], 2) == Some(b);
    assert HitLeaves(15, 15, [a, b], 2) == Some(b);
    assert HitLeaves(25, 25, [a, b], 1) == None;
    assert HitLeaves(25, 25, [a, b], 2) == None;
    assert HitLeaves(0, 0, [a, b], 2) == Some(b);
    assert HitLeaves(10, 10, [a, b], 2) == Some(b);
    assert HitLeaves(0, 0, [a], 1) == Some(a);
    assert HitLeaves(10, 10, [a], 1) == None;
  }

  /** Two owned items (0,0)-(10,10) and (5,5)-(20,20) give the content box (0,0)-(20,20). */
  lemma ContentBoxExample()
    ensures var a := Paint(Border, ItemBase(Rect(Point(0, 0), Size(10, 10)), 7));
            var b := Paint(Text, ItemBase(Rect(Point(5, 5), Size(15, 15)), 7));
            ContentBox([a, b], 7) == Rect(Point(0, 0), Size(20, 20))
  {
    var a := Paint(Border, ItemBase(Rect(Point(0, 0), Size(10, 10)), 7));
    var b := Paint(Text, ItemBase(Rect(Point(5, 5), Size(15, 15)), 7));
    assert [a, b][1..] == [b];
    assert [b][1..] == [];
    assert ItemMatches(b, 7) == [b.base.bounds];
    assert Matches([b], 7) == [b.base.bounds];
    assert Matches([a, b], 7) == [a.base.bounds, b.base.bounds];
    var ms := [a.base.bounds, b.base.bounds];
    assert ms[..1] == [a.base.bounds];
    assert [a.base.bounds][..0] == [];
    assert UnionAll(None, [a.base.bounds]) == Some(a.base.bounds);
    assert UnionAll(None, ms) == Some(Union(a.base.bounds, b.base.bounds));
  }
}
