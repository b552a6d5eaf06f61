/**
 * The page background colour sent with each rendered layer: the resolved
 * background of the first html or body element, in document order, whose
 * background is not exactly `rgba(0, 0, 0, 0)`; opaque white when there is none.
 */
module PageBackground {

  /** A colour; the `f32` components of servo's colour type are abstracted to integers. */
  datatype Color = Rgba(r: int, g: int, b: int, a: int)

  /** `rgba(0, 0, 0, 0)`, the value the scan skips. */
  const Transparent: Color := Rgba(0, 0, 0, 0)

  /** `rgba(255, 255, 255, 255)`, the colour used when no element supplies one. */
  const White: Color := Rgba(255, 255, 255, 255)

  /** The node types the scan distinguishes; every other node type is `OtherNode`. */
  datatype NodeType = HtmlElement | BodyElement | OtherNode

  /** A document node with its resolved background colour and its children, in order. */
  datatype DomNode = DomNode(nodeType: NodeType, background: Color, children: seq<DomNode>)

  /** The nodes of a forest in document order: each node, then its subtree, then its siblings. */
  function Preorder(nodes: seq<DomNode>): seq<DomNode>
    decreases nodes
  {
    if nodes == [] then []
    else [nodes[0]] + Preorder(nodes[0].children) + Preorder(nodes[1..])
  }

  predicate IsHtmlOrBody(n: DomNode)
  {
    n.nodeType == HtmlElement || n.nodeType == BodyElement
  }

  /** A node the scan stops at: an html or body element whose background is not exactly `Transparent`. */
  predicate SuppliesBackground(n: DomNode)
  {
    IsHtmlOrBody(n) && n.background != Transparent
  }

  /** The colour the scan over `nodes` settles on. */
  function PageColor(nodes: seq<DomNode>): Color
  {
    if nodes == [] then White
    else if SuppliesBackground(nodes[0]) then nodes[0].background
    else PageColor(nodes[1..])
  }

  /** The first node that supplies a background decides the colour. */
  lemma {:induction false} PageColorFirstMatch(nodes: seq<DomNode>, i: nat)
    requires i < |nodes| && SuppliesBackground(nodes[i])
    requires forall j :: 0 <= j < i ==> !SuppliesBackground(nodes[j])
    ensures PageColor(nodes) == nodes[i].background
  {
    if i > 0 {
      PageColorFirstMatch(nodes[1..], i - 1);
    }
  }

  /** With no node supplying a background the colour is white. */
  lemma {:induction false} PageColorDefault(nodes: seq<DomNode>)
    requires forall j :: 0 <= j < |nodes| ==> !SuppliesBackground(nodes[j])
    ensures PageColor(nodes) == White
  {
    if nodes != [] {
      PageColorDefault(nodes[1..]);
    }
  }

  /**
   * A node that supplies no background, whether it is not an html or body
   * element or it is one with a transparent background, can be removed from
   * anywhere without changing the colour.
   */
  lemma {:induction false} PageColorSkips(a: seq<DomNode>, n: DomNode, b: seq<DomNode>)
    requires !SuppliesBackground(n)
    ensures PageColor(a + [n] + b) == PageColor(a + b)
    decreases a
  {
    if a == [] {
      assert a + [n] + b == [n] + b;
      assert ([n] + b)[1..] == b;
      assert a + b == b;
    } else {
      assert (a + [n] + b)[0] == a[0] && (a + b)[0] == a[0];
      assert (a + [n] + b)[1..] == a[1..] + [n] + b;
      assert (a + b)[1..] == a[1..] + b;
      PageColorSkips(a[1..], n, b);
    }
  }

  /**
   * The scan of the layout coordinator: walk the document in preorder and stop
   * at the first html or body element whose background is not transparent.
   */
  method ResolvePageBackground(root: DomNode) returns (color: Color)
    ensures color == PageColor(Preorder([root]))
  {
    var nodes := Preorder([root]);
    color := White;
    var i := 0;
    while i < |nodes|
      invariant 0 <= i <= |nodes|
      invariant PageColor(nodes) == PageColor(nodes[i..])
    {
      var child := nodes[i];
      if IsHtmlOrBody(child) {
        var elementColor := child.background;
        if elementColor != Transparent {
          color := elementColor;
          break;
        }
      }
      assert nodes[i..][1..] == nodes[i + 1..];
      i := i + 1;
    }
  }

  /** A transparent body inside an opaque red html element gives red; both transparent give white. */
  lemma PageColorExamples()
    ensures var red := Rgba(255, 0, 0, 255);
            var body := DomNode(BodyElement, Transparent, []);
            && PageColor(Preorder([DomNode(HtmlElement, red, [body])])) == red
            && PageColor(Preorder([DomNode(HtmlElement, Transparent, [body])])) == White
  {
    var red := Rgba(255, 0, 0, 255);
    var body := DomNode(BodyElement, Transparent, []);
    assert [body][1..] == [];
    assert Preorder([body]) == [body];
    var html := DomNode(HtmlElement, red, [body]);
    assert [html][1..] == [];
    assert Preorder([html]) == [html, body];
    var clear := DomNode(HtmlElement, Transparent, [body]);
    assert [clear][1..] == [];
    assert Preorder([clear]) == [clear, body];
    assert [clear, body][1..] == [body];
    assert PageColor([html, body]) == red;
    assert PageColor([body]) == PageColor([]);
    assert PageColor([clear, body]) == PageColor([body]);
  }
}
