/**
 The rectangle geometry of one annotation shape (src/Annotation.js): the
 attributes handed back to the application after a drag and after a resize
 through the transformer, and the shape node whose scale is reset after a
 resize.
 */
module Geometry {

  /** Annotation identifiers are opaque strings (uuids in the application). */
  type Id = string

  /** A bounding box as the application stores it: `{x, y, width, height, id}`.
      Width and height may be zero or negative while and after drawing. */
  datatype Annotation = Annotation(id: Id, x: real, y: real, width: real, height: real)

  /** A pointer position in canvas coordinates. */
  datatype Point = Point(x: real, y: real)

  /** The smallest width a resize can produce. */
  const MinWidth: real := 5.0

  /** JavaScript's `Math.max` applied to a non-empty argument list: the
      largest argument. With one argument it returns that argument. */
  function MathMax(args: seq<real>): (m: real)
    requires |args| > 0
    ensures m in args
    ensures forall k :: 0 <= k < |args| ==> args[k] <= m
  {
    if |args| == 1 then args[0]
    else
      var rest := MathMax(args[1..]);
      if args[0] >= rest then args[0] else rest
  }

  /** The attributes reported by `onDragEnd`: the shape's own attributes
      with the position of the node after the drag. */
  function Dragged(props: Annotation, nodeX: real, nodeY: real): Annotation
  {
    props.(x := nodeX, y := nodeY)
  }

  /** The attributes reported by `onTransformEnd`: the node's position, the
      node's width times its x-scale with a floor of `MinWidth`, and the
      node's height times its y-scale passed through `Math.max` with a single
      argument, hence not clamped. Every other attribute comes from `props`. */
  function Resized(props: Annotation, nodeX: real, nodeY: real,
                   nodeWidth: real, nodeHeight: real,
                   scaleX: real, scaleY: real): Annotation
  {
    props.(x := nodeX, y := nodeY,
           width := MathMax([MinWidth, nodeWidth * scaleX]),
           height := MathMax([nodeHeight * scaleY]))
  }

  /** A drag changes only the position: id, width and height are kept. */
  lemma DraggedChangesOnlyPosition(props: Annotation, nodeX: real, nodeY: real)
    ensures Dragged(props, nodeX, nodeY).x == nodeX
    ensures Dragged(props, nodeX, nodeY).y == nodeY
    ensures Dragged(props, nodeX, nodeY).id == props.id
    ensures Dragged(props, nodeX, nodeY).width == props.width
    ensures Dragged(props, nodeX, nodeY).height == props.height
  {
  }

  /** Dragging a shape back to where it was gives back the original attributes,
      and of two drags in a row only the last position matters. */
  lemma DragRoundTrip(props: Annotation, x1: real, y1: real, x2: real, y2: real)
    ensures Dragged(Dragged(props, x1, y1), props.x, props.y) == props
    ensures Dragged(Dragged(props, x1, y1), x2, y2) == Dragged(props, x2, y2)
  {
  }

  /** The width after a resize is the scaled width, or `MinWidth` when that
      is smaller: never below `MinWidth`. */
  lemma ResizedWidthClamped(props: Annotation, nodeX: real, nodeY: real,
                            nodeWidth: real, nodeHeight: real,
                            scaleX: real, scaleY: real)
    ensures Resized(props, nodeX, nodeY, nodeWidth, nodeHeight, scaleX, scaleY).width >= MinWidth
    ensures Resized(props, nodeX, nodeY, nodeWidth, nodeHeight, scaleX, scaleY).width
            == if nodeWidth * scaleX >= MinWidth then nodeWidth * scaleX else MinWidth
  {
    var w := MathMax([MinWidth, nodeWidth * scaleX]);
    assert w == MinWidth || w == nodeWidth * scaleX;
  }

  /** The height after a resize is exactly the scaled height: zero and
      negative heights pass through. */
  lemma ResizedHeightUnclamped(props: Annotation, nodeX: real, nodeY: real,
                               nodeWidth: real, nodeHeight: real,
                               scaleX: real, scaleY: real)
    ensures Resized(props, nodeX, nodeY, nodeWidth, nodeHeight, scaleX, scaleY).height
            == nodeHeight * scaleY
  {
  }

  /** A resize takes the position from the node and keeps the identifier. */
  lemma ResizedKeepsIdentity(props: Annotation, nodeX: real, nodeY: real,
                             nodeWidth: real, nodeHeight: real,
                             scaleX: real, scaleY: real)
    ensures Resized(props, nodeX, nodeY, nodeWidth, nodeHeight, scaleX, scaleY).id == props.id
    ensures Resized(props, nodeX, nodeY, nodeWidth, nodeHeight, scaleX, scaleY).x == nodeX
    ensures Resized(props, nodeX, nodeY, nodeWidth, nodeHeight, scaleX, scaleY).y == nodeY
  {
  }

  /** Once the node's scale is back to 1 and it is drawn with the resized
      attributes, another resize without user scaling changes nothing: the
      reset gives a clean baseline instead of compounding the scale. */
  lemma ResizeFromCleanBaseline(props: Annotation, nodeX: real, nodeY: real,
                                nodeWidth: real, nodeHeight: real,
                                scaleX: real, scaleY: real)
    ensures var r := Resized(props, nodeX, nodeY, nodeWidth, nodeHeight, scaleX, scaleY);
            Resized(r, r.x, r.y, r.width, r.height, 1.0, 1.0) == r
  {
    var r := Resized(props, nodeX, nodeY, nodeWidth, nodeHeight, scaleX, scaleY);
    ResizedWidthClamped(props, nodeX, nodeY, nodeWidth, nodeHeight, scaleX, scaleY);
    ResizedWidthClamped(r, r.x, r.y, r.width, r.height, 1.0, 1.0);
  }

  /** The rendered rectangle of one annotation: it is drawn from the
      annotation's attributes, and the transformer changes its scale. */
  class ShapeNode {
    var x: real
    var y: real
    var width: real
    var height: real
    var scaleX: real
    var scaleY: real

    /** A shape is created from the annotation's attributes at unit scale. */
    constructor (props: Annotation)
      ensures x == props.x && y == props.y
      ensures width == props.width && height == props.height
      ensures scaleX == 1.0 && scaleY == 1.0
    {
      x, y := props.x, props.y;
      width, height := props.width, props.height;
      scaleX, scaleY := 1.0, 1.0;
    }

    /** Redrawing with new attributes sets position and size; the scale,
        which the attributes do not carry, is left as it is. */
    method Render(props: Annotation)
      modifies this`x, this`y, this`width, this`height
      ensures x == props.x && y == props.y
      ensures width == props.width && height == props.height
    {
      x, y := props.x, props.y;
      width, height := props.width, props.height;
    }

    /** `onDragEnd`: the attributes to store after the node was dragged. */
    method OnDragEnd(props: Annotation) returns (attrs: Annotation)
      ensures attrs == Dragged(props, x, y)
    {
      attrs := Annotation(props.id, x, y, props.width, props.height);
    }

    /** `onTransformEnd`: reads the node's scale, resets it to 1, and returns
        the resized attributes. Position and size of the node are untouched. */
    method OnTransformEnd(props: Annotation) returns (attrs: Annotation)
      modifies this`scaleX, this`scaleY
      ensures scaleX == 1.0 && scaleY == 1.0
      ensures attrs == Resized(props, x, y, width, height, old(scaleX), old(scaleY))
    {
      var sx, sy := scaleX, scaleY;
      scaleX := 1.0;
      scaleY := 1.0;
      attrs := props.(x := x, y := y,
                      width := MathMax([MinWidth, width * sx]),
                      height := MathMax([height * sy]));
    }
  }

  /** A resize followed by a redraw with its result and a second resize in
      which the user did not scale the shape gives the same attributes. */
  method ResizeTwice(node: ShapeNode, props: Annotation) returns (first: Annotation, second: Annotation)
    modifies node
    ensures first == Resized(props, old(node.x), old(node.y), old(node.width), old(node.height),
                             old(node.scaleX), old(node.scaleY))
    ensures node.scaleX == 1.0 && node.scaleY == 1.0
    ensures second == first
    ensures first.width >= MinWidth
  {
    first := node.OnTransformEnd(props);
    ResizedWidthClamped(props, node.x, node.y, node.width, node.height, old(node.scaleX), old(node.scaleY));
    ResizeFromCleanBaseline(props, node.x, node.y, node.width, node.height, old(node.scaleX), old(node.scaleY));
    node.Render(first);
    second := node.OnTransformEnd(first);
  }
}
