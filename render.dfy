/** What one frame draws: the committed connectors in the order they were
    committed, then the live preview. Each connector is drawn as a fixed,
    straight-line sequence of abstract primitives that the host paints with
    its own 2D drawing API. */
module Render {
  import opened Geometry
  import opened Palette

  datatype Option<T> = None | Some(value: T)

  /** A committed connector: the five-field tuple kept in the point list. */
  datatype Curve = Curve(start: Point, cp1: Point, cp2: Point, end: Point, colour: Colour)

  /** An axis-aligned rectangle given by its top-left corner and its size. */
  datatype Rect = Rect(left: real, top: real, width: real, height: real)

  /** One drawing call. `ink` is the stroke colour of outlines and the fill
      colour of filled shapes. */
  datatype Primitive =
    | CubicPath(from: Point, c1: Point, c2: Point, to: Point, ink: Colour, thickness: real)
    | DottedLine(from: Point, to: Point, ink: Colour, thickness: real)
    | FilledRect(box: Rect, ink: Colour)
    | OutlinedRect(box: Rect, ink: Colour, thickness: real)
    | OutlinedCircle(centre: Point, radius: real, ink: Colour, thickness: real)
    | FilledCircle(centre: Point, radius: real, ink: Colour)
  {
    predicate IsFill() { FilledRect? || FilledCircle? }
  }

  /** Stroke width of paths, lines and outlines. */
  const StrokeThickness := 2.0
  /** Half the side of the square handle drawn on a control point. */
  const HandleHalfSide := 3.0
  /** Radius of the circular marker drawn on an end point. */
  const MarkerRadius := 5.0

  /** The square handle box around a control point. */
  function HandleBox(cp: Point): (r: Rect)
    ensures r.width == r.height == 2.0 * HandleHalfSide
    ensures r.left + r.width / 2.0 == cp.x && r.top + r.height / 2.0 == cp.y
  {
    Rect(cp.x - HandleHalfSide, cp.y - HandleHalfSide, 2.0 * HandleHalfSide, 2.0 * HandleHalfSide)
  }

  /** Number of primitives one connector draws. */
  function PerCurve(showControlPoints: bool): (n: nat)
  {
    if showControlPoints then 11 else 5
  }

  /** The decoration of one control point: a dotted line from its end point,
      then the handle filled in beige, then its outline. */
  function Handle(endPoint: Point, cp: Point, colour: Colour): (ps: seq<Primitive>)
  {
    [DottedLine(endPoint, cp, colour, StrokeThickness),
     FilledRect(HandleBox(cp), Beige),
     OutlinedRect(HandleBox(cp), colour, StrokeThickness)]
  }

  /** The marker on one end point: the outline first, then the beige fill. */
  function Marker(centre: Point, colour: Colour): (ps: seq<Primitive>)
  {
    [OutlinedCircle(centre, MarkerRadius, colour, StrokeThickness),
     FilledCircle(centre, MarkerRadius, Beige)]
  }

  /** The primitives that draw one connector: the cubic path first, then (if
      the handles are shown) the decoration of each control point, and last
      the markers of the start and the end point, so that the markers lie
      on top of the handle lines. Outlines use the connector's colour and
      fills are beige. */
  function DrawSpline(c: Curve, showControlPoints: bool): (ps: seq<Primitive>)
    ensures |ps| == PerCurve(showControlPoints)
    ensures ps[0] == CubicPath(c.start, c.cp1, c.cp2, c.end, c.colour, StrokeThickness)
    ensures ps[|ps| - 4..] == Marker(c.start, c.colour) + Marker(c.end, c.colour)
    ensures showControlPoints ==>
      ps[1..7] == Handle(c.start, c.cp1, c.colour) + Handle(c.end, c.cp2, c.colour)
    ensures forall i :: 0 <= i < |ps| ==>
      ps[i].ink == (if ps[i].IsFill() then Beige else c.colour)
  {
    var path := [CubicPath(c.start, c.cp1, c.cp2, c.end, c.colour, StrokeThickness)];
    var handles :=
      if showControlPoints
      then Handle(c.start, c.cp1, c.colour) + Handle(c.end, c.cp2, c.colour)
      else [];
    path + handles + Marker(c.start, c.colour) + Marker(c.end, c.colour)
  }

  /** Everything the committed connectors draw, in list order. */
  function CommittedFrame(curves: seq<Curve>, showControlPoints: bool): (frame: seq<Primitive>)
  {
    if curves == [] then []
    else CommittedFrame(curves[..|curves| - 1], showControlPoints)
         + DrawSpline(curves[|curves| - 1], showControlPoints)
  }

  /** A whole frame: the committed connectors, then the preview if there is one. */
  function Frame(curves: seq<Curve>, showControlPoints: bool, preview: Option<Curve>): (frame: seq<Primitive>)
  {
    CommittedFrame(curves, showControlPoints)
    + (if preview.Some? then DrawSpline(preview.value, showControlPoints) else [])
  }

  /** Every connector contributes the same number of primitives. */
  lemma {:induction false} FrameLength(curves: seq<Curve>, showControlPoints: bool)
    ensures |CommittedFrame(curves, showControlPoints)| == |curves| * PerCurve(showControlPoints)
  {
    if curves != [] {
      FrameLength(curves[..|curves| - 1], showControlPoints);
    }
  }

  /** Drawing two lists one after the other is drawing their concatenation:
      a connector committed later is drawn after (on top of) earlier ones. */
  lemma {:induction false} FrameAppend(a: seq<Curve>, b: seq<Curve>, showControlPoints: bool)
    ensures CommittedFrame(a + b, showControlPoints)
         == CommittedFrame(a, showControlPoints) + CommittedFrame(b, showControlPoints)
  {
    if b == [] {
      assert a + b == a;
    } else {
      var b', last := b[..|b| - 1], b[|b| - 1];
      assert (a + b)[..|a + b| - 1] == a + b';
      assert (a + b)[|a + b| - 1] == last;
      calc {
        CommittedFrame(a + b, showControlPoints);
        CommittedFrame(a + b', showControlPoints) + DrawSpline(last, showControlPoints);
        { FrameAppend(a, b', showControlPoints); }
        CommittedFrame(a, showControlPoints) + CommittedFrame(b', showControlPoints)
          + DrawSpline(last, showControlPoints);
      }
    }
  }

  /** Primitive k of connector i sits at position i * PerCurve + k of the
      committed frame. */
  lemma FrameAt(curves: seq<Curve>, showControlPoints: bool, i: nat, k: nat)
    requires i < |curves| && k < PerCurve(showControlPoints)
    ensures i * PerCurve(showControlPoints) + k < |CommittedFrame(curves, showControlPoints)|
    ensures CommittedFrame(curves, showControlPoints)[i * PerCurve(showControlPoints) + k]
         == DrawSpline(curves[i], showControlPoints)[k]
  {
    var n := PerCurve(showControlPoints);
    var before, rest := curves[..i], curves[i + 1..];
    assert curves == before + [curves[i]] + rest;
    FrameAppend(before + [curves[i]], rest, showControlPoints);
    FrameAppend(before, [curves[i]], showControlPoints);
    assert CommittedFrame([curves[i]], showControlPoints) == DrawSpline(curves[i], showControlPoints) by {
      assert [curves[i]][..0] == [];
    }
    FrameLength(before, showControlPoints);
    FrameLength(curves, showControlPoints);
    assert |before| == i;
  }

  /** With committed connectors [a, b] and a preview c, the frame draws a's
      primitives, then b's, then c's, so the preview is on top. */
  lemma PreviewOnTop(a: Curve, b: Curve, c: Curve, showControlPoints: bool)
    ensures Frame([a, b], showControlPoints, Some(c))
         == DrawSpline(a, showControlPoints) + DrawSpline(b, showControlPoints)
            + DrawSpline(c, showControlPoints)
  {
    assert [a, b][..1] == [a];
    assert [a][..0] == [];
    assert CommittedFrame([a], showControlPoints) == DrawSpline(a, showControlPoints);
    assert CommittedFrame([a, b], showControlPoints)
        == DrawSpline(a, showControlPoints) + DrawSpline(b, showControlPoints);
  }

  /** Without a preview the frame is exactly the committed connectors; with
      one, the preview's primitives are the last PerCurve of the frame. */
  lemma PreviewIsLast(curves: seq<Curve>, showControlPoints: bool, preview: Option<Curve>)
    ensures preview.None? ==> Frame(curves, showControlPoints, preview) == CommittedFrame(curves, showControlPoints)
    ensures preview.Some? ==>
      var f := Frame(curves, showControlPoints, preview);
      |f| == (|curves| + 1) * PerCurve(showControlPoints)
      && f[|f| - PerCurve(showControlPoints)..] == DrawSpline(preview.value, showControlPoints)
  {
    FrameLength(curves, showControlPoints);
  }
}
