/** The drag-to-draw page: its fields, its seven event handlers and its draw
    handler. Pointer positions and canvas sizes arrive as parameters; a
    repaint request to the host is counted in the ghost field
    `invalidations`. */
module Connector {
  import opened Geometry
  import opened Palette
  import opened Render

  /** The values of all the page's fields at one moment, for stating in one
      line which fields a handler changes. */
  datatype PageState = PageState(
    start: Point, end: Point, cp1: Point, cp2: Point,
    dragging: bool, drawSpline: bool, showControlPoints: bool,
    colourIndex: int, splineColour: Colour, curves: seq<Curve>)

  class MainPage {
    var startPoint: Point
    var endPoint: Point
    var controlPoint1: Point
    var controlPoint2: Point
    var isDragging: bool
    /** Whether the live preview is drawn; only a move while dragging sets it. */
    var drawSpline: bool
    var showControlPoints: bool
    /** The palette cursor; -1 until the first press. */
    var colourIndex: int
    var splineColour: Colour
    /** The committed connectors, in the order they were released. */
    var pointData: seq<Curve>

    /** Number of presses so far. */
    ghost var presses: nat
    /** Number of repaint requests made to the host so far. */
    ghost var invalidations: nat

    /** The page's invariant: the cursor is the one `presses` presses select
        and the stroke colour is the palette entry under it (or the default
        colour before any press); the preview is only ever on during a drag;
        while it is off, both control points are zero. */
    ghost predicate Valid()
      reads this
    {
      colourIndex == IndexAfterPresses(presses)
      && (presses == 0 ==> splineColour == Unset)
      && (presses > 0 ==> 0 <= colourIndex < |Colours| && splineColour == Colours[colourIndex])
      && (drawSpline ==> isDragging)
      && (!drawSpline ==> controlPoint1 == Origin && controlPoint2 == Origin)
    }

    function State(): (st: PageState)
      reads this
    {
      PageState(startPoint, endPoint, controlPoint1, controlPoint2,
                isDragging, drawSpline, showControlPoints,
                colourIndex, splineColour, pointData)
    }

    /** The connector the next frame previews: present exactly when the
        preview flag is set, with control points derived from the current
        start and end points. */
    function Preview(): (preview: Option<Curve>)
      reads this
    {
      if drawSpline then
        var (c1, c2) := ControlPoints(startPoint, endPoint);
        Some(Curve(startPoint, c1, c2, endPoint, splineColour))
      else None
    }

    constructor ()
      ensures Valid()
      ensures State() == PageState(Origin, Origin, Origin, Origin, false, false, false,
                                   InitialIndex, Unset, [])
      ensures presses == 0 && invalidations == 0
    {
      startPoint, endPoint := Origin, Origin;
      controlPoint1, controlPoint2 := Origin, Origin;
      isDragging, drawSpline, showControlPoints := false, false, false;
      colourIndex := InitialIndex;
      splineColour := Unset;
      pointData := [];
      presses, invalidations := 0, 0;
    }

    /** The canvas was resized: the start point moves to the centre of the
        new canvas, in every state, even in the middle of a drag. */
    method OnSizeChanged(width: real, height: real)
      requires Valid()
      modifies this
      ensures Valid()
      ensures State() == old(State()).(start := Point(width / 2.0, height / 2.0))
      ensures presses == old(presses) && invalidations == old(invalidations) + 1
    {
      startPoint := Point(width / 2.0, height / 2.0);
      invalidations := invalidations + 1;
    }

    /** A press starts a drag at `position` and advances the palette cursor
        by one, taking the stroke colour from the new palette entry. */
    method OnPointerPressed(position: Point)
      requires Valid()
      modifies this
      ensures Valid()
      ensures 0 <= colourIndex < |Colours|
      ensures State() == old(State()).(dragging := true, start := position, end := position,
                                       colourIndex := NextColourIndex(old(colourIndex)),
                                       splineColour := Colours[colourIndex])
      ensures old(colourIndex) < |Colours| - 1 ==> colourIndex == old(colourIndex) + 1
      ensures old(colourIndex) == |Colours| - 1 ==> colourIndex == 0
      ensures presses == old(presses) + 1 && invalidations == old(invalidations) + 1
    {
      isDragging := true;
      startPoint := position;
      endPoint := startPoint;
      colourIndex := NextColourIndex(colourIndex);
      presses := presses + 1;
      splineColour := Colours[colourIndex];
      invalidations := invalidations + 1;
    }

    /** A move is ignored unless a drag is under way; during a drag it turns
        the preview on and moves the end point to `position`. */
    method OnPointerMoved(position: Point)
      requires Valid()
      modifies this
      ensures Valid()
      ensures !old(isDragging) ==>
        State() == old(State()) && invalidations == old(invalidations)
      ensures old(isDragging) ==>
        State() == old(State()).(drawSpline := true, end := position)
        && invalidations == old(invalidations) + 1
      ensures presses == old(presses)
    {
      if !isDragging {
        return;
      }
      drawSpline := true;
      endPoint := position;
      invalidations := invalidations + 1;
    }

    /** A release commits the connector held in the fields (start point,
        control points, end point, stroke colour) and resets the drag. It
        does not look at whether a drag was under way, and it does not ask
        for a repaint. */
    method OnPointerReleased()
      requires Valid()
      modifies this
      ensures Valid()
      ensures pointData == old(pointData)
        + [Curve(old(startPoint), old(controlPoint1), old(controlPoint2), old(endPoint), old(splineColour))]
      ensures State() == old(State()).(dragging := false, drawSpline := false,
                                       start := Origin, end := Origin, cp1 := Origin, cp2 := Origin,
                                       curves := pointData)
      ensures presses == old(presses) && invalidations == old(invalidations)
    {
      isDragging := false;
      drawSpline := false;
      pointData := pointData + [Curve(startPoint, controlPoint1, controlPoint2, endPoint, splineColour)];
      startPoint := Origin;
      endPoint := Origin;
      controlPoint1 := Origin;
      controlPoint2 := Origin;
    }

    method OnShowControlPoints()
      requires Valid()
      modifies this
      ensures Valid()
      ensures State() == old(State()).(showControlPoints := true)
      ensures presses == old(presses) && invalidations == old(invalidations) + 1
    {
      showControlPoints := true;
      invalidations := invalidations + 1;
    }

    method OnHideControlPoints()
      requires Valid()
      modifies this
      ensures Valid()
      ensures State() == old(State()).(showControlPoints := false)
      ensures presses == old(presses) && invalidations == old(invalidations) + 1
    {
      showControlPoints := false;
      invalidations := invalidations + 1;
    }

    /** Clear forgets every committed connector; the palette cursor, the
        handle visibility and the drag are left as they are. */
    method OnClearSplines()
      requires Valid()
      modifies this
      ensures Valid()
      ensures State() == old(State()).(curves := [])
      ensures presses == old(presses) && invalidations == old(invalidations) + 1
    {
      pointData := [];
      invalidations := invalidations + 1;
    }

    /** The draw handler: returns the frame — the committed connectors in
        list order, then the preview when the preview flag is set. Drawing
        the preview stores its control points in the control-point fields,
        which is where a later release takes them from. */
    method Draw() returns (frame: seq<Primitive>)
      requires Valid()
      modifies this`controlPoint1, this`controlPoint2
      ensures Valid()
      ensures drawSpline ==> (controlPoint1, controlPoint2) == ControlPoints(startPoint, endPoint)
      ensures frame == Frame(pointData, showControlPoints, Preview())
      ensures !drawSpline ==> controlPoint1 == old(controlPoint1) && controlPoint2 == old(controlPoint2)
    {
      frame := [];
      var i := 0;
      while i < |pointData|
        invariant 0 <= i <= |pointData|
        invariant frame == CommittedFrame(pointData[..i], showControlPoints)
      {
        assert pointData[..i + 1][..i] == pointData[..i];
        frame := frame + DrawSpline(pointData[i], showControlPoints);
        i := i + 1;
      }
      assert pointData[..i] == pointData;
      if drawSpline {
        var d := ControlDistance(startPoint, endPoint);
        controlPoint1 := Add(startPoint, Point(d, 0.0));
        controlPoint2 := Sub(endPoint, Point(d, 0.0));
        frame := frame + DrawSpline(Curve(startPoint, controlPoint1, controlPoint2, endPoint, splineColour),
                                    showControlPoints);
      }
    }
  }
}
