/** Sequences of events delivered to one page, and what they leave behind.
    Each method plays the host: it creates or receives a page and calls its
    handlers in the order the events arrive. */
module Scenarios {
  import opened Geometry
  import opened Palette
  import opened Render
  import opened Connector

  /** A drag from `from` to `to` with one repaint between the move and the
      release commits one connector from `from` to `to` whose control points
      are the derived ones, in the colour the press selected. On a new page
      a drag from (10, 10) to (50, 10) therefore commits both control points
      at (30, 10) (Geometry.ControlPointsOfLevelDrag) in the first palette
      colour (Palette.TenPresses). */
  method DragWithRepaint(page: MainPage, from: Point, to: Point)
    requires page.Valid()
    modifies page
    ensures page.Valid() && page.colourIndex == NextColourIndex(old(page.colourIndex))
    ensures 0 <= page.colourIndex < |Colours|
    ensures page.pointData == old(page.pointData)
      + [Curve(from, ControlPoints(from, to).0, ControlPoints(from, to).1, to, Colours[page.colourIndex])]
  {
    page.OnPointerPressed(from);
    page.OnPointerMoved(to);
    var frame := page.Draw();
    page.OnPointerReleased();
  }

  /** The same drag from a page with no preview on, with no repaint between
      the move and the release: the control points are only computed while drawing, so the committed
      connector has both control points at the origin. */
  method DragWithoutRepaint(page: MainPage, from: Point, to: Point)
    requires page.Valid() && !page.drawSpline
    modifies page
    ensures page.Valid() && page.colourIndex == NextColourIndex(old(page.colourIndex))
    ensures 0 <= page.colourIndex < |Colours|
    ensures page.pointData == old(page.pointData)
      + [Curve(from, Origin, Origin, to, Colours[page.colourIndex])]
  {
    page.OnPointerPressed(from);
    page.OnPointerMoved(to);
    page.OnPointerReleased();
  }

  /** A drag that is repainted after a first move but not after a second:
      the release commits the control points derived for the first end
      point together with the second end point. */
  method StaleControlPoints(page: MainPage, from: Point, first: Point, to: Point)
    requires page.Valid()
    modifies page
    ensures page.Valid() && page.colourIndex == NextColourIndex(old(page.colourIndex))
    ensures 0 <= page.colourIndex < |Colours|
    ensures page.pointData == old(page.pointData)
      + [Curve(from, ControlPoints(from, first).0, ControlPoints(from, first).1, to, Colours[page.colourIndex])]
  {
    page.OnPointerPressed(from);
    page.OnPointerMoved(first);
    var frame := page.Draw();
    page.OnPointerMoved(to);
    page.OnPointerReleased();
  }

  /** A release with no press before it still commits a connector: on a new
      page, from the origin to the origin in the default colour; after a
      resize, from the centre of the canvas. */
  method ReleaseWithoutPress() returns (first: seq<Curve>, second: seq<Curve>)
    ensures first == [Curve(Origin, Origin, Origin, Origin, Unset)]
    ensures second == first + [Curve(Point(400.0, 300.0), Origin, Origin, Origin, Unset)]
  {
    var page := new MainPage();
    page.OnPointerReleased();
    first := page.pointData;
    page.OnSizeChanged(800.0, 600.0);
    page.OnPointerReleased();
    second := page.pointData;
  }

  /** From a page with no preview on, a press followed by a release, with
      no move in between, commits a
      zero-length connector at the press position whose control points are
      the zeros left by the previous reset. */
  method PressThenRelease(page: MainPage, position: Point)
    requires page.Valid() && !page.drawSpline
    modifies page
    ensures page.Valid() && 0 <= page.colourIndex < |Colours|
    ensures page.pointData == old(page.pointData)
      + [Curve(position, Origin, Origin, position, Colours[page.colourIndex])]
  {
    page.OnPointerPressed(position);
    page.OnPointerReleased();
  }

  /** Clearing the connectors does not reset the palette cursor: the drag
      after a clear takes the next colour. */
  method ClearKeepsColourCycle() returns (colours: seq<Colour>, afterClear: seq<Curve>)
    ensures colours == [Crimson, BlueViolet]
    ensures afterClear == []
  {
    var page := new MainPage();
    page.OnPointerPressed(Point(1.0, 2.0));
    page.OnPointerReleased();
    colours := [page.pointData[0].colour];
    page.OnClearSplines();
    afterClear := page.pointData;
    page.OnPointerPressed(Point(3.0, 4.0));
    page.OnPointerReleased();
    colours := colours + [page.pointData[0].colour];
  }

  /** The preview follows the preview flag, not the drag flag: from a page
      with no preview on, right after a press the page is dragging but the
      frame holds only the committed connectors; after a move it ends with
      the preview. */
  method PreviewNeedsMove(page: MainPage, position: Point, to: Point)
    returns (pressed: seq<Primitive>, moved: seq<Primitive>)
    requires page.Valid() && !page.drawSpline
    modifies page
    ensures pressed == CommittedFrame(page.pointData, page.showControlPoints)
    ensures moved == Frame(page.pointData, page.showControlPoints,
                           Some(Curve(position, ControlPoints(position, to).0, ControlPoints(position, to).1,
                                      to, page.splineColour)))
  {
    page.OnPointerPressed(position);
    pressed := page.Draw();
    page.OnPointerMoved(to);
    moved := page.Draw();
  }

  /** Drawing twice with no event in between gives the same frame twice and
      leaves the page as the first drawing left it. */
  method RedrawIsStable(page: MainPage) returns (first: seq<Primitive>, second: seq<Primitive>)
    requires page.Valid()
    modifies page
    ensures first == second
  {
    first := page.Draw();
    ghost var after := page.State();
    second := page.Draw();
    assert page.State() == after;
  }
}
