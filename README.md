# BezierConnector: the drag-to-draw connector page, in Dafny

BezierConnector is a small Windows app in which the user drags on a canvas
from a start point to an end point and gets a cubic Bézier connector between
them. The page derives the two control points itself, so that the curve
leaves the start point and enters the end point horizontally. It previews
the curve while the pointer moves and commits it to a list of connectors on
release. Each new drag takes the next colour of a nine-colour palette.
Buttons show or hide the control-point handles and clear the list.

This project models the page (`MainPage`) as a Dafny class with the page's
fields, with three differences: the colour list is the module constant
`Palette.Colours`, the unused random number generator is left out, and two
ghost counters are added (`presses`, the number of presses so far, and
`invalidations`, the number of repaint requests). Each event handler is a method whose postcondition gives the whole
new state. The draw handler is a method that returns the frame as an ordered
sequence of abstract draw primitives.

- `geometry.dfy` (module `Geometry`): points and the control-point rule.
- `palette.dfy` (module `Palette`): the colours, C#'s remainder, and the
  palette cursor that a press advances.
- `render.dfy` (module `Render`): committed connectors, draw primitives, what
  one connector draws, and the frame as a function with its ordering lemmas.
- `connector.dfy` (module `Connector`): the class `MainPage`, its invariant
  `Valid()`, the seven event handlers and `Draw`.
- `scenarios.dfy` (module `Scenarios`): event sequences played against a
  page, stating what they commit.

The invariant `Valid()` ties the state together:
- the palette cursor is the one the number of presses so far selects;
- the stroke colour is the palette entry under the cursor, or the default
  colour before the first press;
- the preview flag is only ever set during a drag;
- while the preview flag is clear, both control points are zero.

In these points the page behaves unlike what a user might expect, and the
model follows the code:
- A release does not check that a drag is under way. A release with no
  press before it still appends a connector: one that runs from the origin,
  or from the canvas centre after a resize, in the last stroke colour.
- The control points are computed only while drawing the preview, and
  stored in the control-point fields. A release commits whatever those
  fields hold. With no repaint since the press they hold zeros (unless the
  press came while an earlier drag's preview was still on); the same goes
  for a press followed directly by a release. With a repaint after an
  earlier move but none after the last one, they hold the control points
  of that earlier end point, while the connector ends at the last one.
- The preview is gated by the preview flag, which only a move sets. It is
  not gated by the drag flag. Right after a press from a page whose preview
  flag is clear (no earlier drag's preview still on), the page is dragging
  but draws no preview. A press never clears the preview flag.
- A release does not ask the host for a repaint. Every other handler does,
  except a move outside a drag.

## Model

| member | source | states |
|---|---|---|
| Geometry.ControlDistance | BezierConnector/MainPage.xaml.cs:76 | the control offset is non-negative and is half the horizontal span of the drag |
| Geometry.ControlPoints | BezierConnector/MainPage.xaml.cs:76-78 | each control point is at the height of its end point; the first lies right of the start and the second left of the end, both by half the horizontal span |
| Geometry.ControlPointsShape | BezierConnector/MainPage.xaml.cs:76-78 | for a left-to-right drag both control points meet at the horizontal midpoint; for a right-to-left drag they overshoot both end points |
| Geometry.ControlPointsTranslate | BezierConnector/MainPage.xaml.cs:76-78 | moving both end points by a vector moves both control points by that vector |
| Geometry.ControlPointsOfLevelDrag | BezierConnector/MainPage.xaml.cs:76-78 | a drag from (10, 10) to (50, 10) puts both control points at (30, 10) |
| Geometry.ControlPointsVertical | BezierConnector/MainPage.xaml.cs:76-78 | with no horizontal displacement each control point coincides with its end point |
| Palette.CsRemainder | BezierConnector/MainPage.xaml.cs:137 | C#'s remainder differs from the dividend by a multiple of the divisor and is smaller than the divisor in magnitude, with the sign of the dividend; these fix its value for every dividend |
| Palette.CsRemainderNegate | BezierConnector/MainPage.xaml.cs:137 | negating the dividend negates C#'s remainder |
| Palette.NextColourIndex | BezierConnector/MainPage.xaml.cs:137 | a press advances the cursor by one and wraps from the last palette entry to the first; from any cursor at least -1 the result is a palette index |
| Palette.PressCycle | BezierConnector/MainPage.xaml.cs:137 | the cursor starts at -1 (line 34) and each press advances it over the nine-entry palette (lines 51-62), so the n-th press selects palette entry (n - 1) mod 9 |
| Palette.PressCyclePeriod | BezierConnector/MainPage.xaml.cs:137-139 | after any press the cursor is a palette index, and nine more presses return to the same entry |
| Palette.TenPresses | BezierConnector/MainPage.xaml.cs:51-62 | presses one to nine select entries 0 to 8 in order, and the tenth selects the first colour again |
| Render.HandleBox | BezierConnector/MainPage.xaml.cs:105 | the handle box is a 6 by 6 square centred on the control point |
| Render.DrawSpline | BezierConnector/MainPage.xaml.cs:83-121 | one connector draws 5 primitives with handles hidden and 11 with handles shown. The cubic path comes first. With handles shown, a dotted line, a filled box and an outlined box follow for each control point. The start and end markers come last, each outline then fill, radius 5. Outlines use the connector's colour and fills are beige |
| Render.FrameLength | BezierConnector/MainPage.xaml.cs:69-72 | the committed connectors draw PerCurve primitives each |
| Render.FrameAppend | BezierConnector/MainPage.xaml.cs:69-72 | the frame of a concatenated list is the concatenation of the frames, so later connectors are drawn on top of earlier ones |
| Render.FrameAt | BezierConnector/MainPage.xaml.cs:69-72 | primitive k of connector i is at position i * PerCurve + k of the committed frame |
| Render.PreviewOnTop | BezierConnector/MainPage.xaml.cs:69-80 | with connectors [a, b] and a preview c, the frame is a's primitives, then b's, then c's |
| Render.PreviewIsLast | BezierConnector/MainPage.xaml.cs:74-80 | without a preview the frame is the committed connectors alone; with one, the preview's primitives are the last ones of the frame |
| Connector.MainPage.constructor | BezierConnector/MainPage.xaml.cs:31-63 | a new page has all points zero, all flags clear, cursor -1, the default stroke colour and no connectors |
| Connector.MainPage.OnSizeChanged | BezierConnector/MainPage.xaml.cs:123-130 | the start point becomes the canvas centre in every state, including mid-drag; all other fields are unchanged; one repaint is requested |
| Connector.MainPage.OnPointerPressed | BezierConnector/MainPage.xaml.cs:132-141 | starts a drag with start and end at the press position; the cursor advances by one modulo 9 and the stroke colour becomes that palette entry; the preview flag and the connectors are unchanged |
| Connector.MainPage.OnPointerMoved | BezierConnector/MainPage.xaml.cs:143-153 | when not dragging, nothing changes and no repaint is requested; when dragging, only the preview flag (set) and the end point change |
| Connector.MainPage.OnPointerReleased | BezierConnector/MainPage.xaml.cs:155-166 | appends exactly one connector built from the current fields after the existing ones, whether or not a drag was under way; clears both flags and zeroes the four points; requests no repaint |
| Connector.MainPage.OnShowControlPoints | BezierConnector/MainPage.xaml.cs:168-172 | sets handle visibility and changes nothing else |
| Connector.MainPage.OnHideControlPoints | BezierConnector/MainPage.xaml.cs:174-178 | clears handle visibility and changes nothing else |
| Connector.MainPage.OnClearSplines | BezierConnector/MainPage.xaml.cs:180-184 | empties the connector list and leaves the cursor, handle visibility and the drag unchanged |
| Connector.MainPage.Draw | BezierConnector/MainPage.xaml.cs:65-81 | the frame is the committed connectors in list order, then the preview exactly when the preview flag is set. Drawing the preview stores the derived control points in the control-point fields; otherwise they are untouched |
| Scenarios.DragWithRepaint | BezierConnector/MainPage.xaml.cs:132-166 | from any valid state, including one where an earlier drag's preview is still on, press, move, repaint and release commit one connector from the press position to the move position, with the derived control points, in the next palette colour |
| Scenarios.StaleControlPoints | BezierConnector/MainPage.xaml.cs:65-166 | press, move, repaint, a second move and release commit a connector ending at the second move position whose control points are those derived for the first one |
| Scenarios.DragWithoutRepaint | BezierConnector/MainPage.xaml.cs:155-166 | from a page whose preview flag is clear (no earlier drag's preview still on), without a repaint before the release, the committed connector has both control points at the origin |
| Scenarios.ReleaseWithoutPress | BezierConnector/MainPage.xaml.cs:155-166 | on a new page a release commits an all-zero connector in the default colour; after a resize, the next one starts at the canvas centre |
| Scenarios.PressThenRelease | BezierConnector/MainPage.xaml.cs:161-165 | from a page whose preview flag is clear (no earlier drag's preview still on), a press directly followed by a release commits a zero-length connector at the press position with zero control points |
| Scenarios.ClearKeepsColourCycle | BezierConnector/MainPage.xaml.cs:180-184 | the drag after a clear takes the next palette colour, not the first |
| Scenarios.PreviewNeedsMove | BezierConnector/MainPage.xaml.cs:74 | from a page whose preview flag is clear (no earlier drag's preview still on), right after a press the frame has no preview; after a move it ends with the preview of the derived curve |
| Scenarios.RedrawIsStable | BezierConnector/MainPage.xaml.cs:65-80 | two draws with no event in between give the same frame |

## Left out

- Win2D and XAML: path builders, geometry objects, the drawing session, the
  stroke style object and `InitializeComponent`. The frame is returned as a
  sequence of abstract primitives for the host to paint.
- The repaint request to the host is counted in the ghost field
  `invalidations` and is not otherwise modelled.
- Reading the pointer position and the new canvas size from event arguments:
  positions and sizes are method parameters. The release handler ignores
  its pointer position, so it takes none.
- Single-precision arithmetic and the casts of the canvas size: coordinates
  are reals and no rounding is modelled.
- The RGB values of the named colours: colours are names only. The stroke
  colour before the first press is the default colour value, `Unset`.
- The random number generator, which is created and never used.
- Evaluating or sampling points on the Bézier curve: the page never does it,
  and the host draws the cubic path.
