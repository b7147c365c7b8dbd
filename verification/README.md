# Perspective calibrator — verified model

The calibrator lets an operator click four points on an image: top-left, top-right, bottom-right and bottom-left of a planar region. It extends the two lateral edges of that quadrilateral down to the row `y = image height` to get a *source quadrilateral*, previews the perspective transform from it onto an upright rectangle, and saves it to disk.

This project models the two pieces of logic in that script:

- `Geometry` (geometry.dfy) holds the arithmetic of `calculate_extended_points` and the preview's destination rectangle. These are pure functions over exact reals. A lateral edge that is horizontal makes the source divide by a zero slope, and numpy then yields inf or NaN. The model keeps that case apart as the coordinate `NonFinite`. As a result, `ExtendEdge`, `SourcePoints` and the session methods need no precondition on the edges. Only the exact formula `ExtendedX` and the slope form `SlopeX` require a non-horizontal edge, and `SourcePoints` requires four points.
- `Session` (session.dfy) holds the point-collection state machine of `PerspectiveCalibrator` as the class `Calibrator`. Its fields are `points`, the image `height` and the stored `sourcePoints`. Its methods are the mouse callback, the reset (`'r'`), save (`'s'`) and preview (`'p'`) branches, and one pass of the key loop. The class invariant `Valid()` says two things: at most four points are held, and whenever four are held the stored source quadrilateral is the one computed from them. `Reset` leaves `sourcePoints` stale, as the source does. The invariant shows that the stale value is never read. The pure functions `AddPoint` and `Replay` specify what the callback does to the point list over one call and over a sequence of calls. The `'s'` branch prints each row of the array through `int()` before writing the file. `int()` raises on inf or NaN, and nothing in the key loop catches it. So `Save` writes only an all-finite array; otherwise it reports `Raised`, and `HandleKey` reports `Aborted`: the exception leaves the loop and ends the program at the entry point's handler (calibrator.py:197-200).

The target row of the extension is `self.image.shape[0]` (calibrator.py:87). That is one row below the last pixel row of the image. The last two source points have `y == height`.

## Model

| member | source | states |
|---|---|---|
| Geometry.ExtendedX | calibrator.py:86-91 | the extended column lies on the line through the edge's two clicked points at the target row; for a vertical edge it is the edge's own column |
| Geometry.ExtendedXUnique | calibrator.py:83-91 | a point of the target row lies on the edge's line if and only if its column is the extended column |
| Geometry.SlopeXAgrees | calibrator.py:83-91 | the source's form `x1 + (H - y1) / slope`, with `slope = dy / dx`, equals the extended column wherever the slope is finite and non-zero |
| Geometry.ExtendEdge | calibrator.py:83-91 | the extended coordinate is finite exactly when the edge is not horizontal; when finite it is collinear with the edge; a vertical edge keeps its column |
| Geometry.SourcePoints | calibrator.py:75-99 | the source quadrilateral is the clicked top-left and top-right points, then the right edge (point 2 to point 3) and the left edge (point 1 to point 4) extended to row `height`, in that order |
| Geometry.SourcePointsUnique | calibrator.py:94-99 | any quadrilateral meeting that geometric description is the computed one, and the computed one meets it |
| Geometry.SourcePointsFinite | calibrator.py:83-99 | every coordinate of the source quadrilateral is finite exactly when neither lateral edge is horizontal |
| Geometry.HorizontalEdgeExample | calibrator.py:83-99 | clicks (0,0), (10,0), (20,0), (0,50) on a 100-row image give a non-finite coordinate, because the right edge is horizontal |
| Geometry.ExtensionExamples | calibrator.py:87-91 | a vertical edge from (0,0) to (0,10) reaches row 20 at column 0; a 45-degree edge from (0,0) to (10,10) reaches it at column 20 |
| Geometry.PreviewWidth | calibrator.py:51-52 | the preview width is `height * 0.5` truncated: the largest integer not above it |
| Geometry.TargetRectangle | calibrator.py:51-58 | four corners in top-left, top-right, bottom-right, bottom-left order, on row 0 and row `height - 1` and on column 0 and column `width - 1`; each is a pixel of the preview when `height >= 2`; the order is clockwise when `height >= 4` |
| Session.AddPoint | calibrator.py:15-17 | only a left-button press adds a point, and only while fewer than four are held; a fifth click is a no-op; earlier points are kept and the new one is appended; the count never exceeds four |
| Session.ReplayCollects | calibrator.py:15-17 | after any sequence of mouse events, the points are the earlier points followed by the earliest left-button presses, cut at four |
| Session.CompleteAfterReset | calibrator.py:132-148 | after a reset, four points are held (so save and preview act) exactly when at least four left-button presses have arrived, and they are the first four |
| Session.LowByte | calibrator.py:130 | the masked key is in 0..255 and agrees with the key code modulo 256, which is what `& 0xFF` computes |
| Session.KeyCommand | calibrator.py:129-152 | `'r'` always resets and `'q'` always quits; `'s'` saves and `'p'` previews exactly when four points are held; no key pressed (-1) is ignored |
| Session.Calibrator.constructor | calibrator.py:6-12 | a new session holds no points and no source quadrilateral |
| Session.Calibrator.MouseCallback | calibrator.py:15-31 | the points become `AddPoint` of the old points; on reaching the fourth point the source quadrilateral of those points is stored; otherwise it is unchanged; the invariant is kept |
| Session.Calibrator.CalculateExtendedPoints | calibrator.py:75-99 | stores the source quadrilateral of the four held points |
| Session.Calibrator.Reset | calibrator.py:132-134 | empties the points and takes the reloaded image's height; the stored source quadrilateral is left as it was; save and preview are then disabled |
| Session.Calibrator.Save | calibrator.py:139-146 | nothing happens unless four points are held; the array is written exactly when every coordinate of the current points' source quadrilateral is finite, and it is that quadrilateral, never a stale one; otherwise `int()` raises before anything is written |
| Session.Calibrator.PreviewTransform | calibrator.py:45-58 | a preview happens exactly when four points are held; it maps the source quadrilateral of the current points onto the target rectangle, at the preview width and the image height |
| Session.Calibrator.HandleKey | calibrator.py:129-152 | one key-loop pass does what `KeyCommand` selects: a reset changes only the points and the height; save reports the current source quadrilateral, or `Aborted` when it is not all finite; preview reports it with the target rectangle; nothing else changes state |

## Left out

- Drawing and display (`cv2.circle`, `cv2.line`, `cv2.polylines`, `cv2.imshow`, window creation, `destroyAllWindows`): calls into the GUI library with no stateable contract. The model leaves the pixels of the image untouched.
- The endless `cv2.waitKey` polling loop: `HandleKey` models one pass of it, and `Replay` models a sequence of mouse callbacks.
- `cv2.getPerspectiveTransform` and `cv2.warpPerspective`: homography solving and float image resampling in a library. `PreviewTransform` returns the point correspondence and output size they would receive.
- `np.save` to `source_points.npy` and all console output: file I/O and formatting. `Save` returns the array that would be written. Of the `int()` conversions in the printing, only their failure on a non-finite coordinate is modelled, as `Raised`; the truncated values printed are not.
- `main()`: argument parsing, reading the first video frame, existence checks and exception reporting, which are I/O. Loading an image is modelled only by its height: the constructor's and `Reset`'s height parameters. A failed first load, where the constructor raises `ValueError` (calibrator.py:9-10), is not modelled: the constructor takes the height of an image that did load. A failed reload in `Reset` (`cv2.imread` returning `None`) is not modelled either.
- Floating point: coordinates are exact reals. inf, -inf and NaN from a horizontal edge all become `NonFinite`. The `float32` conversion in the preview is not modelled.
- Before the fourth click, the source has no `source_points` attribute at all. The model uses `None` for that state.
- Mouse events other than a left-button press are folded into `OtherEvent`; the callback's `flags` and `param` arguments are unused by the source and not modelled.
- The guards of `'s'`, `'p'` and `preview_transform` are the same test (exactly four points), so they are one predicate, `Calibrator.Complete`.
- Session.Calibrator.MouseCallback: does not model the exception that `int(left_x)` or `int(right_x)` raises while drawing the extended lines on a horizontal edge (calibrator.py:108-109). The array is already stored at that point (calibrator.py:94-99). What the GUI library does with an exception raised inside its mouse callback is outside the model; the model keeps the stored state and continues.
- Session.Calibrator.PreviewTransform: hands a non-finite quadrilateral on to the transform as the source does; what `cv2.getPerspectiveTransform` and `cv2.warpPerspective` do with inf or NaN is not modelled.
