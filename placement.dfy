/** Rectangles in canvas pixels and in PDF user space, and the conversion the
    save button applies to the dragged box before the signature is drawn into
    the PDF page. Arithmetic is over exact reals. */
module Placement {

  /** A box as the canvas sees it: (x, y) is the corner the drag started at,
      measured in canvas pixels from the top-left of the canvas, y growing
      downwards. Width and height are plain differences and may be negative. */
  datatype Rect = Rect(x: real, y: real, width: real, height: real)

  /** A box in PDF user space: (x, y) is its lower-left corner, measured from
      the bottom-left of the page, y growing upwards. */
  datatype PdfRect = PdfRect(x: real, y: real, width: real, height: real)

  /** Canvas pixels per PDF unit: the canvas width over the page width. */
  function Scale(canvasWidth: real, pageWidth: real): (s: real)
    requires canvasWidth > 0.0 && pageWidth > 0.0
    ensures s > 0.0
    ensures s * pageWidth == canvasWidth
  {
    canvasWidth / pageWidth
  }

  /** The PDF rectangle the signature is drawn at, for a drag from
      (startX, startY) to (endX, endY) on a canvas `canvasWidth` pixels wide
      showing a page of `pageWidth` by `pageHeight` units. Nothing here
      requires a positive-area drag: a drag up or to the left gives a negative
      width or height, exactly as the save path passes it on. */
  function PdfPlacement(canvasWidth: real, pageWidth: real, pageHeight: real,
                        startX: real, startY: real, endX: real, endY: real): (r: PdfRect)
    requires canvasWidth > 0.0 && pageWidth > 0.0
    // Scaling back to canvas pixels gives the drag's start and its extents.
    ensures r.x * Scale(canvasWidth, pageWidth) == startX
    ensures r.width * Scale(canvasWidth, pageWidth) == endX - startX
    ensures r.height * Scale(canvasWidth, pageWidth) == endY - startY
    // Under the y-flip the top edge of the PDF box is the drag's start row
    // and its bottom edge the drag's end row.
    ensures (pageHeight - (r.y + r.height)) * Scale(canvasWidth, pageWidth) == startY
    ensures (pageHeight - r.y) * Scale(canvasWidth, pageWidth) == endY
  {
    var scale := Scale(canvasWidth, pageWidth);
    var signatureWidth := (endX - startX) / scale;
    var signatureHeight := (endY - startY) / scale;
    var x := startX / scale;
    var y := pageHeight - (startY / scale) - signatureHeight;
    PdfRect(x, y, signatureWidth, signatureHeight)
  }

  /** The drag that a PDF rectangle comes from: the inverse of PdfPlacement,
      as (startX, startY, endX, endY) in canvas pixels. */
  function CanvasDrag(canvasWidth: real, pageWidth: real, pageHeight: real, p: PdfRect): (real, real, real, real)
    requires canvasWidth > 0.0 && pageWidth > 0.0
  {
    var scale := Scale(canvasWidth, pageWidth);
    (p.x * scale, (pageHeight - p.y - p.height) * scale,
     (p.x + p.width) * scale, (pageHeight - p.y) * scale)
  }

  /** Every PDF rectangle is the placement of exactly one drag: converting a
      PDF rectangle to its drag and back gives it again, and converting a drag
      to its rectangle and back gives the drag again. */
  lemma PlacementRoundTrip(canvasWidth: real, pageWidth: real, pageHeight: real,
                           startX: real, startY: real, endX: real, endY: real, p: PdfRect)
    requires canvasWidth > 0.0 && pageWidth > 0.0
    ensures var (sx, sy, ex, ey) := CanvasDrag(canvasWidth, pageWidth, pageHeight, p);
            PdfPlacement(canvasWidth, pageWidth, pageHeight, sx, sy, ex, ey) == p
    ensures CanvasDrag(canvasWidth, pageWidth, pageHeight,
                       PdfPlacement(canvasWidth, pageWidth, pageHeight, startX, startY, endX, endY))
            == (startX, startY, endX, endY)
  {
    var scale := Scale(canvasWidth, pageWidth);
    var r := PdfPlacement(canvasWidth, pageWidth, pageHeight, startX, startY, endX, endY);
    assert (r.x + r.width) * scale == r.x * scale + r.width * scale == endX;
    assert (pageHeight - r.y - r.height) * scale == startY;
  }

  /** A drag from top-left to bottom-right that stays on a canvas of the
      page's proportions lands inside the page, with a non-negative size. */
  lemma PlacementWithinPage(canvasWidth: real, pageWidth: real, pageHeight: real,
                            startX: real, startY: real, endX: real, endY: real)
    requires canvasWidth > 0.0 && pageWidth > 0.0
    requires 0.0 <= startX <= endX <= canvasWidth
    requires 0.0 <= startY <= endY <= pageHeight * Scale(canvasWidth, pageWidth)
    ensures var r := PdfPlacement(canvasWidth, pageWidth, pageHeight, startX, startY, endX, endY);
            0.0 <= r.x && r.x + r.width <= pageWidth && 0.0 <= r.width &&
            0.0 <= r.y && r.y + r.height <= pageHeight && 0.0 <= r.height
  {
  }

  /** The rectangle with its corner at the smaller coordinates and absolute
      extents: the normalised form of a drag, which the page script itself does
      not compute. It serves here as the reference a placed box is compared with. */
  function Normalize(startX: real, startY: real, endX: real, endY: real): Rect
  {
    Rect(if startX <= endX then startX else endX,
         if startY <= endY then startY else endY,
         if startX <= endX then endX - startX else startX - endX,
         if startY <= endY then endY - startY else startY - endY)
  }

  /** A box the mouse-up handler draws (both sides strictly positive) is
      already in normalised form; a drag that goes up or left has a normalised
      box of positive area that the handler does not draw. */
  lemma PlacedBoxIsNormalized(startX: real, startY: real, endX: real, endY: real)
    ensures endX - startX > 0.0 && endY - startY > 0.0 ==>
            Normalize(startX, startY, endX, endY) == Rect(startX, startY, endX - startX, endY - startY)
    ensures (endX < startX || endY < startY) && endX != startX && endY != startY ==>
            var n := Normalize(startX, startY, endX, endY);
            n.width > 0.0 && n.height > 0.0 && n != Rect(startX, startY, endX - startX, endY - startY)
  {
  }
}
