# Auto_doc_sign: the signing page's drag state and placement arithmetic

This project models the browser script `app.js` of a tool that puts a
signature image onto the first page of a PDF. The user uploads a PDF and a PNG
signature. They drag a box over the rendered page, and the save button writes a
new PDF with the signature drawn where the box was.

The model has four modules:

- `Wrappers` holds `Option`. It stands in for the script's `null` and its
  never-initialised `let` variables.
- `Placement` holds the pure conversion from a box dragged in canvas pixels
  (origin top-left) to a rectangle in PDF user space (origin bottom-left,
  scaled by canvas width over page width). It is modelled over exact reals.
  Its lemmas prove that the conversion is invertible, that it keeps the
  vertical flip right, and that a box inside the canvas lands inside the page.
- `FontScan` is the pass over the first page's text items. The size of the
  last item containing the syllable "인" wins.
- `App` holds the class `Session`. Its fields are the script's module-level
  variables: `fontSize`, `signatureImage`, `isDragging`, `startX`, `startY`,
  `endX`, `endY` and `pdfBytes`. Its methods are the event handlers. A
  `Valid()` predicate holds two facts: the coordinates are set in pairs, and a
  drag can only be in progress while a signature is loaded.

The model keeps two quirks of the script:

- Only a mouse move writes the end point. A press followed at once by a
  release therefore reuses the end point of the previous drag
  (`StaleEndPointScenario`).
- The dragged box is never normalised. A drag up or to the left draws
  nothing on release (`NoPlacementScenario`). The save path does not check the
  drag either, so a negative width or height goes straight into the PDF
  rectangle.

A design description of this tool says the dragged box is normalised
(smaller corner first, absolute extents). The code does not do that, and the
model follows the code. `Placement.Normalize` is kept only as a reference: the
lemma `PlacedBoxIsNormalized` shows that the two agree on every box the
release handler draws, and disagree on up-or-left drags.

## Model

| member | source | states |
|---|---|---|
| App.Session.constructor | app.js:9-14 | The initial state: font size 0, no signature, no PDF, not dragging, all four drag coordinates unset. |
| App.Session.LoadPdf | app.js:16-46 | With no file chosen, nothing changes. With a file, its bytes become the stored PDF. The font size becomes the result of the left-to-right marker scan started from the old size, proved by a loop invariant against `FontSizeAfter`. |
| App.Session.UploadSignature | app.js:51-55 | The signature is replaced only when a file is chosen and its type is exactly `image/png`. Otherwise the stored signature, and so whether a drag can start, is unchanged. |
| App.Session.MouseDown | app.js:69-76 | With a signature loaded, sets the dragging flag and records the start point as the client point minus the canvas offset. Without one, no field changes. The end point is never touched. |
| App.Session.MouseMove | app.js:79-84 | While dragging, the end point becomes the client point minus the canvas offset. When not dragging, nothing changes. The start point and the flag are never touched. |
| App.Session.MouseUp | app.js:96-112 | Always leaves the flag cleared and the coordinates unchanged. It places a box if and only if a drag was in progress, an end point is set, and both `endX-startX` and `endY-startY` are strictly positive. The placed box is exactly `(startX, startY, endX-startX, endY-startY)`. |
| App.Session.Save | app.js:115-138 | Does nothing if and only if the PDF or the signature is missing. Otherwise it draws the stored signature into the stored PDF at `PdfPlacement` of the last start and end points. It does not check that a positive-area box was placed. |
| Placement.Scale | app.js:126 | The scale is positive, and the scale times the page width is the canvas width. |
| Placement.PdfPlacement | app.js:126-130 | Scaling the result back gives the drag: `x*scale == startX`, `width*scale == endX-startX`, `height*scale == endY-startY`. Under the y-flip the PDF box's top edge is the start row and its bottom edge the end row. |
| Placement.PlacementRoundTrip | app.js:126-130 | The conversion is a bijection between drags and PDF rectangles. Drag to rectangle to drag gives the drag back, and rectangle to drag to rectangle gives the rectangle back. |
| Placement.PlacementWithinPage | app.js:126-130 | A top-left to bottom-right drag inside a canvas with the page's proportions gives a rectangle of non-negative size that lies inside the page. |
| Placement.PlacedBoxIsNormalized | app.js:100-103 | A box the release handler draws equals its normalised form. A drag up or left (non-zero sides) has a normalised box of positive area that differs from the box the handler computes. |
| FontScan.LastMarkerWins | app.js:41-46 | After the scan, the font size is the size of the last item whose string contains "인". |
| FontScan.NoMarkerKeepsSize | app.js:41-46 | When no item contains "인", the font size keeps its previous value. |
| FontScan.SizeComesFromMarker | app.js:41-46 | The size after the scan is either the previous value or the size of some item containing "인". |
| App.StaleEndPointScenario | app.js:79-103 | Drag from (10,20) to (100,50), then press at (50,40) and release without a move. The second release draws `(50,40,50,10)`, using the earlier end point. |
| App.NoPlacementScenario | app.js:53-103 | A drag before any signature, or after only a JPEG upload, places nothing. A drag from (100,100) up-left to (40,30) places nothing either. |
| App.SaveScenario | app.js:115-130 | Saving before anything is loaded does nothing. On a 612 by 792 page shown at scale 1.5, a drag from (100,100) to (300,150) saves at x = 200/3, width 400/3, height 100/3 and y = 692. |

## Left out

- `main.py`: a Flask route that parses four numbers and hands a rectangle to PyMuPDF. It is server plumbing over a PDF library, and this model does not cover it.
- PDF rendering (`getDocument`, `getPage`, `getViewport`, `render`, `toDataURL`) and the text extraction: the text items are a parameter of `LoadPdf`. The canvas width and the page size are parameters of `Save`.
- Every canvas drawing call (`clearRect`, `drawImage`, `strokeRect`) and the live red preview box: the model keeps only whether a box is drawn and where. `pdfPageImage` is not modelled because it only affects redrawing.
- The PDF library calls (`PDFDocument.load`, `getPage(0)`, `embedPng`, `drawImage`, `save`), `fetch` of the signature's object URL, `Blob` and the download link. `Save` reports the stored PDF bytes, the stored signature bytes and the rectangle it would draw; the fetched image bytes are taken to be the uploaded file's bytes.
- Asynchronous sequencing, the image `onload` callback and the DOM lookups. Each handler runs to completion as one method call. A failure to parse the PDF after its bytes are stored is not modelled.
- IEEE-754 floating point: all coordinates are exact reals.
- Placement.PdfPlacement: requires a positive canvas width and page width. The script's division by a zero width (Infinity or NaN) is not modelled.
- App.Session.Save: when some drag coordinate was never set, the rectangle is reported as `None` as a whole. The script would compute a rectangle whose affected components are NaN.
- The page-image cache, multi-page placement and touch input of the tool's later revisions are not in `app.js` and are not modelled.
