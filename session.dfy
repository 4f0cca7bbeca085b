/** The page script's module-level state and the event handlers that change
    it: loading a PDF (with the font-size scan), uploading a signature, the
    three mouse handlers of the drag, and the save button. Rendering, drawing
    and the PDF libraries are outside the model; what remains is which state
    each handler leaves behind and which rectangle it would draw. */
module App {
  import opened Wrappers
  import opened Placement
  import opened FontScan

  /** A file picked in a file input: the MIME type the browser reports for it
      and its bytes. */
  datatype UploadedFile = UploadedFile(mimeType: string, contents: seq<bv8>)

  /** The only MIME type the signature input accepts. */
  const PngType: string := "image/png"

  /** What a click on the save button does: nothing, or draw the stored
      signature image into the stored PDF at a rectangle. The rectangle is
      None when a drag coordinate was never set (the script's arithmetic then
      yields NaN). */
  datatype SaveOutcome =
    | NotSaved
    | Drawn(document: seq<bv8>, image: seq<bv8>, at: Option<PdfRect>)

  /** The module-level variables of the page script. The drag coordinates are
      declared without an initial value, hence the Option. */
  class Session {
    var fontSize: real
    var signatureImage: Option<seq<bv8>>
    var isDragging: bool
    var startX: Option<real>
    var startY: Option<real>
    var endX: Option<real>
    var endY: Option<real>
    var pdfBytes: Option<seq<bv8>>

    /** The coordinates are written in pairs, and a drag only ever begins
        once a signature is loaded (and a loaded signature is never dropped). */
    ghost predicate Valid()
      reads this
    {
      (startX.Some? <==> startY.Some?) &&
      (endX.Some? <==> endY.Some?) &&
      (isDragging ==> startX.Some? && signatureImage.Some?)
    }

    constructor ()
      ensures Valid()
      ensures fontSize == 0.0 && signatureImage == None && !isDragging && pdfBytes == None
      ensures startX == None && startY == None && endX == None && endY == None
    {
      fontSize := 0.0;
      signatureImage := None;
      isDragging := false;
      startX, startY, endX, endY := None, None, None, None;
      pdfBytes := None;
    }

    /** The PDF input's change handler, with `items` the text content the
        renderer extracts from the first page. A chosen file replaces the
        stored bytes, and every item containing the marker overwrites the
        font size in turn; with no file nothing changes. */
    method LoadPdf(file: Option<seq<bv8>>, items: seq<TextItem>)
      requires Valid()
      modifies this`pdfBytes, this`fontSize
      ensures Valid()
      ensures file.None? ==> pdfBytes == old(pdfBytes) && fontSize == old(fontSize)
      ensures file.Some? ==> pdfBytes == file && fontSize == FontSizeAfter(items, old(fontSize))
    {
      if file.Some? {
        pdfBytes := file;
        var i := 0;
        while i < |items|
          invariant 0 <= i <= |items|
          invariant pdfBytes == file
          invariant fontSize == FontSizeAfter(items[..i], old(fontSize))
        {
          assert items[..i + 1][..i] == items[..i];
          if HasMarker(items[i]) {
            fontSize := items[i].size;
          }
          i := i + 1;
        }
        assert items[..|items|] == items;
      }
    }

    /** The signature input's change handler: a chosen PNG file becomes the
        signature; no file, or a file of any other type, leaves the stored
        signature as it was. */
    method UploadSignature(file: Option<UploadedFile>)
      requires Valid()
      modifies this`signatureImage
      ensures Valid()
      ensures file.Some? && file.value.mimeType == PngType ==> signatureImage == Some(file.value.contents)
      ensures !(file.Some? && file.value.mimeType == PngType) ==> signatureImage == old(signatureImage)
    {
      if file.Some? && file.value.mimeType == PngType {
        signatureImage := Some(file.value.contents);
      }
    }

    /** Mouse button pressed over the canvas at client point (clientX, clientY),
        the canvas's bounding box starting at (left, top). With a signature
        loaded a drag starts at the canvas-relative point; otherwise nothing
        changes. The end point is left as it was. */
    method MouseDown(clientX: real, clientY: real, left: real, top: real)
      requires Valid()
      modifies this`isDragging, this`startX, this`startY
      ensures Valid()
      ensures old(signatureImage).Some? ==>
                isDragging && startX == Some(clientX - left) && startY == Some(clientY - top)
      ensures old(signatureImage).None? ==>
                isDragging == old(isDragging) && startX == old(startX) && startY == old(startY)
    {
      if signatureImage.Some? {
        isDragging := true;
        startX := Some(clientX - left);
        startY := Some(clientY - top);
      }
    }

    /** Mouse moved over the canvas: while dragging, the end point follows the
        pointer; otherwise nothing changes. The start point and the dragging
        flag are never touched. */
    method MouseMove(clientX: real, clientY: real, left: real, top: real)
      requires Valid()
      modifies this`endX, this`endY
      ensures Valid()
      ensures old(isDragging) ==> endX == Some(clientX - left) && endY == Some(clientY - top)
      ensures !old(isDragging) ==> endX == old(endX) && endY == old(endY)
    {
      if isDragging {
        endX := Some(clientX - left);
        endY := Some(clientY - top);
      }
    }

    /** Mouse button released: a drag in progress ends, and the signature is
        drawn at the box from the start point to the end point when both of its
        sides are strictly positive. The end point is the one the last move
        left, possibly from an earlier drag, and nothing is normalised, so a
        drag up or to the left draws nothing. Coordinates are left as they were. */
    method MouseUp() returns (placed: Option<Rect>)
      requires Valid()
      modifies this`isDragging
      ensures Valid()
      ensures !isDragging
      ensures placed.Some? <==>
                old(isDragging) && endX.Some? &&
                endX.value - startX.value > 0.0 && endY.value - startY.value > 0.0
      ensures placed.Some? ==>
                placed.value == Rect(startX.value, startY.value,
                                     endX.value - startX.value, endY.value - startY.value)
    {
      placed := None;
      if isDragging {
        isDragging := false;
        if endX.Some? {
          var width := endX.value - startX.value;
          var height := endY.value - startY.value;
          if width > 0.0 && height > 0.0 {
            placed := Some(Rect(startX.value, startY.value, width, height));
          }
        }
      }
    }

    /** The save button: without both a PDF and a signature nothing happens.
        Otherwise the signature is drawn into the PDF at the conversion of the
        last start and end points, whether or not a drag was ever placed and
        whatever the signs of its sides. */
    method Save(canvasWidth: real, pageWidth: real, pageHeight: real) returns (outcome: SaveOutcome)
      requires pdfBytes.Some? && signatureImage.Some? ==> canvasWidth > 0.0 && pageWidth > 0.0
      ensures outcome.NotSaved? <==> pdfBytes.None? || signatureImage.None?
      ensures outcome.Drawn? ==>
                outcome.document == pdfBytes.value && outcome.image == signatureImage.value &&
                (outcome.at.Some? <==> startX.Some? && startY.Some? && endX.Some? && endY.Some?)
      ensures outcome.Drawn? && outcome.at.Some? ==>
                outcome.at.value == PdfPlacement(canvasWidth, pageWidth, pageHeight,
                                                 startX.value, startY.value, endX.value, endY.value)
    {
      if pdfBytes.None? || signatureImage.None? {
        return NotSaved;
      }
      var at := None;
      if startX.Some? && startY.Some? && endX.Some? && endY.Some? {
        at := Some(PdfPlacement(canvasWidth, pageWidth, pageHeight,
                                startX.value, startY.value, endX.value, endY.value));
      }
      outcome := Drawn(pdfBytes.value, signatureImage.value, at);
    }
  }

  /** A release without a move since the press reuses the end point of the
      previous drag: after a drag from (10, 20) to (100, 50), pressing at
      (50, 40) and releasing straight away draws the box from (50, 40) to the
      old end point. */
  method StaleEndPointScenario() returns (first: Option<Rect>, second: Option<Rect>)
    ensures first == Some(Rect(10.0, 20.0, 90.0, 30.0))
    ensures second == Some(Rect(50.0, 40.0, 50.0, 10.0))
  {
    var s := new Session();
    s.UploadSignature(Some(UploadedFile(PngType, [0x89])));
    s.MouseDown(10.0, 20.0, 0.0, 0.0);
    s.MouseMove(100.0, 50.0, 0.0, 0.0);
    first := s.MouseUp();
    s.MouseDown(50.0, 40.0, 0.0, 0.0);
    second := s.MouseUp();
  }

  /** A drag from bottom-right to top-left draws nothing, and a press before
      any signature is loaded starts no drag at all. */
  method NoPlacementScenario() returns (upLeft: Option<Rect>, unsigned: Option<Rect>)
    ensures upLeft == None && unsigned == None
  {
    var s := new Session();
    s.MouseDown(10.0, 10.0, 0.0, 0.0);
    s.MouseMove(80.0, 80.0, 0.0, 0.0);
    unsigned := s.MouseUp();
    s.UploadSignature(Some(UploadedFile("image/jpeg", [0xFF])));
    s.MouseDown(10.0, 10.0, 0.0, 0.0);
    s.MouseMove(80.0, 80.0, 0.0, 0.0);
    var stillUnsigned := s.MouseUp();
    assert stillUnsigned == None;
    s.UploadSignature(Some(UploadedFile(PngType, [0x89])));
    s.MouseDown(100.0, 100.0, 0.0, 0.0);
    s.MouseMove(40.0, 30.0, 0.0, 0.0);
    upLeft := s.MouseUp();
  }

  /** A first-page drag from canvas pixel (100, 100) to (300, 150) on a
      612 by 792 page rendered at scale 1.5 (a canvas 918 pixels wide) puts
      the signature at x = 200/3, width 400/3, height 100/3 and, flipped,
      y = 792 - 200/3 - 100/3 = 692. */
  method SaveScenario() returns (outcome: SaveOutcome)
    ensures outcome == Drawn([0x25], [0x89], Some(PdfRect(200.0 / 3.0, 692.0, 400.0 / 3.0, 100.0 / 3.0)))
  {
    var s := new Session();
    outcome := s.Save(918.0, 612.0, 792.0);
    assert outcome == NotSaved;
    s.LoadPdf(Some([0x25]), []);
    s.UploadSignature(Some(UploadedFile(PngType, [0x89])));
    s.MouseDown(100.0, 100.0, 0.0, 0.0);
    s.MouseMove(300.0, 150.0, 0.0, 0.0);
    var placed := s.MouseUp();
    assert placed == Some(Rect(100.0, 100.0, 200.0, 50.0));
    outcome := s.Save(918.0, 612.0, 792.0);
  }
}
