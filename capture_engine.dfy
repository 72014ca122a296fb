/** One call of `_capture`: check the document, pick the rectangle for the capture area,
    normalise the image format, size the canvas by the scale and ask the renderer for
    the encoded image. The renderer (`drawWindow` followed by `toDataURL`) is an oracle. */
module CaptureEngine {
  import opened Wrappers

  /** What `_capture` reads from the selected tab: whether the document has a body,
      the root element's scroll size, the viewport's CSS offset and the window's inner size. */
  datatype Document = Document(
    hasBody: bool,
    scrollWidth: int, scrollHeight: int,
    cssX: real, cssY: real,
    innerWidth: int, innerHeight: int)

  /** The CSS-pixel rectangle handed to `drawWindow`. */
  datatype Rect = Rect(x: real, y: real, w: int, h: int)

  /** What the renderer gives back for a rectangle, a scale and a MIME type:
      either it throws or it yields a data URL. */
  datatype Raster = DrawThrew | Encoded(dataURL: string)

  type Draw = (Rect, real, string) -> Raster

  /** The object `_capture` returns when it succeeds. */
  datatype CaptureData = CaptureData(
    dataURL: string, width: real, height: real, dataType: string, extension: string)

  /** The three ways a call of `_capture` can end: by throwing, by returning null, or with data. */
  datatype Outcome = Threw | Null | Captured(data: CaptureData)

  /** The output type and file extension `_capture` settles on. */
  datatype Encoding = Encoding(dataType: string, ext: string)

  const Entire := "entire"
  const Visible := "visible"
  const Png := "image/png"
  const Jpeg := "image/jpeg"

  predicate KnownArea(mode: string) { mode == Entire || mode == Visible }

  predicate KnownFormat(format: string) { format == Png || format == Jpeg }

  /** The MIME type a file extension stands for (the pairing the MIME service is asked
      to confirm when the image is saved). */
  function MimeOf(ext: string): Option<string>
  {
    if ext == "png" then Some(Png) else if ext == "jpg" then Some(Jpeg) else None
  }

  /** The capture rectangle for an area mode; any mode other than the two known ones has none. */
  function Geometry(doc: Document, mode: string): (r: Option<Rect>)
    ensures r.Some? <==> KnownArea(mode)
  {
    if mode == Entire then Some(Rect(0.0, 0.0, doc.scrollWidth, doc.scrollHeight))
    else if mode == Visible then Some(Rect(doc.cssX, doc.cssY, doc.innerWidth, doc.innerHeight))
    else None
  }

  /** The format switch: a known format is kept, anything else becomes PNG; the extension
      always names the chosen type. */
  function Normalize(format: string): (r: Encoding)
    ensures KnownFormat(r.dataType)
    ensures MimeOf(r.ext) == Some(r.dataType)
    ensures r.dataType == format <==> KnownFormat(format)
    // any other format falls back to PNG
    ensures !KnownFormat(format) ==> r == Encoding(Png, "png")
  {
    if format == Png then Encoding(Png, "png")
    else if format == Jpeg then Encoding(Jpeg, "jpg")
    else Encoding(Png, "png")
  }

  /** One call of `_capture(window, mode, format, scale)` on a document `doc` with renderer `draw`. */
  function Capture(doc: Document, draw: Draw, mode: string, format: string, scale: real): (r: Outcome)
    // null exactly when there is no body or the area mode is unknown
    ensures r.Null? <==> !doc.hasBody || !KnownArea(mode)
    // a result carries the scaled size of the mode's rectangle and a type its extension agrees with
    ensures r.Captured? ==>
      var d := r.data;
      && (mode == Entire ==>
            d.width == scale * (doc.scrollWidth as real) && d.height == scale * (doc.scrollHeight as real))
      && (mode == Visible ==>
            d.width == scale * (doc.innerWidth as real) && d.height == scale * (doc.innerHeight as real))
      && MimeOf(d.extension) == Some(d.dataType)
      && (d.dataType == format <==> KnownFormat(format))
      && KnownFormat(d.dataType)
      && (!KnownFormat(format) ==> d.dataType == Png && d.extension == "png")
  {
    if !doc.hasBody then Null
    else
      match Geometry(doc, mode)
      case None => Null
      case Some(rect) =>
        var enc := Normalize(format);
        match draw(rect, scale, enc.dataType)
        case DrawThrew => Threw
        case Encoded(url) =>
          Captured(CaptureData(url, scale * (rect.w as real), scale * (rect.h as real), enc.dataType, enc.ext))
  }

  /** The image is the renderer's output for the mode's rectangle at the requested scale
      and the normalised type, and an attempt throws exactly when the renderer does. */
  lemma CaptureDraws(doc: Document, draw: Draw, mode: string, format: string, scale: real)
    requires doc.hasBody && KnownArea(mode)
    ensures var rect := if mode == Entire then Rect(0.0, 0.0, doc.scrollWidth, doc.scrollHeight)
                        else Rect(doc.cssX, doc.cssY, doc.innerWidth, doc.innerHeight);
            var raster := draw(rect, scale, Normalize(format).dataType);
            var r := Capture(doc, draw, mode, format, scale);
            && (r.Threw? <==> raster.DrawThrew?)
            && (r.Captured? ==> raster == Encoded(r.data.dataURL))
  {
  }

  /** The null exits come before the renderer is touched: whether an attempt returns null,
      and that it does, does not depend on the renderer at all. */
  lemma NullBeforeDrawing(doc: Document, draw1: Draw, draw2: Draw, mode: string, format: string, scale: real)
    requires Capture(doc, draw1, mode, format, scale).Null?
    ensures Capture(doc, draw2, mode, format, scale) == Null
  {
  }
}
