/** The barcode service: encoding, the PNG layout and the Generate entry point
    (internal/services/generator/barcode.go, lines 61-84 and 219-293).

    The encoders (`ean.Encode`, `code128.Encode`) and the raster scaler
    (`barcode.Scale`) belong to an outside library; they are parameters here.
    An encoder either rejects its input or gives the first row of modules of
    the symbol, `true` for a dark module. */
module BarcodeService {
  import opened Wrappers
  import opened Text
  import opened BarcodeValidation
  import opened BarcodeSvg

  /** The advance of one glyph of the 7x13 bitmap font, in pixels. */
  const GlyphWidth := 7

  /** The caption as drawn on the PNG: its left edge, its baseline, its bytes. */
  datatype TextPlacement = TextPlacement(x: int, baseline: int, text: seq<byte>)

  /** What renderBarcodePNG draws before encoding the PNG file: a white
      canvas, the symbol scaled into the top `width` by `barHeight` pixels,
      and the caption. */
  datatype PngImage = PngImage(
    width: int,
    totalHeight: int,
    barHeight: int,
    modules: seq<bool>,
    caption: Option<TextPlacement>)

  datatype Rendered = Png(png: PngImage) | Svg(svg: SvgImage)

  /** The image and its content type, as Generate returns them. */
  datatype Generated = Generated(image: Rendered, contentType: string)

  const ContentTypePNG := "image/png"
  const ContentTypeSVG := "image/svg+xml"

  // ---------------------------------------------------------------------------
  // Encoding

  /** encodeBarcode: UPC-A goes to the EAN encoder with a leading "0", EAN-13
      to the EAN encoder as it is, Code128 to the Code128 encoder; a rejection
      becomes ErrInvalidData and an unknown type ErrInvalidType. */
  function EncodeBarcode(
    barcodeType: string, data: seq<byte>,
    eanEncode: seq<byte> -> Option<seq<bool>>,
    code128Encode: seq<byte> -> Option<seq<bool>>): (r: Result<seq<bool>, BarcodeError>)
    ensures !SupportedType(barcodeType) <==> r == Failure(InvalidType)
    ensures r.Failure? && SupportedType(barcodeType) ==> r.error == InvalidData(EncoderRejected)
    ensures barcodeType == TypeUPCA ==>
              (r.Success? <==> eanEncode(Ascii("0") + data).Some?)
              && (r.Success? ==> r.value == eanEncode(Ascii("0") + data).value)
    ensures barcodeType == TypeEAN13 ==>
              (r.Success? <==> eanEncode(data).Some?) && (r.Success? ==> r.value == eanEncode(data).value)
    ensures barcodeType == TypeCode128 ==>
              (r.Success? <==> code128Encode(data).Some?) && (r.Success? ==> r.value == code128Encode(data).value)
  {
    var encoded :=
      if barcodeType == TypeUPCA then eanEncode(Ascii("0") + data)
      else if barcodeType == TypeEAN13 then eanEncode(data)
      else if barcodeType == TypeCode128 then code128Encode(data)
      else None;
    if !SupportedType(barcodeType) then Failure(InvalidType)
    else if encoded.None? then Failure(InvalidData(EncoderRejected))
    else Success(encoded.value)
  }

  // ---------------------------------------------------------------------------
  // PNG

  /** drawBarcodeTextCentered's left edge: half the space the caption leaves
      (Go's division, toward zero), never left of the canvas. Each byte of the
      caption counts as one 7-pixel glyph. */
  function LabelX(text: seq<byte>, canvasWidth: int): (x: int)
    ensures x >= 0
    ensures |text| * GlyphWidth <= canvasWidth ==>
              canvasWidth - 1 <= x + |text| * GlyphWidth + x <= canvasWidth
    ensures |text| * GlyphWidth >= canvasWidth ==> x == 0
  {
    var textWidth := |text| * GlyphWidth;
    var x := GoDiv(canvasWidth - textWidth, 2);
    if x < 0 then 0 else x
  }

  /** renderBarcodePNG, up to the PNG encoding: the canvas is `height` tall,
      20 more with the caption, whose baseline is 16 below the bars. The
      scaler's outcome is `scaled`. */
  method RenderBarcodePng(modules: seq<bool>, width: int, height: int, includeText: bool, text: seq<byte>, scaled: bool)
    returns (r: Result<PngImage, BarcodeError>)
    ensures r.Failure? <==> !scaled
    ensures r.Failure? ==> r.error == ScaleFailed
    ensures r.Success? ==>
              r.value.width == width && r.value.barHeight == height && r.value.modules == modules
              && r.value.totalHeight == (if includeText then height + TextPaddingHeight else height)
              && (r.value.caption.Some? <==> includeText)
    ensures r.Success? && includeText ==>
              r.value.caption.value == TextPlacement(LabelX(text, width), height + TextPaddingHeight - 4, text)
              && r.value.caption.value.baseline < r.value.totalHeight
  {
    var barcodeHeight := height;
    var totalHeight := height;
    if includeText {
      totalHeight := height + TextPaddingHeight;
    }
    if !scaled {
      return Failure(ScaleFailed);
    }
    var caption := None;
    if includeText {
      caption := Some(TextPlacement(LabelX(text, width), height + TextPaddingHeight - 4, text));
    }
    r := Success(PngImage(width, totalHeight, barcodeHeight, modules, caption));
  }

  // ---------------------------------------------------------------------------
  // Generate

  /** Generate: defaults, validation, encoding, then the renderer the format
      names. Every request the validation refuses is refused with that error
      before anything is encoded; an accepted one gets the image of the
      encoder's modules with the content type of its format. */
  method Generate(
    req: GenerateRequest,
    eanEncode: seq<byte> -> Option<seq<bool>>,
    code128Encode: seq<byte> -> Option<seq<bool>>,
    scaled: bool)
    returns (r: Result<Generated, BarcodeError>)
    ensures ValidateBarcodeRequest(Defaulted(req)).Fail? ==>
              r == Failure(ValidateBarcodeRequest(Defaulted(req)).error)
    ensures r.Success? ==>
              ValidateBarcodeRequest(Defaulted(req)).Pass?
              && EncodeBarcode(req.barcodeType, req.data, eanEncode, code128Encode).Success?
    ensures r.Success? ==>
              (r.value.contentType == ContentTypePNG <==> req.format == FormatPNG)
              && (r.value.contentType == ContentTypeSVG <==> req.format == FormatSVG)
              && (r.value.image.Png? <==> req.format == FormatPNG)
    ensures ValidateBarcodeRequest(Defaulted(req)).Pass? ==>
              var bc := EncodeBarcode(req.barcodeType, req.data, eanEncode, code128Encode);
              (bc.Failure? ==> r == Failure(InvalidData(EncoderRejected)))
              && (bc.Success? && req.format == FormatPNG && !scaled ==> r == Failure(ScaleFailed))
              && (bc.Success? && (req.format == FormatSVG || scaled) ==> r.Success?)
    ensures r.Success? && req.format == FormatPNG ==>
              r.value.image.png.width == Defaulted(req).width
              && r.value.image.png.barHeight == Defaulted(req).height
              && r.value.image.png.totalHeight ==
                   (if req.includeText then Defaulted(req).height + TextPaddingHeight else Defaulted(req).height)
              && r.value.image.png.modules == EncodeBarcode(req.barcodeType, req.data, eanEncode, code128Encode).value
              && (r.value.image.png.caption.Some? <==> req.includeText)
    ensures r.Success? && req.format == FormatPNG && req.includeText ==>
              r.value.image.png.caption.value ==
                TextPlacement(LabelX(req.data, Defaulted(req).width), Defaulted(req).height + TextPaddingHeight - 4, req.data)
    ensures r.Success? && req.format == FormatSVG ==>
              r.value.image.svg.width == Defaulted(req).width
              && r.value.image.svg.barHeight == Defaulted(req).height
              && r.value.image.svg.totalHeight ==
                   (if req.includeText then Defaulted(req).height + TextPaddingHeight else Defaulted(req).height)
              && r.value.image.svg.bars == Runs(EncodeBarcode(req.barcodeType, req.data, eanEncode, code128Encode).value)
              && (r.value.image.svg.caption.Some? <==> req.includeText)
    ensures r.Success? && req.format == FormatSVG && req.includeText ==>
              r.value.image.svg.caption.value ==
                Caption(GoDiv(Defaulted(req).width, 2), Defaulted(req).height + TextPaddingHeight - 2, SvgEscape(req.data))
  {
    var d := ApplyBarcodeDefaults(req);
    var valid := ValidateBarcodeRequest(d);
    if valid.Fail? {
      return Failure(valid.error);
    }
    var bc := EncodeBarcode(d.barcodeType, d.data, eanEncode, code128Encode);
    if bc.Failure? {
      return Failure(bc.error);
    }
    // validateBarcodeRequest leaves only the two formats, so Go's default
    // branch of the format switch cannot be reached.
    if d.format == FormatPNG {
      var png := RenderBarcodePng(bc.value, d.width, d.height, d.includeText, d.data, scaled);
      if png.Failure? {
        return Failure(png.error);
      }
      r := Success(Generated(Png(png.value), ContentTypePNG));
    } else {
      var svg := RenderBarcodeSvg(bc.value, d.width, d.height, d.includeText, d.data);
      r := Success(Generated(Svg(svg), ContentTypeSVG));
    }
  }
}
