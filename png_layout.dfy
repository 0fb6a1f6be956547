/** The pixel-layout arithmetic of `DataManager::loadTexture`
    (world/DataManager.cpp:236-282): how many channels and which bit depth
    the decoded image has, the buffer size and GL format that follow, and
    where each row is stored.

    libpng itself is not modelled; what the code relies on is its
    documented behaviour: `png_get_channels` reports the channels stored
    for the colour type, `png_set_expand` turns palette images into RGB,
    widens grey samples below 8 bits to 8 bits and turns a tRNS chunk into
    an alpha channel, and `png_set_strip_16` narrows 16-bit samples to 8
    bits. The bit depths each colour type allows are those of table 11.1
    of the PNG specification (ISO/IEC 15948). */
module PngLayout {
  import opened Wrappers
  import opened Resources

  datatype ColorType = Gray | Palette | Rgb | GrayAlpha | RgbAlpha

  /** What `png_read_info` reports about a file. */
  datatype PngHeader = PngHeader(width: nat, height: nat, bitDepth: nat, colorType: ColorType, hasTrns: bool)

  /** `png_get_channels`: channels stored per pixel for a colour type. */
  function StoredChannels(ct: ColorType): (n: nat)
    ensures 1 <= n <= 4
  {
    match ct
    case Gray => 1
    case Palette => 1
    case Rgb => 3
    case GrayAlpha => 2
    case RgbAlpha => 4
  }

  /** A header a conforming PNG file can have: a width and height between
      1 and 2^31 - 1 (sections 7.1 and 11.2.2 of the PNG specification), a
      bit depth its colour type allows, and a tRNS chunk only where
      transparency is not already an alpha channel. */
  predicate WellFormed(h: PngHeader)
  {
    1 <= h.width < 0x8000_0000 && 1 <= h.height < 0x8000_0000 &&
    (match h.colorType
     case Gray => h.bitDepth in {1, 2, 4, 8, 16}
     case Palette => h.bitDepth in {1, 2, 4, 8}
     case _ => h.bitDepth in {8, 16}) &&
    (h.hasTrns ==> h.colorType in {Gray, Rgb, Palette})
  }

  /** The decoded layout `loadTexture` settles on: channels per pixel and
      whether it asks libpng to strip 16-bit samples. */
  datatype Layout = Layout(channels: nat, strip16: bool)

  /** Lines 242-263 as written: palette forces 3 channels, grey forces bit
      depth 8 whatever the file's depth, tRNS adds a channel, depth 16 is
      stripped, and any depth other than 8 left after that is rejected. */
  function LayoutAsWritten(h: PngHeader): (r: Result<Layout>)
    ensures r.Failure? ==> r.error == UnsupportedBitDepth
  {
    var channels := (if h.colorType == Palette then 3 else StoredChannels(h.colorType)) + (if h.hasTrns then 1 else 0);
    var depth := if h.colorType == Gray then 8 else h.bitDepth;
    if depth == 16 then Success(Layout(channels, true))
    else if depth != 8 then Failure(UnsupportedBitDepth)
    else Success(Layout(channels, false))
  }

  /** The bit depth after `png_set_expand`: palette and grey samples below
      8 bits are widened to 8; other depths are unchanged. */
  function ExpandedDepth(h: PngHeader): nat
  {
    if (h.colorType == Palette || h.colorType == Gray) && h.bitDepth < 8 then 8 else h.bitDepth
  }

  /** Lines 242-263 with the depth taken after expansion, so a 16-bit grey
      image is stripped like every other 16-bit image and a palette image
      below 8 bits is accepted. This is the layout the rest of the model
      uses. */
  function DecodedLayout(h: PngHeader): (r: Result<Layout>)
    ensures r.Failure? ==> r.error == UnsupportedBitDepth
    ensures r.Success? ==> (r.value.strip16 <==> h.bitDepth == 16)
  {
    var channels := (if h.colorType == Palette then 3 else StoredChannels(h.colorType)) + (if h.hasTrns then 1 else 0);
    var depth := ExpandedDepth(h);
    if depth == 16 then Success(Layout(channels, true))
    else if depth != 8 then Failure(UnsupportedBitDepth)
    else Success(Layout(channels, false))
  }

  /** Channels libpng writes per pixel once the expansion is requested. */
  function DeliveredChannels(h: PngHeader): nat
  {
    (if h.colorType == Palette then 3 else StoredChannels(h.colorType)) + (if h.hasTrns then 1 else 0)
  }

  /** Bytes libpng writes per row, given whether 16-bit samples were
      stripped. */
  function DeliveredRowBytes(h: PngHeader, strip16: bool): nat
  {
    h.width * DeliveredChannels(h) * (if ExpandedDepth(h) == 16 && !strip16 then 2 else 1)
  }

  /** `stride = width * channels`: the bytes the code reserves per row. */
  function Stride(h: PngHeader, l: Layout): nat
  {
    h.width * l.channels
  }

  /** The `switch(channels)` of lines 277-282; any other count leaves the
      format unset. */
  function FormatOf(channels: nat): (f: Option<Format>)
    ensures f.Some? <==> 1 <= channels <= 4
  {
    if channels == 1 then Some(R8)
    else if channels == 2 then Some(RG8)
    else if channels == 3 then Some(RGB8)
    else if channels == 4 then Some(RGBA8)
    else None
  }

  /** Bytes per pixel of each format. */
  function FormatBytes(f: Format): nat
  {
    match f
    case R8 => 1
    case RG8 => 2
    case RGB8 => 3
    case RGBA8 => 4
  }

  /** The format chosen for n channels stores exactly n bytes per pixel, so
      distinct channel counts get distinct formats. */
  lemma FormatMatchesChannels(n: nat)
    requires 1 <= n <= 4
    ensures FormatOf(n).Some? && FormatBytes(FormatOf(n).value) == n
  {
  }

  /** For every conforming file the corrected layout is accepted, names a
      GL format, and reserves exactly the bytes per row that libpng
      writes. */
  lemma DecodedLayoutMatchesLibpng(h: PngHeader)
    requires WellFormed(h)
    ensures DecodedLayout(h).Success?
    ensures 1 <= DecodedLayout(h).value.channels <= 4
    ensures FormatOf(DecodedLayout(h).value.channels).Some?
    ensures Stride(h, DecodedLayout(h).value) == DeliveredRowBytes(h, DecodedLayout(h).value.strip16)
  {
  }

  /** Apart from 16-bit grey and palette images below 8 bits, the code as
      written computes the corrected layout. */
  lemma AsWrittenAgreesElsewhere(h: PngHeader)
    requires WellFormed(h)
    requires !(h.colorType == Gray && h.bitDepth == 16)
    requires !(h.colorType == Palette && h.bitDepth < 8)
    ensures LayoutAsWritten(h) == DecodedLayout(h)
  {
  }

  /** A 16-bit grey image: the code as written forces the depth to 8 before
      the 16-bit test, so it never strips; libpng then writes 2 bytes per
      sample into rows that are only `width` bytes apart. */
  lemma AsWrittenGray16Overflows()
    ensures var h := PngHeader(4, 4, 16, Gray, false);
      WellFormed(h) &&
      LayoutAsWritten(h) == Success(Layout(1, false)) &&
      Stride(h, LayoutAsWritten(h).value) == 4 &&
      DeliveredRowBytes(h, false) == 8
  {
  }

  /** A 4-bit palette image: libpng would expand it to 8-bit RGB, but the
      code as written keeps the file's depth and rejects it. */
  lemma AsWrittenRejectsLowDepthPalette()
    ensures var h := PngHeader(4, 4, 4, Palette, false);
      WellFormed(h) &&
      LayoutAsWritten(h) == Failure(UnsupportedBitDepth) &&
      DecodedLayout(h) == Success(Layout(3, false))
  {
  }

  /** Where `loadTexture` points row i: `(height - i - 1) * stride`. */
  function RowOffset(height: nat, stride: nat, i: nat): nat
    requires i < height
  {
    (height - i - 1) * stride
  }

  /** Rows are stored bottom-up: row i occupies its own stride-sized slot
      inside the `height * stride` buffer, later rows lie strictly before
      earlier ones, and the first and last rows sit at the two ends. */
  lemma RowsFlippedInBuffer(height: nat, stride: nat, i: nat, j: nat)
    requires i < j < height
    ensures RowOffset(height, stride, i) + stride <= height * stride
    ensures RowOffset(height, stride, j) + stride <= RowOffset(height, stride, i)
    ensures RowOffset(height, stride, height - 1) == 0
    ensures RowOffset(height, stride, 0) == (height - 1) * stride
  {
    assert (height - i - 1) * stride + stride == (height - i) * stride;
    assert (height - j - 1) * stride + stride == (height - j) * stride;
    assert (height - j) * stride <= (height - i - 1) * stride by {
      assert height - j <= height - i - 1;
    }
    assert (height - i) * stride <= height * stride;
  }

  /** For a conforming file the buffer `loadTexture` means to allocate,
      `width * height * channels` bytes, fits a 64-bit `size_t`, so sizes
      and offsets computed in `size_t` are exact; it holds exactly `height`
      rows of what libpng writes per row, and each row pointer leaves room
      for a full row. */
  lemma BufferHoldsEveryRow(h: PngHeader, i: nat)
    requires WellFormed(h) && i < h.height
    ensures DecodedLayout(h).Success?
    ensures var l := DecodedLayout(h).value;
      h.width * h.height * l.channels < U32 * U32 &&
      h.width * h.height * l.channels == h.height * DeliveredRowBytes(h, l.strip16) &&
      RowOffset(h.height, Stride(h, l), i) + DeliveredRowBytes(h, l.strip16) <= h.width * h.height * l.channels
  {
    DecodedLayoutMatchesLibpng(h);
    var l := DecodedLayout(h).value;
    var stride := Stride(h, l);
    SizeFits64(h.width, h.height, l.channels);
    assert h.width * h.height * l.channels == h.height * stride by {
      assert h.width * h.height * l.channels == h.height * (h.width * l.channels);
    }
    if i + 1 < h.height {
      RowsFlippedInBuffer(h.height, stride, i, h.height - 1);
    } else {
      assert RowOffset(h.height, stride, i) == 0;
    }
  }

  /** `img->width * img->height * channels` as line 266 computes it: the
      operands are `unsigned int` and `png_uint_32`, so the size handed to
      `new char[]` is the product modulo 2^32. */
  function BufferSizeAsWritten(h: PngHeader, l: Layout): (n: nat)
    ensures n < U32
    ensures h.width * h.height * l.channels < U32 ==> n == h.width * h.height * l.channels
  {
    (h.width * h.height * l.channels) % U32
  }

  /** `q = (img->height - i - 1) * stride` as lines 267-269 compute it:
      `stride` is an `unsigned int`, so `width * channels` wraps modulo
      2^32, and `q` is a `png_uint_32`, so the offset wraps again. */
  function RowOffsetAsWritten(h: PngHeader, l: Layout, i: nat): nat
    requires i < h.height
  {
    ((h.height - i - 1) * ((h.width * l.channels) % U32)) % U32
  }

  /** While the buffer size stays below 2^32 the 32-bit arithmetic of lines
      266-269 is exact: the buffer is `width * height * channels` bytes and
      row i sits at its bottom-up offset. */
  lemma AsWrittenExactBelow2p32(h: PngHeader, l: Layout, i: nat)
    requires i < h.height && h.width * h.height * l.channels < U32
    ensures BufferSizeAsWritten(h, l) == h.width * h.height * l.channels
    ensures RowOffsetAsWritten(h, l, i) == RowOffset(h.height, Stride(h, l), i)
  {
    var stride := h.width * l.channels;
    var size := h.width * h.height * l.channels;
    assert size == h.height * stride;
    MulMono(stride, 1, h.height);
    MulMono(stride, h.height - i - 1, h.height);
    ModSmall(stride);
    ModSmall((h.height - i - 1) * stride);
  }

  /** A 65536 x 65536 8-bit grey image: the size of line 266 wraps to 0,
      so `png_read_image` writes 65536 rows of 65536 bytes into an empty
      buffer. */
  lemma AsWrittenBufferWraps()
    ensures var h := PngHeader(65536, 65536, 8, Gray, false);
      WellFormed(h) &&
      LayoutAsWritten(h) == Success(Layout(1, false)) &&
      BufferSizeAsWritten(h, Layout(1, false)) == 0 &&
      DeliveredRowBytes(h, false) == 65536
  {
    assert 65536 * 65536 * 1 == U32;
  }

  /** Dimensions below 2^31 and at most four channels keep the buffer size
      below 2^64. */
  lemma SizeFits64(w: nat, ht: nat, c: nat)
    requires w < 0x8000_0000 && ht < 0x8000_0000 && c <= 4
    ensures w * ht * c < U32 * U32
  {
    var m := 0x7FFF_FFFF;
    MulMono(ht, w, m);
    MulMono(m, ht, m);
    var p := w * ht;
    assert p <= m * m;
    MulMono(p, c, 4);
    assert p * c <= 4 * p <= 4 * (m * m) < U32 * U32;
  }

  lemma MulMono(a: nat, b: nat, c: nat)
    requires b <= c
    ensures b * a <= c * a
  {
  }

  lemma ModSmall(x: nat)
    requires x < U32
    ensures x % U32 == x
  {
  }

  /** The `rowPtrs` array of lines 265-272, as offsets into `img->data`. */
  method RowPointers(height: nat, stride: nat) returns (rows: array<nat>)
    ensures fresh(rows) && rows.Length == height
    ensures forall i :: 0 <= i < height ==> rows[i] == RowOffset(height, stride, i)
  {
    rows := new nat[height];
    var i := 0;
    while i < height
      invariant 0 <= i <= height
      invariant forall k :: 0 <= k < i ==> rows[k] == RowOffset(height, stride, k)
    {
      rows[i] := RowOffset(height, stride, i);
      i := i + 1;
    }
  }
}
