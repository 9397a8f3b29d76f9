/**
What the image walkers of lib/matrix/media.ts read off a byte string, as
functions: the blocks of a GIF, the chunks of a PNG and of a WebP file, the
segments of a JPEG, and the verdict of assertSafeImageBytes.
*/
module ImageContainers {
  import opened Basics

  type Byte = b: int | 0 <= b < 256
  type Bytes = seq<Byte>

  const MAX_IMAGE_BYTES := 64 * 1024 * 1024
  const MAX_IMAGE_PIXELS := MAX_IMAGE_BYTES / 4
  const MAX_IMAGE_EDGE := 16384

  datatype Rect = Rect(x: int, y: int, width: int, height: int)

  datatype Dimensions = Dimensions(width: int, height: int)

  function At(b: Bytes, i: int): (n: int)
    requires 0 <= i < |b|
    ensures 0 <= n < 256
  {
    b[i]
  }

  function U16Le(b: Bytes, i: int): (n: int)
    requires 0 <= i && i + 2 <= |b|
    ensures 0 <= n < 0x10000
  {
    At(b, i) + 256 * At(b, i + 1)
  }

  function U16Be(b: Bytes, i: int): (n: int)
    requires 0 <= i && i + 2 <= |b|
    ensures 0 <= n < 0x10000
  {
    256 * At(b, i) + At(b, i + 1)
  }

  function U24Le(b: Bytes, i: int): (n: int)
    requires 0 <= i && i + 3 <= |b|
    ensures 0 <= n < 0x100_0000
  {
    At(b, i) + 256 * At(b, i + 1) + 65536 * At(b, i + 2)
  }

  function U32Le(b: Bytes, i: int): (n: int)
    requires 0 <= i && i + 4 <= |b|
    ensures 0 <= n < 0x1_0000_0000
  {
    U16Le(b, i) + 0x10000 * U16Le(b, i + 2)
  }

  function U32Be(b: Bytes, i: int): (n: int)
    requires 0 <= i && i + 4 <= |b|
    ensures 0 <= n < 0x1_0000_0000
  {
    0x10000 * U16Be(b, i) + U16Be(b, i + 2)
  }

  /** Four given bytes stand here. */
  predicate Tag(b: Bytes, i: int, t0: int, t1: int, t2: int, t3: int) {
    0 <= i && i + 4 <= |b| && b[i] == t0 && b[i + 1] == t1 && b[i + 2] == t2 && b[i + 3] == t3
  }

  predicate TagRiff(b: Bytes, i: int) { Tag(b, i, 0x52, 0x49, 0x46, 0x46) }
  predicate TagWebp(b: Bytes, i: int) { Tag(b, i, 0x57, 0x45, 0x42, 0x50) }
  predicate TagIhdr(b: Bytes, i: int) { Tag(b, i, 0x49, 0x48, 0x44, 0x52) }
  predicate TagActl(b: Bytes, i: int) { Tag(b, i, 0x61, 0x63, 0x54, 0x4C) }
  predicate TagFctl(b: Bytes, i: int) { Tag(b, i, 0x66, 0x63, 0x54, 0x4C) }
  predicate TagAnmf(b: Bytes, i: int) { Tag(b, i, 0x41, 0x4E, 0x4D, 0x46) }
  predicate TagVp8x(b: Bytes, i: int) { Tag(b, i, 0x56, 0x50, 0x38, 0x58) }
  predicate TagVp8(b: Bytes, i: int) { Tag(b, i, 0x56, 0x50, 0x38, 0x20) }
  predicate TagVp8l(b: Bytes, i: int) { Tag(b, i, 0x56, 0x50, 0x38, 0x4C) }

  /* ---- GIF ---- */

  /** GIF87a or GIF89a. */
  predicate IsGif(b: Bytes) {
    |b| >= 6 && Tag(b, 0, 0x47, 0x49, 0x46, 0x38) && (b[4] == 0x37 || b[4] == 0x39) && b[5] == 0x61
  }

  /** The offset after the sub-blocks that start here. */
  function SkipSubBlocks(b: Bytes, start: int): (end: int)
    requires 0 <= start
    ensures start <= end && (start <= |b| ==> end <= |b|)
    decreases |b| - start
  {
    if start >= |b| then start
    else if b[start] == 0 then start + 1
    else if start + 1 + b[start] > |b| then |b|
    else SkipSubBlocks(b, start + 1 + b[start])
  }

  function Pow2(n: nat): (p: int)
    ensures p >= 1
  {
    if n == 0 then 1 else 2 * Pow2(n - 1)
  }

  /** The colour table announced by a packed byte. */
  function PaletteBytes(packed: Byte): (n: int)
    ensures n >= 0
  {
    if packed < 128 then 0 else 3 * Pow2(packed % 8 + 1)
  }

  /** What stands at a marker. A descriptor may have no room left for its data. */
  datatype GifBlock =
    | GifEnd
    | Extension(next: int)
    | Image(rect: Rect, next: int)
    | Truncated(rect: Rect)

  function GifRect(b: Bytes, i: int): Rect
    requires 0 <= i && i + 8 <= |b|
  {
    Rect(U16Le(b, i), U16Le(b, i + 2), U16Le(b, i + 4), U16Le(b, i + 6))
  }

  function GifBlockAt(b: Bytes, i: int): (k: GifBlock)
    requires 0 <= i < |b|
    ensures k.Extension? || k.Image? ==> i < k.next
  {
    if b[i] == 0x21 && i + 1 < |b| then Extension(SkipSubBlocks(b, i + 2))
    else if b[i] != 0x2c || i + 10 > |b| then GifEnd
    else
      var data := i + 10 + PaletteBytes(b[i + 9]);
      if data >= |b| then Truncated(GifRect(b, i + 1)) else Image(GifRect(b, i + 1), SkipSubBlocks(b, data + 1))
  }

  function GifBlocks(b: Bytes, i: int): seq<GifBlock>
    requires 0 <= i
    decreases |b| - i
  {
    if i >= |b| then []
    else
      var k := GifBlockAt(b, i);
      if k.Extension? || k.Image? then [k] + GifBlocks(b, k.next) else [k]
  }

  function GifStart(b: Bytes): (i: int)
    requires |b| >= 13
    ensures i >= 13
  {
    13 + PaletteBytes(b[10])
  }

  function Images(blocks: seq<GifBlock>): (n: nat) {
    if blocks == [] then 0 else (if blocks[0].Image? then 1 else 0) + Images(blocks[1..])
  }

  function Rects(blocks: seq<GifBlock>): seq<Rect> {
    if blocks == [] then []
    else (if blocks[0].Image? || blocks[0].Truncated? then [blocks[0].rect] else []) + Rects(blocks[1..])
  }

  function AllGifBlocks(b: Bytes): seq<GifBlock> {
    if !IsGif(b) || |b| < 13 then [] else GifBlocks(b, GifStart(b))
  }

  /* ---- Chunks of PNG and WebP ---- */

  /** A chunk's type and its data; `next` is where the following chunk would be. */
  datatype Chunk = Chunk(at: int, data: int, length: int, next: int)

  function PngChunks(b: Bytes, i: int): seq<Chunk>
    requires 0 <= i
    decreases |b| - i
  {
    if i + 12 > |b| || U32Be(b, i) > |b| - i - 12 then []
    else
      var n := U32Be(b, i);
      [Chunk(i, i + 8, n, i + 12 + n)] + PngChunks(b, i + 12 + n)
  }

  function WebpChunks(b: Bytes, i: int): seq<Chunk>
    requires 0 <= i
    decreases |b| - i
  {
    if i + 8 > |b| || U32Le(b, i + 4) > |b| - i - 8 then []
    else
      var n := U32Le(b, i + 4);
      [Chunk(i, i + 8, n, i + 8 + n + n % 2)] + WebpChunks(b, i + 8 + n + n % 2)
  }

  /** The chunk lies inside the file. */
  predicate Inside(b: Bytes, c: Chunk) {
    0 <= c.at && c.data == c.at + 8 && 0 <= c.length && c.data + c.length <= |b| && c.data + c.length <= c.next
  }

  predicate IsPng(b: Bytes) { Tag(b, 0, 137, 80, 78, 71) && Tag(b, 4, 13, 10, 26, 10) }

  predicate IsWebp(b: Bytes) { TagRiff(b, 0) && TagWebp(b, 8) }

  predicate IsActl(b: Bytes, c: Chunk) { Inside(b, c) && TagActl(b, c.at + 4) && c.length >= 8 }

  predicate IsFctl(b: Bytes, c: Chunk) { Inside(b, c) && TagFctl(b, c.at + 4) && c.length >= 26 }

  predicate IsAnmf(b: Bytes, c: Chunk) { Inside(b, c) && TagAnmf(b, c.at) }

  /** The animation header decides; without one there is a single frame. */
  function PngFrames(b: Bytes, cs: seq<Chunk>): (n: int)
    ensures 0 <= n
  {
    if cs == [] then 1
    else if IsActl(b, cs[0]) then U32Be(b, cs[0].data)
    else PngFrames(b, cs[1..])
  }

  /** The rectangle in a frame header whose data start here. */
  function PngRect(b: Bytes, data: int): Rect
    requires 0 <= data && data + 26 <= |b|
  {
    Rect(U32Be(b, data + 12), U32Be(b, data + 16), U32Be(b, data + 4), U32Be(b, data + 8))
  }

  function PngRects(b: Bytes, cs: seq<Chunk>): (rs: seq<Rect>)
  {
    if cs == [] then []
    else
      (if IsFctl(b, cs[0]) then [PngRect(b, cs[0].data)] else []) + PngRects(b, cs[1..])
  }

  function WebpFrames(b: Bytes, cs: seq<Chunk>): (n: nat) {
    if cs == [] then 0 else (if IsAnmf(b, cs[0]) then 1 else 0) + WebpFrames(b, cs[1..])
  }

  function WebpRect(b: Bytes, data: int): Rect
    requires 0 <= data && data + 16 <= |b|
  {
    Rect(U24Le(b, data) * 2, U24Le(b, data + 3) * 2, U24Le(b, data + 6) + 1, U24Le(b, data + 9) + 1)
  }

  /** None: a frame too short to hold its rectangle, which is an error. */
  function WebpRects(b: Bytes, cs: seq<Chunk>): (rs: Option<seq<Rect>>)
  {
    if cs == [] then Some([])
    else if !IsAnmf(b, cs[0]) then WebpRects(b, cs[1..])
    else if cs[0].length < 16 then None
    else
      var rest := WebpRects(b, cs[1..]);
      if rest.None? then None else Some([WebpRect(b, cs[0].data)] + rest.value)
  }

  /* ---- Dimensions ---- */

  function GifDimensions(b: Bytes): Option<Dimensions> {
    if !IsGif(b) || |b| < 13 then None else Some(Dimensions(U16Le(b, 6), U16Le(b, 8)))
  }

  function AllPngFrames(b: Bytes): (n: int)
    ensures 0 <= n
  {
    if !IsPng(b) then 0 else PngFrames(b, PngChunks(b, 8))
  }

  function PngDimensions(b: Bytes): Option<Dimensions> {
    if |b| < 24 || AllPngFrames(b) == 0 then None
    else if U32Be(b, 8) != 13 || !TagIhdr(b, 12) then None
    else Some(Dimensions(U32Be(b, 16), U32Be(b, 20)))
  }

  predicate StartOfFrame(marker: Byte) {
    0xc0 <= marker <= 0xcf && marker != 0xc4 && marker != 0xc8 && marker != 0xcc
  }

  predicate StandsAlone(marker: Byte) { marker == 0x01 || marker == 0xd8 || 0xd0 <= marker <= 0xd7 }

  /** The first byte that is not 0xff. */
  function SkipFill(b: Bytes, i: int): (j: int)
    requires 0 <= i <= |b|
    ensures i <= j <= |b| && (j < |b| ==> b[j] != 0xff) && (i < |b| && b[i] == 0xff ==> i < j)
    decreases |b| - i
  {
    if i < |b| && b[i] == 0xff then SkipFill(b, i + 1) else i
  }

  /** A marker and its data, which start with their own length. */
  datatype Segment = Segment(marker: Byte, at: int, length: int)

  /** The segments from here on, as far as they can be followed; markers that stand alone carry nothing. */
  function JpegSegments(b: Bytes, i: int): seq<Segment>
    requires 0 <= i <= |b|
    decreases |b| - i
  {
    if i >= |b| || b[i] != 0xff then []
    else
      var m := SkipFill(b, i);
      if m >= |b| || b[m] == 0xd9 || b[m] == 0xda then []
      else if StandsAlone(b[m]) then JpegSegments(b, m + 1)
      else if m + 3 > |b| || U16Be(b, m + 1) < 2 || U16Be(b, m + 1) > |b| - (m + 1) then []
      else [Segment(b[m], m + 1, U16Be(b, m + 1))] + JpegSegments(b, m + 1 + U16Be(b, m + 1))
  }

  predicate IsFrame(s: Segment) { StartOfFrame(s.marker) }

  /** A frame header's height and width; one too short for them has none. */
  function FrameDimensions(b: Bytes, s: Segment): Option<Dimensions> {
    if s.length < 7 || s.at < 0 || s.at + s.length > |b| then None else Some(Dimensions(U16Be(b, s.at + 5), U16Be(b, s.at + 3)))
  }

  function FirstFrame(b: Bytes, ss: seq<Segment>): Option<Dimensions> {
    if ss == [] then None
    else if IsFrame(ss[0]) then FrameDimensions(b, ss[0])
    else FirstFrame(b, ss[1..])
  }

  predicate IsJpeg(b: Bytes) { |b| >= 3 && b[0] == 0xff && b[1] == 0xd8 && b[2] == 0xff }

  function JpegDimensions(b: Bytes): Option<Dimensions> {
    if |b| < 4 || b[0] != 0xff || b[1] != 0xd8 then None else FirstFrame(b, JpegSegments(b, 2))
  }

  /** The dimensions a WebP chunk declares, if it declares any. */
  function WebpChunkDimensions(b: Bytes, c: Chunk): Option<Dimensions>
  {
    var d := c.data;
    if !Inside(b, c) then None
    else if TagVp8x(b, c.at) && c.length >= 10 then Some(Dimensions(U24Le(b, d + 4) + 1, U24Le(b, d + 7) + 1))
    else if TagVp8(b, c.at) && c.length >= 10 && b[d + 3] == 0x9d && b[d + 4] == 0x01 && b[d + 5] == 0x2a then
      Some(Dimensions(U16Le(b, d + 6) % 0x4000, U16Le(b, d + 8) % 0x4000))
    else if TagVp8l(b, c.at) && c.length >= 5 && b[d] == 0x2f then
      Some(Dimensions(1 + At(b, d + 1) + 256 * (At(b, d + 2) % 64),
                      1 + At(b, d + 2) / 64 + 4 * At(b, d + 3) + 1024 * (At(b, d + 4) % 16)))
    else None
  }

  function WebpFirstDimensions(b: Bytes, cs: seq<Chunk>): Option<Dimensions>
  {
    if cs == [] then None
    else if WebpChunkDimensions(b, cs[0]).Some? then WebpChunkDimensions(b, cs[0])
    else WebpFirstDimensions(b, cs[1..])
  }

  function WebpDimensions(b: Bytes): Option<Dimensions> {
    if |b| < 20 || !IsWebp(b) then None else WebpFirstDimensions(b, WebpChunks(b, 12))
  }

  /* ---- The verdict ---- */

  datatype Format = Gif | Png | Jpeg | Webp

  datatype Safety = Safety(width: int, height: int, frameCount: int, animated: bool, format: Format)

  function FormatOf(b: Bytes): Option<Format> {
    if IsGif(b) then Some(Gif) else if IsPng(b) then Some(Png) else if IsJpeg(b) then Some(Jpeg)
    else if IsWebp(b) then Some(Webp) else None
  }

  function DimensionsOf(b: Bytes, f: Format): Option<Dimensions> {
    match f
    case Gif => GifDimensions(b)
    case Png => PngDimensions(b)
    case Jpeg => JpegDimensions(b)
    case Webp => WebpDimensions(b)
  }

  function Max1(n: int): int { if n < 1 then 1 else n }

  function AllWebpFrames(b: Bytes): int { if !IsWebp(b) then 0 else Max1(WebpFrames(b, WebpChunks(b, 12))) }

  function FrameCount(b: Bytes): int {
    if IsGif(b) then Max1(Images(AllGifBlocks(b)))
    else if AllPngFrames(b) > 0 then AllPngFrames(b)
    else if AllWebpFrames(b) > 0 then AllWebpFrames(b) else 1
  }

  function FrameRects(b: Bytes, f: Format): Option<seq<Rect>> {
    match f
    case Gif => Some(Rects(AllGifBlocks(b)))
    case Png => Some(if IsPng(b) then PngRects(b, PngChunks(b, 8)) else [])
    case Webp => if IsWebp(b) then WebpRects(b, WebpChunks(b, 12)) else Some([])
    case Jpeg => Some([])
  }

  predicate RectOk(r: Rect, width: int, height: int) {
    && r.x >= 0 && r.y >= 0 && 0 < r.width <= MAX_IMAGE_EDGE && 0 < r.height <= MAX_IMAGE_EDGE
    && r.width * r.height <= MAX_IMAGE_PIXELS
    && r.x + r.width <= width && r.y + r.height <= height
  }

  predicate RectsOk(rs: seq<Rect>, width: int, height: int) {
    forall k :: 0 <= k < |rs| ==> RectOk(rs[k], width, height)
  }

  predicate CanvasOk(d: Dimensions) {
    && d.width > 0 && d.height > 0 && d.width <= MAX_IMAGE_EDGE && d.height <= MAX_IMAGE_EDGE
    && d.width * d.height <= MAX_IMAGE_PIXELS
  }

  /** assertSafeImageBytes. */
  function Verdict(b: Bytes): Option<Safety> {
    if |b| > MAX_IMAGE_BYTES || FormatOf(b).None? then None
    else
      var f := FormatOf(b).value;
      var d := DimensionsOf(b, f);
      if d.None? || !CanvasOk(d.value) then None
      else
        var n := FrameCount(b);
        var rs := FrameRects(b, f);
        if rs.None? || (n > 1 && rs.value == []) || (rs.value != [] && |rs.value| != n) then None
        else if !RectsOk(rs.value, d.value.width, d.value.height) then None
        else if n > MAX_IMAGE_PIXELS / (d.value.width * d.value.height) then None
        else Some(Safety(d.value.width, d.value.height, n, n > 1, f))
  }
}
