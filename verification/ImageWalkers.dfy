/**
The walking loops of lib/matrix/media.ts, each proved to compute the function
of the byte string it stands for and never to read outside it; how the paired
walkers relate; and what an accepted image is bounded by.
*/
module ImageWalkers {
  import opened Basics
  import opened ImageContainers

  lemma Regroup(a: seq<Rect>, b: seq<Rect>, c: seq<Rect>)
    ensures a + (b + c) == a + b + c && a + [] == a
  {
  }

  /* ---- GIF ---- */

  method SkipGifSubBlocks(bytes: Bytes, start: int) returns (offset: int)
    requires 0 <= start
    ensures offset == SkipSubBlocks(bytes, start)
  {
    offset := start;
    while offset < |bytes|
      invariant start <= offset && SkipSubBlocks(bytes, offset) == SkipSubBlocks(bytes, start)
    {
      var size := bytes[offset];
      offset := offset + 1;
      if size == 0 { return; }
      if offset + size > |bytes| { return |bytes|; }
      offset := offset + size;
    }
  }

  /** The walk from a marker on, with what has been counted before it. */
  function CountOn(b: Bytes, i: int, counted: int): int
    requires 0 <= i
    decreases |b| - i
  {
    if i >= |b| then counted
    else match GifBlockAt(b, i)
      case GifEnd => counted
      case Extension(next) => CountOn(b, next, counted)
      case Image(_, next) => CountOn(b, next, counted + 1)
      case Truncated(_) => counted
  }

  function CollectOn(b: Bytes, i: int, found: seq<Rect>): seq<Rect>
    requires 0 <= i
    decreases |b| - i
  {
    if i >= |b| then found
    else match GifBlockAt(b, i)
      case GifEnd => found
      case Extension(next) => CollectOn(b, next, found)
      case Image(rect, next) => CollectOn(b, next, found + [rect])
      case Truncated(rect) => found + [rect]
  }

  lemma {:induction false} WalksFold(b: Bytes, i: int, counted: int, found: seq<Rect>)
    requires 0 <= i
    ensures CountOn(b, i, counted) == counted + Images(GifBlocks(b, i))
    ensures CollectOn(b, i, found) == found + Rects(GifBlocks(b, i))
    decreases |b| - i
  {
    if i < |b| {
      var k := GifBlockAt(b, i);
      if k.Extension? || k.Image? {
        var rest := GifBlocks(b, k.next);
        assert GifBlocks(b, i) == [k] + rest && ([k] + rest)[1..] == rest;
        if k.Image? {
          WalksFold(b, k.next, counted + 1, found + [k.rect]);
          Regroup(found, [k.rect], Rects(rest));
        } else {
          WalksFold(b, k.next, counted, found);
        }
      } else {
        assert [k][1..] == [] && Rects([]) == [];
      }
    }
  }

  method GifFrameCount(bytes: Bytes) returns (frames: int)
    ensures frames == Images(AllGifBlocks(bytes))
  {
    if !IsGif(bytes) || |bytes| < 13 { return 0; }
    var offset := GifStart(bytes);
    frames := 0;
    WalksFold(bytes, offset, 0, []);
    while offset < |bytes|
      invariant 0 <= offset && CountOn(bytes, offset, frames) == Images(AllGifBlocks(bytes))
      decreases |bytes| - offset
    {
      offset := offset + 1;
      if bytes[offset - 1] == 0x3b { return; }
      if bytes[offset - 1] == 0x21 {
        offset := offset + 1;
        offset := SkipGifSubBlocks(bytes, offset);
        continue;
      }
      if bytes[offset - 1] != 0x2c || offset + 9 > |bytes| { return; }
      var imagePacked := bytes[offset + 8];
      offset := offset + 9 + PaletteBytes(imagePacked);
      if offset >= |bytes| { return; }
      offset := SkipGifSubBlocks(bytes, offset + 1);
      frames := frames + 1;
    }
  }

  method GifFrameRects(bytes: Bytes) returns (frames: seq<Rect>)
    ensures frames == Rects(AllGifBlocks(bytes))
  {
    if !IsGif(bytes) || |bytes| < 13 { return []; }
    var offset := GifStart(bytes);
    frames := [];
    WalksFold(bytes, offset, 0, frames);
    assert [] + Rects(AllGifBlocks(bytes)) == Rects(AllGifBlocks(bytes));
    while offset < |bytes|
      invariant 0 <= offset && CollectOn(bytes, offset, frames) == Rects(AllGifBlocks(bytes))
      decreases |bytes| - offset
    {
      ghost var k, found := GifBlockAt(bytes, offset), frames;
      offset := offset + 1;
      if bytes[offset - 1] == 0x3b { return; }
      if bytes[offset - 1] == 0x21 {
        if offset >= |bytes| { return; }
        offset := offset + 1;
        offset := SkipGifSubBlocks(bytes, offset);
        assert k == Extension(offset);
        continue;
      }
      if bytes[offset - 1] != 0x2c || offset + 9 > |bytes| { return; }
      frames := frames + [GifRect(bytes, offset)];
      var imagePacked := bytes[offset + 8];
      offset := offset + 9 + PaletteBytes(imagePacked);
      if offset >= |bytes| {
        assert k == Truncated(frames[|found|]);
        return;
      }
      offset := SkipGifSubBlocks(bytes, offset + 1);
      assert k == Image(frames[|found|], offset);
    }
  }

  /** The walk ends on a descriptor whose data would start beyond the last byte. */
  predicate EndsTruncated(blocks: seq<GifBlock>) {
    blocks != [] && blocks[|blocks| - 1].Truncated?
  }

  lemma {:induction false} OnlyLastIsTruncated(b: Bytes, i: int)
    requires 0 <= i
    ensures var bs := GifBlocks(b, i); |Rects(bs)| == Images(bs) + (if EndsTruncated(bs) then 1 else 0)
    decreases |b| - i
  {
    if i < |b| {
      var k := GifBlockAt(b, i);
      if k.Extension? || k.Image? {
        var rest := GifBlocks(b, k.next);
        OnlyLastIsTruncated(b, k.next);
        assert GifBlocks(b, i) == [k] + rest && ([k] + rest)[1..] == rest;
      } else {
        assert GifBlocks(b, i) == [k] && [k][1..] == [];
        assert Rects([k]) == (if k.Truncated? then [k.rect] else []) + Rects([]);
      }
    }
  }

  /** The two GIF walkers differ by at most one frame, and exactly when the walk ends on a truncated descriptor. */
  lemma GifWalkersDiffer(b: Bytes)
    ensures |Rects(AllGifBlocks(b))| == Images(AllGifBlocks(b)) + (if EndsTruncated(AllGifBlocks(b)) then 1 else 0)
  {
    if IsGif(b) && |b| >= 13 { OnlyLastIsTruncated(b, GifStart(b)); }
  }

  /* ---- PNG ---- */

  method PngFrameCount(bytes: Bytes) returns (frames: int)
    ensures frames == AllPngFrames(bytes)
  {
    if !IsPng(bytes) { return 0; }
    var offset := 8;
    while offset + 12 <= |bytes|
      invariant 8 <= offset && PngFrames(bytes, PngChunks(bytes, offset)) == AllPngFrames(bytes)
      decreases |bytes| - offset
    {
      ghost var rest := PngChunks(bytes, offset);
      var length := U32Be(bytes, offset);
      if length > |bytes| - offset - 12 { return 1; }
      assert rest[1..] == PngChunks(bytes, offset + 12 + length);
      if TagActl(bytes, offset + 4) && length >= 8 { return U32Be(bytes, offset + 8); }
      offset := offset + 12 + length;
    }
    return 1;
  }

  function PngCollectOn(b: Bytes, i: int, found: seq<Rect>): seq<Rect>
    requires 0 <= i
    decreases |b| - i
  {
    if i + 12 > |b| || U32Be(b, i) > |b| - i - 12 then found
    else PngCollectOn(b, i + 12 + U32Be(b, i), if TagFctl(b, i + 4) && U32Be(b, i) >= 26 then found + [PngRect(b, i + 8)] else found)
  }

  lemma {:induction false} PngFolds(b: Bytes, i: int, found: seq<Rect>)
    requires 0 <= i
    ensures PngCollectOn(b, i, found) == found + PngRects(b, PngChunks(b, i))
    decreases |b| - i
  {
    if i + 12 <= |b| && U32Be(b, i) <= |b| - i - 12 {
      var n := U32Be(b, i);
      var c, rest := Chunk(i, i + 8, n, i + 12 + n), PngChunks(b, i + 12 + n);
      assert PngChunks(b, i) == [c] + rest && ([c] + rest)[1..] == rest;
      var here := if IsFctl(b, c) then [PngRect(b, c.data)] else [];
      Regroup(found, here, PngRects(b, rest));
      PngFolds(b, i + 12 + n, found + here);
    }
  }

  method PngFrameRects(bytes: Bytes) returns (frames: seq<Rect>)
    ensures frames == if IsPng(bytes) then PngRects(bytes, PngChunks(bytes, 8)) else []
  {
    if !IsPng(bytes) { return []; }
    frames := [];
    var offset := 8;
    PngFolds(bytes, offset, frames);
    assert [] + PngRects(bytes, PngChunks(bytes, 8)) == PngRects(bytes, PngChunks(bytes, 8));
    while offset + 12 <= |bytes|
      invariant 8 <= offset && PngCollectOn(bytes, offset, frames) == PngRects(bytes, PngChunks(bytes, 8))
      decreases |bytes| - offset
    {
      var length := U32Be(bytes, offset);
      if length > |bytes| - offset - 12 { break; }
      if TagFctl(bytes, offset + 4) && length >= 26 {
        frames := frames + [PngRect(bytes, offset + 8)];
      }
      offset := offset + 12 + length;
    }
  }

  lemma {:induction false} PngChunkInside(b: Bytes, i: int, k: int)
    requires 0 <= i && 0 <= k < |PngChunks(b, i)|
    ensures var c := PngChunks(b, i)[k]; Inside(b, c) && i <= c.at && c.data + c.length + 4 <= |b|
    decreases |b| - i
  {
    if k > 0 {
      var next := PngChunks(b, i)[0].next;
      assert PngChunks(b, i)[1..] == PngChunks(b, next);
      PngChunkInside(b, next, k - 1);
    }
  }

  /** The chunks of one walk lie in the file one after the other, none overlapping another. */
  lemma {:induction false} PngChunksInOrder(b: Bytes, i: int, j: int, k: int)
    requires 0 <= i && 0 <= j < k < |PngChunks(b, i)|
    ensures PngChunks(b, i)[j].next <= PngChunks(b, i)[k].at
    decreases |b| - i
  {
    var cs := PngChunks(b, i);
    var rest := PngChunks(b, cs[0].next);
    assert cs[1..] == rest;
    if j > 0 {
      PngChunksInOrder(b, cs[0].next, j - 1, k - 1);
    } else {
      PngChunkInside(b, cs[0].next, k - 1);
    }
  }

  /* ---- WebP ---- */

  method WebpFrameCount(bytes: Bytes) returns (frames: int)
    ensures frames == AllWebpFrames(bytes)
  {
    if !IsWebp(bytes) { return 0; }
    frames := 0;
    var offset := 12;
    while offset + 8 <= |bytes|
      invariant 12 <= offset && frames + WebpFrames(bytes, WebpChunks(bytes, offset)) == WebpFrames(bytes, WebpChunks(bytes, 12))
      decreases |bytes| - offset
    {
      ghost var rest := WebpChunks(bytes, offset);
      var length := U32Le(bytes, offset + 4);
      if length > |bytes| - offset - 8 { break; }
      assert rest[1..] == WebpChunks(bytes, offset + 8 + length + length % 2);
      if TagAnmf(bytes, offset) { frames := frames + 1; }
      offset := offset + 8 + length + length % 2;
    }
    frames := Max1(frames);
  }

  function WebpCollectOn(b: Bytes, i: int, found: seq<Rect>): Option<seq<Rect>>
    requires 0 <= i
    decreases |b| - i
  {
    if i + 8 > |b| || U32Le(b, i + 4) > |b| - i - 8 then Some(found)
    else
      var n := U32Le(b, i + 4);
      var next := i + 8 + n + n % 2;
      if !TagAnmf(b, i) then WebpCollectOn(b, next, found)
      else if n < 16 then None
      else WebpCollectOn(b, next, found + [WebpRect(b, i + 8)])
  }

  function Prepended(a: seq<Rect>, rest: Option<seq<Rect>>): Option<seq<Rect>> {
    if rest.None? then None else Some(a + rest.value)
  }

  lemma WebpRectsOfCons(b: Bytes, c: Chunk, rest: seq<Chunk>)
    ensures WebpRects(b, [c] + rest) ==
      if !IsAnmf(b, c) then WebpRects(b, rest)
      else if c.length < 16 then None
      else Prepended([WebpRect(b, c.data)], WebpRects(b, rest))
  {
    assert ([c] + rest)[1..] == rest;
  }

  lemma PrependedTwice(a: seq<Rect>, r: Rect, rest: Option<seq<Rect>>)
    ensures Prepended(a + [r], rest) == Prepended(a, Prepended([r], rest)) && Prepended(a, Some([])) == Some(a)
  {
    Regroup(a, [], []);
    if rest.Some? { Regroup(a, [r], rest.value); }
  }

  lemma {:induction false} WebpFolds(b: Bytes, i: int, found: seq<Rect>)
    requires 0 <= i
    ensures WebpCollectOn(b, i, found) == Prepended(found, WebpRects(b, WebpChunks(b, i)))
    decreases |b| - i
  {
    if i + 8 > |b| || U32Le(b, i + 4) > |b| - i - 8 {
      PrependedTwice(found, Rect(0, 0, 0, 0), None);
    } else {
      var n := U32Le(b, i + 4);
      var next := i + 8 + n + n % 2;
      var c, rest := Chunk(i, i + 8, n, next), WebpChunks(b, next);
      assert WebpChunks(b, i) == [c] + rest;
      WebpRectsOfCons(b, c, rest);
      if !TagAnmf(b, i) {
        WebpFolds(b, next, found);
      } else if n >= 16 {
        WebpFolds(b, next, found + [WebpRect(b, i + 8)]);
        PrependedTwice(found, WebpRect(b, i + 8), WebpRects(b, rest));
      }
    }
  }

  /** None: the walker threw. */
  method WebpFrameRects(bytes: Bytes) returns (result: Option<seq<Rect>>)
    ensures result == if IsWebp(bytes) then WebpRects(bytes, WebpChunks(bytes, 12)) else Some([])
  {
    if !IsWebp(bytes) { return Some([]); }
    var frames := [];
    var offset := 12;
    WebpFolds(bytes, offset, frames);
    PrependNone(WebpRects(bytes, WebpChunks(bytes, 12)));
    while offset + 8 <= |bytes|
      invariant 12 <= offset && WebpCollectOn(bytes, offset, frames) == WebpRects(bytes, WebpChunks(bytes, 12))
      decreases |bytes| - offset
    {
      var length := U32Le(bytes, offset + 4);
      if length > |bytes| - offset - 8 { break; }
      if TagAnmf(bytes, offset) && length < 16 { return None; }
      if TagAnmf(bytes, offset) && length >= 16 {
        frames := frames + [WebpRect(bytes, offset + 8)];
      }
      offset := offset + 8 + length + length % 2;
    }
    return Some(frames);
  }

  lemma PrependNone(rest: Option<seq<Rect>>)
    ensures Prepended([], rest) == rest
  {
    if rest.Some? { assert [] + rest.value == rest.value; }
  }

  /** The two WebP walkers agree: unless a frame is malformed, one rectangle for every frame counted. */
  lemma {:induction false} WebpWalkersAgree(b: Bytes, cs: seq<Chunk>)
    ensures WebpRects(b, cs).Some? ==> |WebpRects(b, cs).value| == WebpFrames(b, cs)
    ensures WebpRects(b, cs).None? <==> exists k :: 0 <= k < |cs| && IsAnmf(b, cs[k]) && cs[k].length < 16
  {
    if cs != [] {
      WebpWalkersAgree(b, cs[1..]);
      assert cs[0] == cs[0] && forall k :: 0 <= k < |cs[1..]| ==> cs[1..][k] == cs[k + 1];
      if WebpRects(b, cs).None? && !(IsAnmf(b, cs[0]) && cs[0].length < 16) {
        var k :| 0 <= k < |cs[1..]| && IsAnmf(b, cs[1..][k]) && cs[1..][k].length < 16;
        assert cs[k + 1] == cs[1..][k];
      }
    }
  }

  method WebpDimensionsWalk(bytes: Bytes) returns (found: Option<Dimensions>)
    ensures found == WebpDimensions(bytes)
  {
    if |bytes| < 20 || !IsWebp(bytes) { return None; }
    var offset := 12;
    while offset + 8 <= |bytes|
      invariant 12 <= offset && WebpFirstDimensions(bytes, WebpChunks(bytes, offset)) == WebpDimensions(bytes)
      decreases |bytes| - offset
    {
      var length := U32Le(bytes, offset + 4);
      if length > |bytes| - offset - 8 { return None; }
      var next := offset + 8 + length + length % 2;
      DimensionsStep(bytes, offset);
      var data := offset + 8;
      if TagVp8x(bytes, offset) && length >= 10 {
        return Some(Dimensions(U24Le(bytes, data + 4) + 1, U24Le(bytes, data + 7) + 1));
      }
      if TagVp8(bytes, offset) && length >= 10 && bytes[data + 3] == 0x9d && bytes[data + 4] == 0x01 && bytes[data + 5] == 0x2a {
        return Some(Dimensions(U16Le(bytes, data + 6) % 0x4000, U16Le(bytes, data + 8) % 0x4000));
      }
      if TagVp8l(bytes, offset) && length >= 5 && bytes[data] == 0x2f {
        return Some(Dimensions(1 + At(bytes, data + 1) + 256 * (At(bytes, data + 2) % 64),
                               1 + At(bytes, data + 2) / 64 + 4 * At(bytes, data + 3) + 1024 * (At(bytes, data + 4) % 16)));
      }
      offset := next;
    }
    return None;
  }

  lemma DimensionsStep(b: Bytes, i: int)
    requires 0 <= i && i + 8 <= |b| && U32Le(b, i + 4) <= |b| - i - 8
    ensures var n := U32Le(b, i + 4);
      var next := i + 8 + n + n % 2;
      var c := Chunk(i, i + 8, n, next);
      WebpFirstDimensions(b, WebpChunks(b, i)) ==
         if WebpChunkDimensions(b, c).Some? then WebpChunkDimensions(b, c) else WebpFirstDimensions(b, WebpChunks(b, next))
  {
    var n := U32Le(b, i + 4);
    var next := i + 8 + n + n % 2;
    var rest := WebpChunks(b, next);
    assert ([Chunk(i, i + 8, n, next)] + rest)[1..] == rest;
  }

  /* ---- JPEG ---- */

  /** The first of several segments decides, or the others do. */
  lemma FirstFrameStep(b: Bytes, i: int, m: int)
    requires 0 <= i < |b| && b[i] == 0xff && m == SkipFill(b, i) && m + 3 <= |b| && b[m] != 0xd9 && b[m] != 0xda && !StandsAlone(b[m])
    requires 2 <= U16Be(b, m + 1) <= |b| - (m + 1)
    ensures var s := Segment(b[m], m + 1, U16Be(b, m + 1));
      FirstFrame(b, JpegSegments(b, i)) == if IsFrame(s) then FrameDimensions(b, s) else FirstFrame(b, JpegSegments(b, s.at + s.length))
  {
    var s := Segment(b[m], m + 1, U16Be(b, m + 1));
    var rest := JpegSegments(b, s.at + s.length);
    assert JpegSegments(b, i) == [s] + rest && ([s] + rest)[1..] == rest;
  }

  /** Each segment lies in the file behind its marker, and they follow one another. */
  lemma {:induction false} JpegSegmentsInOrder(b: Bytes, i: int, k: int)
    requires 0 <= i <= |b| && 0 <= k < |JpegSegments(b, i)|
    ensures var ss := JpegSegments(b, i);
      && i + 2 <= ss[k].at && 2 <= ss[k].length && ss[k].at + ss[k].length <= |b|
      && b[ss[k].at - 1] == ss[k].marker && ss[k].length == U16Be(b, ss[k].at)
      && (k > 0 ==> ss[k - 1].at + ss[k - 1].length + 2 <= ss[k].at)
    decreases |b| - i
  {
    var m := SkipFill(b, i);
    if StandsAlone(b[m]) {
      JpegSegmentsInOrder(b, m + 1, k);
    } else if k > 0 {
      var next := m + 1 + U16Be(b, m + 1);
      assert JpegSegments(b, i)[1..] == JpegSegments(b, next);
      JpegSegmentsInOrder(b, next, k - 1);
    }
  }

  ghost predicate FirstAt(ss: seq<Segment>, k: int) {
    0 <= k < |ss| && IsFrame(ss[k]) && forall j :: 0 <= j < k ==> !IsFrame(ss[j])
  }

  lemma {:induction false} FirstFrameIs(b: Bytes, ss: seq<Segment>, k: int)
    ensures FirstAt(ss, k) ==> FirstFrame(b, ss) == FrameDimensions(b, ss[k])
    ensures (forall j :: 0 <= j < |ss| ==> !IsFrame(ss[j])) ==> FirstFrame(b, ss).None?
    decreases |ss|
  {
    if ss != [] && !IsFrame(ss[0]) { FirstFrameIs(b, ss[1..], k - 1); }
  }

  /** The dimensions are those of the first start-of-frame segment, and without one there are none. */
  lemma FirstFrameDecides(b: Bytes, k: int)
    requires |b| >= 4 && b[0] == 0xff && b[1] == 0xd8
    ensures var ss := JpegSegments(b, 2);
      && (FirstAt(ss, k) ==>
            4 <= ss[k].at && ss[k].at + ss[k].length <= |b|
            && JpegDimensions(b) == if ss[k].length < 7 then None else Some(Dimensions(U16Be(b, ss[k].at + 5), U16Be(b, ss[k].at + 3))))
      && ((forall j :: 0 <= j < |ss| ==> !IsFrame(ss[j])) ==> JpegDimensions(b).None?)
  {
    FirstFrameIs(b, JpegSegments(b, 2), k);
    if 0 <= k < |JpegSegments(b, 2)| { JpegSegmentsInOrder(b, 2, k); }
  }

  method JpegDimensionsWalk(bytes: Bytes) returns (found: Option<Dimensions>)
    ensures found == JpegDimensions(bytes)
  {
    if |bytes| < 4 || bytes[0] != 0xff || bytes[1] != 0xd8 { return None; }
    var offset := 2;
    while offset < |bytes|
      invariant 2 <= offset <= |bytes| && FirstFrame(bytes, JpegSegments(bytes, offset)) == JpegDimensions(bytes)
      decreases |bytes| - offset
    {
      if bytes[offset] != 0xff { return None; }
      ghost var from := offset;
      while offset < |bytes| && bytes[offset] == 0xff
        invariant from <= offset <= |bytes| && SkipFill(bytes, offset) == SkipFill(bytes, from)
      {
        offset := offset + 1;
      }
      if offset >= |bytes| { return None; }
      var marker := bytes[offset];
      offset := offset + 1;
      if marker == 0xd9 || marker == 0xda { return None; }
      if StandsAlone(marker) { continue; }
      if offset + 2 > |bytes| { return None; }
      var segmentLength := U16Be(bytes, offset);
      if segmentLength < 2 || segmentLength > |bytes| - offset { return None; }
      FirstFrameStep(bytes, from, offset - 1);
      if StartOfFrame(marker) {
        if segmentLength < 7 { return None; }
        return Some(Dimensions(U16Be(bytes, offset + 5), U16Be(bytes, offset + 3)));
      }
      offset := offset + segmentLength;
    }
    return None;
  }

  /* ---- The verdict ---- */

  method ValidateFrameRects(frames: seq<Rect>, width: int, height: int) returns (ok: bool)
    ensures ok <==> RectsOk(frames, width, height)
  {
    var k := 0;
    while k < |frames|
      invariant 0 <= k <= |frames|
      invariant forall j :: 0 <= j < k ==> RectOk(frames[j], width, height)
    {
      var frame := frames[k];
      if frame.x < 0 || frame.y < 0 || frame.width <= 0 || frame.height <= 0
         || frame.width > MAX_IMAGE_EDGE || frame.height > MAX_IMAGE_EDGE || frame.width * frame.height > MAX_IMAGE_PIXELS
         || frame.x + frame.width > width || frame.y + frame.height > height {
        return false;
      }
      k := k + 1;
    }
    return true;
  }

  method FrameCountWalk(bytes: Bytes) returns (frames: int)
    ensures frames == FrameCount(bytes)
  {
    if IsGif(bytes) {
      frames := GifFrameCount(bytes);
      return Max1(frames);
    }
    frames := PngFrameCount(bytes);
    if frames > 0 { return; }
    frames := WebpFrameCount(bytes);
    if frames <= 0 { frames := 1; }
  }

  /** None: rejected. */
  method AssertSafeImageBytes(bytes: Bytes) returns (safety: Option<Safety>)
    ensures safety == Verdict(bytes)
  {
    if |bytes| > MAX_IMAGE_BYTES || FormatOf(bytes).None? { return None; }
    var format := FormatOf(bytes).value;
    var dimensions: Option<Dimensions>;
    match format {
      case Gif => dimensions := GifDimensions(bytes);
      case Png => dimensions := PngDimensions(bytes);
      case Jpeg => dimensions := JpegDimensionsWalk(bytes);
      case Webp => dimensions := WebpDimensionsWalk(bytes);
    }
    if dimensions.None? || !CanvasOk(dimensions.value) { return None; }
    var width, height := dimensions.value.width, dimensions.value.height;
    var frameCount := FrameCountWalk(bytes);
    var rects: Option<seq<Rect>> := Some([]);
    match format {
      case Gif => var frames := GifFrameRects(bytes); rects := Some(frames);
      case Png => var frames := PngFrameRects(bytes); rects := Some(frames);
      case Webp => rects := WebpFrameRects(bytes);
      case Jpeg =>
    }
    if rects.None? || (frameCount > 1 && rects.value == []) || (rects.value != [] && |rects.value| != frameCount) { return None; }
    var ok := ValidateFrameRects(rects.value, width, height);
    if !ok || frameCount > MAX_IMAGE_PIXELS / (width * height) { return None; }
    return Some(Safety(width, height, frameCount, frameCount > 1, format));
  }

  function Area(rs: seq<Rect>): int {
    if rs == [] then 0 else rs[0].width * rs[0].height + Area(rs[1..])
  }

  lemma RectWithin(r: Rect, width: int, height: int)
    requires RectOk(r, width, height)
    ensures 0 < r.width * r.height <= width * height
  {
    assert r.width * r.height <= width * r.height;
    assert width * r.height <= width * height;
  }

  lemma {:induction false} AreaWithin(rs: seq<Rect>, width: int, height: int)
    requires RectsOk(rs, width, height)
    ensures 0 <= Area(rs) <= |rs| * (width * height)
  {
    if rs != [] {
      RectWithin(rs[0], width, height);
      AreaWithin(rs[1..], width, height);
      assert |rs| * (width * height) == width * height + (|rs| - 1) * (width * height);
    }
  }

  lemma DividesInto(n: int, pixels: int, limit: int)
    requires pixels > 0 && limit >= 0
    ensures n <= limit / pixels <==> n * pixels <= limit
  {
    assert limit == (limit / pixels) * pixels + limit % pixels;
    if n <= limit / pixels {
      assert n * pixels <= (limit / pixels) * pixels;
    } else {
      assert n * pixels >= (limit / pixels + 1) * pixels;
      assert (limit / pixels + 1) * pixels == (limit / pixels) * pixels + pixels;
    }
  }

  /**
  Whatever is accepted is bounded to decode: a canvas within the limits, every frame inside it, one rectangle per
  frame of an animation, and neither the frames as declared nor their rectangles exceed the pixel limit in sum.
  */
  lemma AcceptedImagesAreBounded(b: Bytes)
    requires Verdict(b).Some?
    ensures var s := Verdict(b).value;
      && 0 < s.width <= MAX_IMAGE_EDGE && 0 < s.height <= MAX_IMAGE_EDGE && s.frameCount >= 1
      && s.frameCount * (s.width * s.height) <= MAX_IMAGE_PIXELS
      && FrameRects(b, s.format).Some?
      && var rs := FrameRects(b, s.format).value;
         && RectsOk(rs, s.width, s.height)
         && (s.animated ==> |rs| == s.frameCount)
         && Area(rs) <= s.frameCount * (s.width * s.height)
         && Area(rs) <= MAX_IMAGE_PIXELS
  {
    var s := Verdict(b).value;
    var rs := FrameRects(b, s.format).value;
    var pixels := s.width * s.height;
    assert pixels > 0;
    AreaWithin(rs, s.width, s.height);
    DividesInto(s.frameCount, pixels, MAX_IMAGE_PIXELS);
    if rs == [] {
      assert Area(rs) == 0 <= s.frameCount * pixels;
    }
  }

  /** Whether the rectangles found agree with the frames counted, which is asked of every format. */
  predicate CountsAgree(b: Bytes, f: Format) {
    match f
    case Gif => EndsTruncated(AllGifBlocks(b)) ==> Images(AllGifBlocks(b)) == 0
    case Png => var n := |PngRects(b, PngChunks(b, 8))|; if n == 0 then AllPngFrames(b) <= 1 else AllPngFrames(b) == n
    case _ => true
  }

  lemma CountsAgreeExactlyThen(b: Bytes, f: Format)
    requires FormatOf(b) == Some(f) && FrameRects(b, f).Some? && (f.Png? ==> AllPngFrames(b) > 0)
    ensures var n, rs := FrameCount(b), FrameRects(b, f).value;
      (n > 1 && rs == []) || (rs != [] && |rs| != n) <==> !CountsAgree(b, f)
  {
    match f
    case Gif => GifWalkersDiffer(b);
    case Webp => WebpWalkersAgree(b, WebpChunks(b, 12));
    case _ =>
  }

  /**
  Exactly what is accepted: the guarding division cuts off at the pixel limit, and the comparison of the two walkers
  rejects only a GIF cut off in a descriptor after other frames, or a PNG whose header counts other frames than it has.
  */
  lemma VerdictIsExact(b: Bytes)
    ensures Verdict(b).Some? <==>
      && |b| <= MAX_IMAGE_BYTES
      && FormatOf(b).Some?
      && var f := FormatOf(b).value;
         && DimensionsOf(b, f).Some? && CanvasOk(DimensionsOf(b, f).value)
         && FrameRects(b, f).Some?
         && CountsAgree(b, f)
         && var d := DimensionsOf(b, f).value;
            && RectsOk(FrameRects(b, f).value, d.width, d.height)
            && FrameCount(b) * (d.width * d.height) <= MAX_IMAGE_PIXELS
  {
    if FormatOf(b).Some? && DimensionsOf(b, FormatOf(b).value).Some? && CanvasOk(DimensionsOf(b, FormatOf(b).value).value) {
      var f := FormatOf(b).value;
      var d := DimensionsOf(b, f).value;
      assert d.width * d.height > 0;
      DividesInto(FrameCount(b), d.width * d.height, MAX_IMAGE_PIXELS);
      if FrameRects(b, f).Some? { CountsAgreeExactlyThen(b, f); }
    }
  }

  /** So a GIF whose walk ends on a truncated descriptor is accepted only if that was its one and only frame. */
  lemma TruncatedGifIsAStillImage(b: Bytes)
    requires Verdict(b).Some? && IsGif(b) && EndsTruncated(AllGifBlocks(b))
    ensures Verdict(b).value.frameCount == 1 && Images(AllGifBlocks(b)) == 0
  {
    GifWalkersDiffer(b);
  }
}
