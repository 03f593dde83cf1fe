/** The JPEG header scan: the dimensions of the first frame header, found without decoding. */
module Jpeg {
  import opened Bytes
  import opened Common

  datatype Size = Size(width: int, height: int)

  /** SOF0 to SOF15 without DHT, JPG and DAC (table B.1 of ITU-T T.81). */
  predicate IsFrame(marker: Byte) {
    0xC0 <= marker < 0xD0 && marker != 0xC4 && marker != 0xC8 && marker != 0xCC
  }

  /** Markers no length field follows. */
  predicate IsStandalone(marker: Byte) { marker == 0xD8 || marker == 0x01 || 0xD0 <= marker <= 0xD7 }

  /** What the scan returns from position `i` on. */
  function Scan(data: seq<Byte>, i: nat): Option<Size>
    decreases |data| - i
  {
    if i + 3 >= |data| then None
    else if data[i] != 0xFF || data[i + 1] == 0xFF then Scan(data, i + 1)
    else if IsFrame(data[i + 1]) then
      if i + 9 > |data| then None else Some(Size(Unpack(data, i + 7), Unpack(data, i + 5)))
    else if data[i + 1] == 0xD9 then None
    else if IsStandalone(data[i + 1]) then Scan(data, i + 2)
    else if Unpack(data, i + 2) < 2 then None
    else Scan(data, i + 2 + Unpack(data, i + 2))
  }

  predicate StartsImage(data: seq<Byte>) { |data| >= 2 && data[0] == 0xFF && data[1] == 0xD8 }

  method JpegDimensions(data: seq<Byte>) returns (r: Option<Size>)
    ensures r == if StartsImage(data) then Scan(data, 2) else None
  {
    if |data| < 2 || data[0] != 0xFF || data[1] != 0xD8 {
      return None;
    }
    var i: nat, end := 2, |data|;
    while i + 3 < end
      invariant Scan(data, 2) == Scan(data, i)
      decreases end - i
    {
      if data[i] != 0xFF {
        i := i + 1;
        continue;
      }
      var marker := data[i + 1];
      if marker == 0xFF {
        i := i + 1;
        continue;
      }
      if 0xC0 <= marker < 0xD0 && marker !in {0xC4, 0xC8, 0xCC} {
        if i + 9 > end {
          return None;
        }
        var height, width := Unpack(data, i + 5), Unpack(data, i + 7);
        return Some(Size(width, height));
      }
      if marker == 0xD9 {
        return None;
      }
      if marker in {0xD8, 0x01} || 0xD0 <= marker <= 0xD7 {
        i := i + 2;
        continue;
      }
      var segment := Unpack(data, i + 2);
      if segment < 2 {
        return None;
      }
      i := i + 2 + segment;
    }
    r := None;
  }

  // ---- What an image starts with -------------------------------------------------------------

  /** A marker segment before the frame header, after `fill` bytes of padding (sections
      B.1.1.2 and B.1.1.4 of ITU-T T.81), or a stray byte that starts no marker. */
  datatype Segment =
    | Standalone(fill: nat, marker: Byte)
    | Sized(fill: nat, marker: Byte, payload: seq<Byte>)
    | Stray(byte: Byte)

  /** SOF0 to SOF3, SOF5 to SOF7, SOF9 to SOF11 and SOF13 to SOF15 (table B.1 of ITU-T T.81). */
  predicate StartsFrame(marker: Byte) {
    0xC0 <= marker <= 0xC3 || 0xC5 <= marker <= 0xC7 || 0xC9 <= marker <= 0xCB || 0xCD <= marker <= 0xCF
  }

  /** TEM, RST0 to RST7 and SOI: no length follows. */
  predicate StandsAlone(marker: Byte) {
    marker == 0x01 || 0xD0 <= marker <= 0xD8
  }

  lemma {:induction false} MarkersExactly(marker: Byte)
    ensures IsFrame(marker) <==> StartsFrame(marker)
    ensures IsStandalone(marker) <==> StandsAlone(marker)
  {
  }

  predicate WellFormed(s: Segment) {
    match s
    case Standalone(_, marker) => StandsAlone(marker)
    case Sized(_, marker, payload) => HasLength(marker) && |payload| < 65534
    case Stray(byte) => byte != 0xFF
  }

  /** A marker followed by the length of its segment: neither padding nor the end of the image. */
  predicate HasLength(marker: Byte) {
    marker != 0xFF && marker != 0xD9 && !StartsFrame(marker) && !StandsAlone(marker)
  }

  function Fill(n: nat): (r: seq<Byte>)
    ensures |r| == n
  {
    seq(n, _ => 0xFF)
  }

  /** The marker, and a length that counts its own two bytes. */
  function SizedHead(marker: Byte, size: nat): (r: seq<Byte>)
    requires size < 65534
    ensures |r| == 4
  {
    [0xFF, marker, (size + 2) / 256, (size + 2) % 256]
  }

  function SegmentBytes(s: Segment): seq<Byte>
    requires WellFormed(s)
  {
    match s
    case Standalone(fill, marker) => Fill(fill) + [0xFF, marker]
    case Sized(fill, marker, payload) =>
      Fill(fill) + (SizedHead(marker, |payload|) + payload)
    case Stray(byte) => [byte]
  }

  predicate AllWellFormed(ss: seq<Segment>) { forall k :: 0 <= k < |ss| ==> WellFormed(ss[k]) }

  /** The bytes of the segments from the `k`-th on. */
  function BytesFrom(ss: seq<Segment>, k: nat): seq<Byte>
    requires k <= |ss| && AllWellFormed(ss)
    decreases |ss| - k
  {
    if k == |ss| then [] else SegmentBytes(ss[k]) + BytesFrom(ss, k + 1)
  }

  function SegmentsBytes(ss: seq<Segment>): seq<Byte>
    requires AllWellFormed(ss)
  {
    BytesFrom(ss, 0)
  }

  /** Length, precision, number of lines, samples per line (section B.2.2 of ITU-T T.81). */
  function FrameBytes(marker: Byte, length: nat, precision: Byte, size: Size): seq<Byte>
    requires length < 65536 && 0 <= size.width < 65536 && 0 <= size.height < 65536
  {
    [0xFF, marker, length / 256, length % 256, precision,
     size.height / 256, size.height % 256, size.width / 256, size.width % 256]
  }

  // ---- The scan over it ---------------------------------------------------------------------------

  /** `part` lies at `i`, and the scan has not run out of bytes behind it. */
  predicate Ahead(data: seq<Byte>, i: nat, part: seq<Byte>) { At(data, i, part) && i + |part| + 4 <= |data| }

  /** Padding is stepped over up to the marker it belongs to. */
  lemma {:induction false} SkipsFill(data: seq<Byte>, i: nat, fill: nat, at: nat)
    requires Ahead(data, i, Fill(fill)) && at == i + fill && data[at] == 0xFF
    ensures Scan(data, i) == Scan(data, at)
    decreases fill
  {
    if fill != 0 {
      assert data[i] == data[i..i + fill][0];
      assert fill > 1 ==> data[i + 1] == data[i..i + fill][1];
      assert data[i + 1..i + 1 + (fill - 1)] == data[i..i + fill][1..];
      assert Fill(fill)[1..] == Fill(fill - 1);
      SkipsFill(data, i + 1, fill - 1, at);
    }
  }

  lemma {:induction false} SkipsPayload(data: seq<Byte>, i: nat, marker: Byte, payload: seq<Byte>, head: seq<Byte>, next: nat)
    requires HasLength(marker) && |payload| < 65534 && head == SizedHead(marker, |payload|)
    requires Ahead(data, i, head + payload) && next == i + 4 + |payload|
    ensures data[i] == 0xFF && Scan(data, i) == Scan(data, next)
  {
    AtSplit(data, i, head, payload);
    MarkersExactly(marker);
    var part := data[i..i + 4];
    assert part[0] == data[i] && part[1] == data[i + 1] && part[2] == data[i + 2] && part[3] == data[i + 3];
    assert i + 2 + Unpack(data, i + 2) == next;
  }

  lemma {:induction false} SkipsSized(data: seq<Byte>, i: nat, fill: nat, marker: Byte, payload: seq<Byte>, head: seq<Byte>, next: nat)
    requires HasLength(marker) && |payload| < 65534 && head == SizedHead(marker, |payload|)
    requires Ahead(data, i, Fill(fill) + (head + payload)) && next == i + fill + 4 + |payload|
    ensures Scan(data, i) == Scan(data, next)
  {
    var at := i + fill;
    AtSplit(data, i, Fill(fill), head + payload);
    SkipsPayload(data, at, marker, payload, head, next);
    SkipsFill(data, i, fill, at);
  }

  lemma {:induction false} SkipsStandalone(data: seq<Byte>, i: nat, fill: nat, marker: Byte, next: nat)
    requires StandsAlone(marker) && Ahead(data, i, Fill(fill) + [0xFF, marker]) && next == i + fill + 2
    ensures Scan(data, i) == Scan(data, next)
  {
    var at := i + fill;
    AtSplit(data, i, Fill(fill), [0xFF, marker]);
    StandsAt(data, at, marker, next);
    SkipsFill(data, i, fill, at);
  }

  lemma {:induction false} StandsAt(data: seq<Byte>, i: nat, marker: Byte, next: nat)
    requires StandsAlone(marker) && Ahead(data, i, [0xFF, marker]) && next == i + 2
    ensures data[i] == 0xFF && Scan(data, i) == Scan(data, next)
  {
    MarkersExactly(marker);
    var part := data[i..i + 2];
    assert part[0] == data[i] && part[1] == data[i + 1];
  }

  lemma {:induction false} SkipsStray(data: seq<Byte>, i: nat, byte: Byte, next: nat)
    requires byte != 0xFF && Ahead(data, i, [byte]) && next == i + 1
    ensures Scan(data, i) == Scan(data, next)
  {
    assert data[i..i + 1][0] == byte;
  }

  lemma {:induction false} SkipsSizedSegment(data: seq<Byte>, i: nat, s: Segment, part: seq<Byte>, next: nat)
    requires s.Sized? && WellFormed(s) && part == SegmentBytes(s) && Ahead(data, i, part) && next == i + |part|
    ensures Scan(data, i) == Scan(data, next)
  {
    var head := SizedHead(s.marker, |s.payload|);
    assert part == Fill(s.fill) + (head + s.payload);
    SkipsSized(data, i, s.fill, s.marker, s.payload, head, next);
  }

  lemma {:induction false} SkipsStandaloneSegment(data: seq<Byte>, i: nat, s: Segment, part: seq<Byte>, next: nat)
    requires s.Standalone? && WellFormed(s) && part == SegmentBytes(s) && Ahead(data, i, part) && next == i + |part|
    ensures Scan(data, i) == Scan(data, next)
  {
    assert part == Fill(s.fill) + [0xFF, s.marker];
    SkipsStandalone(data, i, s.fill, s.marker, next);
  }

  lemma {:induction false} SkipsSegment(data: seq<Byte>, i: nat, s: Segment, part: seq<Byte>, next: nat)
    requires WellFormed(s) && part == SegmentBytes(s) && Ahead(data, i, part) && next == i + |part|
    ensures Scan(data, i) == Scan(data, next)
  {
    if s.Sized? {
      SkipsSizedSegment(data, i, s, part, next);
    } else if s.Standalone? {
      SkipsStandaloneSegment(data, i, s, part, next);
    } else {
      SkipsStray(data, i, s.byte, next);
    }
  }

  lemma {:induction false} AheadSplit(data: seq<Byte>, i: nat, a: seq<Byte>, b: seq<Byte>)
    requires Ahead(data, i, a + b)
    ensures Ahead(data, i, a) && Ahead(data, i + |a|, b)
  {
    AtSplit(data, i, a, b);
  }

  lemma {:induction false} SkipsOneMore(data: seq<Byte>, i: nat, s: Segment, first: seq<Byte>, rest: seq<Byte>, next: nat)
    requires WellFormed(s) && first == SegmentBytes(s) && Ahead(data, i, first + rest) && next == i + |first|
    ensures Scan(data, i) == Scan(data, next) && Ahead(data, next, rest)
  {
    AheadSplit(data, i, first, rest);
    SkipsSegment(data, i, s, first, next);
  }

  lemma {:induction false} BytesMore(ss: seq<Segment>, k: nat, part: seq<Byte>, first: seq<Byte>, rest: seq<Byte>)
    requires k < |ss| && AllWellFormed(ss)
    requires part == BytesFrom(ss, k) && first == SegmentBytes(ss[k]) && rest == BytesFrom(ss, k + 1)
    ensures part == first + rest && |part| == |first| + |rest|
  {
  }

  lemma {:induction false} SkipsFrom(data: seq<Byte>, i: nat, ss: seq<Segment>, k: nat, part: seq<Byte>, end: nat)
    requires k <= |ss| && AllWellFormed(ss) && part == BytesFrom(ss, k) && Ahead(data, i, part) && end == i + |part|
    ensures Scan(data, i) == Scan(data, end)
    decreases |ss| - k
  {
    if k < |ss| {
      var first, rest := SegmentBytes(ss[k]), BytesFrom(ss, k + 1);
      var next := i + |first|;
      BytesMore(ss, k, part, first, rest);
      SkipsOneMore(data, i, ss[k], first, rest, next);
      SkipsFrom(data, next, ss, k + 1, rest, end);
    } else {
      assert end == i;
    }
  }

  lemma {:induction false} ReadsFrame(data: seq<Byte>, i: nat, marker: Byte, length: nat, precision: Byte, size: Size,
                                      rest: seq<Byte>)
    requires StartsFrame(marker) && length < 65536 && 0 <= size.width < 65536 && 0 <= size.height < 65536
    requires At(data, i, FrameBytes(marker, length, precision, size) + rest)
    ensures Scan(data, i) == Some(size)
  {
    var frame := FrameBytes(marker, length, precision, size);
    AtSplit(data, i, frame, rest);
    MarkersExactly(marker);
    var part := data[i..i + 9];
    assert part == frame;
    assert data[i + 5] == part[5] && data[i + 6] == part[6] && data[i + 7] == part[7] && data[i + 8] == part[8];
    assert data[i] == part[0] && data[i + 1] == part[1];
  }

  /** The start of an image: its first marker, segments, padding, and what follows. */
  function ImageBytes(ss: seq<Segment>, fill: nat, tail: seq<Byte>): seq<Byte>
    requires AllWellFormed(ss)
  {
    [0xFF, 0xD8] + (SegmentsBytes(ss) + (Fill(fill) + tail))
  }

  /** Segments and padding are stepped over, up to the next marker. */
  lemma {:induction false} ReachesMarker(data: seq<Byte>, ss: seq<Segment>, fill: nat, tail: seq<Byte>) returns (at: nat)
    requires AllWellFormed(ss) && data == ImageBytes(ss, fill, tail) && |tail| >= 4 && tail[0] == 0xFF
    ensures StartsImage(data) && At(data, at, tail) && Scan(data, 2) == Scan(data, at)
    ensures at == 2 + |SegmentsBytes(ss)| + fill
  {
    var segments := SegmentsBytes(ss);
    at := 2 + |segments| + fill;
    PartsAt(data, segments, Fill(fill), tail);
    SkipsUpTo(data, ss, segments, fill, 2 + |segments|, at);
  }

  lemma {:induction false} SkipsUpTo(data: seq<Byte>, ss: seq<Segment>, segments: seq<Byte>, fill: nat, i: nat, at: nat)
    requires AllWellFormed(ss) && segments == BytesFrom(ss, 0) && Ahead(data, 2, segments)
    requires i == 2 + |segments| && at == i + fill && Ahead(data, i, Fill(fill)) && data[at] == 0xFF
    ensures Scan(data, 2) == Scan(data, at)
  {
    SkipsFrom(data, 2, ss, 0, segments, i);
    SkipsFill(data, i, fill, at);
  }

  lemma {:induction false} PartsAt(data: seq<Byte>, segments: seq<Byte>, fill: seq<Byte>, tail: seq<Byte>)
    requires data == [0xFF, 0xD8] + (segments + (fill + tail)) && tail != []
    ensures StartsImage(data) && At(data, 2, segments) && At(data, 2 + |segments|, fill)
    ensures At(data, 2 + |segments| + |fill|, tail) && data[2 + |segments| + |fill|] == tail[0]
    ensures |data| == 2 + |segments| + |fill| + |tail|
  {
    assert At(data, 0, data);
    AtSplit(data, 0, [0xFF, 0xD8], segments + (fill + tail));
    AtSplit(data, 2, segments, fill + tail);
    AtSplit(data, 2 + |segments|, fill, tail);
  }

  /** After any number of well-formed segments, each with any padding, the frame header
      decides: its own dimensions, whatever the payloads before it contain. */
  lemma {:induction false} FindsFrame(ss: seq<Segment>, fill: nat, marker: Byte, length: nat, precision: Byte, size: Size,
                                      tail: seq<Byte>, rest: seq<Byte>)
    requires AllWellFormed(ss) && StartsFrame(marker)
    requires length < 65536 && 0 <= size.width < 65536 && 0 <= size.height < 65536
    requires tail == FrameBytes(marker, length, precision, size) + rest
    ensures StartsImage(ImageBytes(ss, fill, tail)) && Scan(ImageBytes(ss, fill, tail), 2) == Some(size)
  {
    FrameLeads(marker, length, precision, size, rest);
    var i := ReachesMarker(ImageBytes(ss, fill, tail), ss, fill, tail);
    FrameBehind(ImageBytes(ss, fill, tail), i, marker, length, precision, size, tail, rest);
  }

  lemma {:induction false} FrameBehind(data: seq<Byte>, i: nat, marker: Byte, length: nat, precision: Byte, size: Size,
                                       tail: seq<Byte>, rest: seq<Byte>)
    requires StartsFrame(marker) && length < 65536 && 0 <= size.width < 65536 && 0 <= size.height < 65536
    requires tail == FrameBytes(marker, length, precision, size) + rest
    requires At(data, i, tail) && Scan(data, 2) == Scan(data, i)
    ensures Scan(data, 2) == Some(size)
  {
    ReadsFrame(data, i, marker, length, precision, size, rest);
  }

  lemma {:induction false} FrameLeads(marker: Byte, length: nat, precision: Byte, size: Size, rest: seq<Byte>)
    requires length < 65536 && 0 <= size.width < 65536 && 0 <= size.height < 65536
    ensures var tail := FrameBytes(marker, length, precision, size) + rest; |tail| >= 9 && tail[0] == 0xFF
  {
  }

  lemma {:induction false} StopsAtEnd(data: seq<Byte>, i: nat, rest: seq<Byte>)
    requires At(data, i, [0xFF, 0xD9] + rest)
    ensures Scan(data, i) == None
  {
    AtSplit(data, i, [0xFF, 0xD9], rest);
    var part := data[i..i + 2];
    assert part[0] == data[i] && part[1] == data[i + 1];
  }

  /** An image that ends before any frame header has no dimensions. */
  lemma {:induction false} EndsBeforeFrame(ss: seq<Segment>, fill: nat, rest: seq<Byte>)
    requires AllWellFormed(ss) && |rest| >= 2
    ensures Scan(ImageBytes(ss, fill, [0xFF, 0xD9] + rest), 2) == None
  {
    var data := ImageBytes(ss, fill, [0xFF, 0xD9] + rest);
    var i := ReachesMarker(data, ss, fill, [0xFF, 0xD9] + rest);
    StopsAtEnd(data, i, rest);
  }

  /** A segment whose length does not even cover the two bytes of the length ends the scan. */
  lemma {:induction false} BadLengthEnds(ss: seq<Segment>, fill: nat, marker: Byte, length: nat, tail: seq<Byte>, rest: seq<Byte>)
    requires AllWellFormed(ss) && HasLength(marker) && length < 2 && tail == [0xFF, marker, 0, length] + rest
    ensures Scan(ImageBytes(ss, fill, tail), 2) == None
  {
    var data := ImageBytes(ss, fill, tail);
    var i := ReachesMarker(data, ss, fill, tail);
    AtSplit(data, i, [0xFF, marker, 0, length], rest);
    BadLengthAt(data, i, marker, length);
  }

  lemma {:induction false} BadLengthAt(data: seq<Byte>, i: nat, marker: Byte, length: nat)
    requires HasLength(marker) && length < 2 && At(data, i, [0xFF, marker, 0, length])
    ensures Scan(data, i) == None
  {
    var part := data[i..i + 4];
    assert part[0] == data[i] && part[1] == data[i + 1] && part[2] == data[i + 2] && part[3] == data[i + 3];
    MarkersExactly(marker);
  }

  /** A frame header cut short, and data that ends with no frame header, have no size. */
  lemma {:induction false} CutFrameEnds(ss: seq<Segment>, fill: nat, marker: Byte, tail: seq<Byte>)
    requires AllWellFormed(ss) && StartsFrame(marker) && 4 <= |tail| < 9 && tail[0] == 0xFF && tail[1] == marker
    ensures Scan(ImageBytes(ss, fill, tail), 2) == None
  {
    var data := ImageBytes(ss, fill, tail);
    MarkersExactly(marker);
    var i := ReachesMarker(data, ss, fill, tail);
    LastPart(data, ss, fill, tail, i);
    var part := data[i..i + |tail|];
    assert part[0] == data[i] && part[1] == data[i + 1];
  }

  lemma {:induction false} LastPart(data: seq<Byte>, ss: seq<Segment>, fill: nat, tail: seq<Byte>, i: nat)
    requires AllWellFormed(ss) && data == ImageBytes(ss, fill, tail) && i == 2 + |SegmentsBytes(ss)| + fill
    ensures i + |tail| == |data|
  {
  }

  /** A whole frame header of that size lies at the position. */
  predicate FrameAt(data: seq<Byte>, k: nat, size: Size) {
    && k + 9 <= |data| && data[k] == 0xFF && StartsFrame(data[k + 1])
    && size.height == data[k + 5] as int * 256 + data[k + 6]
    && size.width == data[k + 7] as int * 256 + data[k + 8]
  }

  lemma {:induction false} FrameReadAt(data: seq<Byte>, i: nat)
    requires i + 9 <= |data| && data[i] == 0xFF && IsFrame(data[i + 1])
    ensures Scan(data, i).Some? && FrameAt(data, i, Scan(data, i).value)
  {
    MarkersExactly(data[i + 1]);
  }

  /** On any bytes, a result is read out of a frame header inside the data. */
  lemma {:induction false} OnlyFromFrame(data: seq<Byte>, i: nat)
    requires Scan(data, i).Some?
    ensures exists k: nat :: i <= k && FrameAt(data, k, Scan(data, i).value)
    decreases |data| - i
  {
    if data[i] != 0xFF || data[i + 1] == 0xFF {
      OnlyFromFrame(data, i + 1);
    } else if IsFrame(data[i + 1]) {
      FrameReadAt(data, i);
    } else {
      OnlyFromFrame(data, if IsStandalone(data[i + 1]) then i + 2 else i + 2 + Unpack(data, i + 2));
    }
  }
}
