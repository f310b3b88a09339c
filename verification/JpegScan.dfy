/** Finding the Exif segment of a JPEG file. */
module JpegScan {
  import opened Wrappers
  import opened Bytes

  const StartOfScan := 0xda
  const EndOfImage := 0xd9
  const App1 := 0xe1

  /** Where the TIFF block of the first Exif segment begins, from this offset on. */
  function ExifFrom(view: View, offset: nat): (tiff: Option<nat>)
    ensures tiff.Some? ==> offset + 10 <= tiff.value <= |view|
    decreases |view| - offset
  {
    if offset + 4 >= |view| then None
    else if view[offset] != 0xff then ExifFrom(view, offset + 1)
    else
      var marker, length := view[offset + 1], BigEndian(view, offset + 2, 2);
      if marker == StartOfScan || marker == EndOfImage || length < 2 then None
      else if marker == App1 && offset + 2 + length <= |view| && offset + 10 <= |view| && view[offset + 4..offset + 8] == ExifName
      then Some(offset + 10)
      else if offset + 2 + length >= |view| then None
      else ExifFrom(view, offset + 2 + length)
  }

  /** The loop of parseJpegExif. */
  method FindJpegExif(view: View) returns (tiff: Option<nat>)
    ensures tiff == if |view| < 4 || view[0] != 0xff || view[1] != 0xd8 then None else ExifFrom(view, 2)
    ensures tiff.Some? ==> tiff.value <= |view|
  {
    if |view| < 4 || view[0] != 0xff || view[1] != 0xd8 {
      return None;
    }
    var offset: nat := 2;
    while offset + 4 < |view|
      invariant offset <= |view| ==> ExifFrom(view, 2) == ExifFrom(view, offset)
      invariant offset > |view| ==> ExifFrom(view, 2) == None
      decreases |view| - offset
    {
      if view[offset] != 0xff {
        offset := offset + 1;
        continue;
      }
      var marker := view[offset + 1];
      if marker == StartOfScan || marker == EndOfImage {
        break;
      }
      var length := BigEndian(view, offset + 2, 2);
      if length < 2 {
        break;
      }
      if marker == App1 && offset + 2 + length <= |view| {
        if offset + 10 <= |view| && view[offset + 4..offset + 8] == ExifName {
          return Some(offset + 10);
        }
      }
      offset := offset + 2 + length;
    }
    tiff := None;
  }

  // ---------------------------------------------------------------- segments

  datatype Segment = Segment(marker: byte, payload: seq<byte>)

  predicate IsExif(s: Segment) {
    s.marker == App1 && |s.payload| >= 4 && s.payload[..4] == ExifName
  }

  /** A marker segment before the scan. */
  predicate SegmentFits(s: Segment) {
    s.marker != StartOfScan && s.marker != EndOfImage && |s.payload| + 2 < Pow256(2)
  }

  function WriteSegment(s: Segment): seq<byte> {
    [0xff, s.marker] + (Spread(|s.payload| + 2, 2) + s.payload)
  }

  function WriteSegments(ss: seq<Segment>): seq<byte> {
    if ss == [] then [] else WriteSegment(ss[0]) + WriteSegments(ss[1..])
  }

  /** The first Exif segment's TIFF block, ten bytes into the segment. */
  function FirstExif(ss: seq<Segment>, offset: nat): Option<nat> {
    if ss == [] then None
    else if IsExif(ss[0]) then Some(offset + 10)
    else FirstExif(ss[1..], offset + 4 + |ss[0].payload|)
  }

  lemma ReadSegment(view: View, offset: nat, s: Segment)
    requires At(view, offset, WriteSegment(s)) && SegmentFits(s)
    ensures offset + 4 + |s.payload| <= |view| && view[offset] == 0xff && view[offset + 1] == s.marker
    ensures BigEndian(view, offset + 2, 2) == |s.payload| + 2 && view[offset + 4..offset + 4 + |s.payload|] == s.payload
  {
    hide Spread, BigEndian, Pow256;
    var head := [0xff, s.marker];
    AtParts(view, offset, head, Spread(|s.payload| + 2, 2) + s.payload);
    AtParts(view, offset + 2, Spread(|s.payload| + 2, 2), s.payload);
    AtByte(view, offset, head, 0);
    AtByte(view, offset, head, 1);
    ReadSpread(view, offset + 2, |s.payload| + 2, 2);
  }

  lemma NameRead(view: View, offset: nat, s: Segment)
    requires offset + |s.payload| <= |view| && view[offset..offset + |s.payload|] == s.payload
    ensures s.marker == App1 && offset + 4 <= |view| && |s.payload| >= 4 ==> (view[offset..offset + 4] == ExifName <==> IsExif(s))
    ensures IsExif(s) ==> s.marker == App1 && |s.payload| >= 4
  {
    if |s.payload| >= 4 { assert s.payload[..4] == view[offset..offset + 4]; }
  }

  /** A payload too short to be Exif is followed by the 0xff of the next marker, which no letter of the
      name is. */
  lemma ShortIsNotExif(view: View, offset: nat, length: nat)
    requires length < 4 && offset + 4 <= |view| && view[offset + length] == 0xff
    ensures view[offset..offset + 4] != ExifName
  {
    assert view[offset..offset + 4][length] == 0xff;
  }

  lemma NextMarker(view: View, offset: nat, ss: seq<Segment>, last: byte, rest: seq<byte>)
    requires At(view, offset, WriteSegments(ss) + ([0xff, last] + rest))
    ensures offset + 2 <= |view| && view[offset] == 0xff
  {
    var all := WriteSegments(ss) + ([0xff, last] + rest);
    AtByte(view, offset, all, 0);
    EndsInView(view, offset, all);
  }

  /** Up to the start of scan or the end of the image the search finds the first Exif segment, skipping all others whatever
      their marker, size and payload, or nothing. */
  lemma {:induction false} SegmentsRoundTrip(view: View, offset: nat, ss: seq<Segment>, last: byte, rest: seq<byte>)
    requires At(view, offset, WriteSegments(ss) + ([0xff, last] + rest))
    requires last == StartOfScan || last == EndOfImage
    requires forall s | s in ss :: SegmentFits(s)
    ensures ExifFrom(view, offset) == FirstExif(ss, offset)
    decreases |ss|
  {
    hide At, BigEndian, IsExif, ExifFrom;
    var tail := [0xff, last] + rest;
    if ss == [] {
      assert WriteSegments(ss) + tail == tail;
      ScanStarts(view, offset, last, rest);
    } else {
      var s := ss[0];
      assert s in ss;
      assert WriteSegments(ss) + tail == WriteSegment(s) + (WriteSegments(ss[1..]) + tail);
      AtParts(view, offset, WriteSegment(s), WriteSegments(ss[1..]) + tail);
      ReadSegment(view, offset, s);
      NextMarker(view, offset + 4 + |s.payload|, ss[1..], last, rest);
      OneSegment(view, offset, s);
      SegmentsRoundTrip(view, offset + 4 + |s.payload|, ss[1..], last, rest);
    }
  }

  /** Bytes that begin no marker are skipped one by one. */
  lemma {:induction false} PaddingIsSkipped(view: View, offset: nat, next: nat)
    requires offset <= next && next + 4 < |view| && forall o | offset <= o < next :: view[o] != 0xff
    ensures ExifFrom(view, offset) == ExifFrom(view, next)
    decreases next - offset
  {
    if offset < next { PaddingIsSkipped(view, offset + 1, next); }
  }

  lemma ScanStarts(view: View, offset: nat, last: byte, rest: seq<byte>)
    requires At(view, offset, [0xff, last] + rest) && (last == StartOfScan || last == EndOfImage)
    ensures ExifFrom(view, offset) == None
  {
    var tail := [0xff, last] + rest;
    AtByte(view, offset, tail, 0);
    AtByte(view, offset, tail, 1);
  }

  lemma OneSegment(view: View, offset: nat, s: Segment)
    requires SegmentFits(s) && offset + 4 + |s.payload| + 2 <= |view| && view[offset + 4 + |s.payload|] == 0xff
    requires view[offset] == 0xff && view[offset + 1] == s.marker && BigEndian(view, offset + 2, 2) == |s.payload| + 2
    requires view[offset + 4..offset + 4 + |s.payload|] == s.payload
    ensures ExifFrom(view, offset) == if IsExif(s) then Some(offset + 10) else ExifFrom(view, offset + 4 + |s.payload|)
  {
    NameRead(view, offset + 4, s);
    if |s.payload| < 4 && offset + 8 <= |view| { ShortIsNotExif(view, offset + 4, |s.payload|); }
    hide BigEndian, IsExif;
  }
}
