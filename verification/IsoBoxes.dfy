/** Boxes of an ISO base media file (ISO/IEC 14496-12), and the search for a box among others. */
module IsoBoxes {
  import opened Wrappers
  import opened Bytes

  const SAFE_LIMIT: nat := 0x20_0000_0000_0000  // 2^53

  datatype Box = Box(boxType: seq<byte>, offset: nat, start: nat, end: nat)

  // ---------------------------------------------------------------- one box

  /** isoBox: None for a truncated or impossible header. Size 1 means that a 64-bit size follows; a
      size of 0, in either form, means up to the end. */
  function IsoBox(view: View, offset: nat): (box: Option<Box>)
    ensures box.Some? ==> box.value.offset == offset && offset + 8 <= box.value.start <= box.value.end <= |view|
  {
    if offset + 8 > |view| then None
    else
      var short := BigEndian(view, offset, 4);
      var boxType := view[offset + 4..offset + 8];
      if short == 1 then
        if offset + 16 > |view| || BigEndian(view, offset + 8, 4) > 0x1f_ffff then None
        else Sized(view, offset, boxType, BigEndian(view, offset + 8, 4) * 0x1_0000_0000 + BigEndian(view, offset + 12, 4), 16)
      else Sized(view, offset, boxType, short, 8)
  }

  function Sized(view: View, offset: nat, boxType: seq<byte>, size: nat, header: nat): Option<Box>
    requires offset <= |view|
  {
    var length := if size == 0 then |view| - offset else size;
    if length < header || offset + length > |view| then None
    else Some(Box(boxType, offset, offset + header, offset + length))
  }

  // ---------------------------------------------------------------- the first child of a type

  /** Walks the boxes from `start`, each beginning where the one before it ends. */
  function FindFrom(view: View, offset: nat, end: nat, boxType: seq<byte>): (box: Option<Box>)
    ensures box.Some? ==> offset <= box.value.offset < box.value.start <= box.value.end <= end && box.value.end <= |view|
    ensures box.Some? ==> box.value.boxType == boxType
    decreases |view| - offset
  {
    if offset + 8 > end || offset + 8 > |view| then None
    else
      var box := IsoBox(view, offset);
      if box.None? || box.value.end > end then None
      else if box.value.boxType == boxType then box
      else FindFrom(view, box.value.end, end, boxType)
  }

  /** findIsoBox: the box it returns lies inside the parent. */
  method FindIsoBox(view: View, start: nat, end: nat, boxType: seq<byte>) returns (box: Option<Box>)
    ensures box == FindFrom(view, start, end, boxType)
    ensures box.Some? ==> start <= box.value.offset < box.value.start <= box.value.end <= end && box.value.end <= |view|
  {
    var offset := start;
    while offset + 8 <= end && offset + 8 <= |view|
      invariant start <= offset
      invariant FindFrom(view, start, end, boxType) == FindFrom(view, offset, end, boxType)
      decreases |view| - offset
    {
      box := IsoBox(view, offset);
      if box.None? || box.value.end > end {
        return None;
      }
      if box.value.boxType == boxType {
        return;
      }
      offset := box.value.end;
    }
    box := None;
  }

  // ---------------------------------------------------------------- boxes as the standard writes them

  /** A box to be written; `wide` chooses the 64-bit size. */
  datatype Chunk = Chunk(boxType: seq<byte>, payload: seq<byte>, wide: bool)

  predicate Writable(c: Chunk) {
    |c.boxType| == 4 && |c.payload| + 16 < if c.wide then SAFE_LIMIT else Pow256(4)
  }

  function HeaderSize(c: Chunk): nat {
    if c.wide then 16 else 8
  }

  function SizeOf(c: Chunk): nat {
    HeaderSize(c) + |c.payload|
  }

  function HighHalf(size: nat): nat {
    size / 0x1_0000_0000
  }

  function LowHalf(size: nat): nat {
    size % 0x1_0000_0000
  }

  function WriteBox(c: Chunk): seq<byte> {
    if c.wide then Spread(1, 4) + (c.boxType + (Spread(HighHalf(SizeOf(c)), 4) + (Spread(LowHalf(SizeOf(c)), 4) + c.payload)))
    else Spread(SizeOf(c), 4) + (c.boxType + c.payload)
  }

  function WriteBoxes(cs: seq<Chunk>): seq<byte> {
    if cs == [] then [] else WriteBox(cs[0]) + WriteBoxes(cs[1..])
  }

  function BoxAt(c: Chunk, offset: nat): Box {
    Box(c.boxType, offset, offset + HeaderSize(c), offset + SizeOf(c))
  }

  /** A written box is read back, wherever it stands. */
  lemma ReadBox(view: View, offset: nat, c: Chunk)
    requires Writable(c) && At(view, offset, WriteBox(c))
    ensures |WriteBox(c)| == SizeOf(c) && IsoBox(view, offset) == Some(BoxAt(c, offset))
    ensures At(view, offset + HeaderSize(c), c.payload)
  {
    if c.wide { ReadWideBox(view, offset, c); } else {
      var size := Spread(SizeOf(c), 4);
      AtParts(view, offset, size, c.boxType + c.payload);
      AtParts(view, offset + 4, c.boxType, c.payload);
      ReadSpread(view, offset, SizeOf(c), 4);
    }
  }

  lemma ReadWideBox(view: View, offset: nat, c: Chunk)
    requires c.wide && Writable(c) && At(view, offset, WriteBox(c))
    ensures |WriteBox(c)| == SizeOf(c) && IsoBox(view, offset) == Some(BoxAt(c, offset))
    ensures At(view, offset + HeaderSize(c), c.payload)
  {
    hide Spread, BigEndian, At, HighHalf, LowHalf, IsoBox, WriteBox, Pow256;
    var size := SizeOf(c);
    WideParts(view, offset, c);
    Powers();
    WideSize(size);
    EndsInView(view, offset + 16, c.payload);
    ReadSpread(view, offset, 1, 4);
    ReadSpread(view, offset + 8, HighHalf(size), 4);
    ReadSpread(view, offset + 12, LowHalf(size), 4);
    TypeAt(view, offset + 4, c.boxType);
    WideHeader(view, offset, c.boxType, HighHalf(size), LowHalf(size), size);
  }

  lemma WideParts(view: View, offset: nat, c: Chunk)
    requires c.wide && |c.boxType| == 4 && At(view, offset, WriteBox(c))
    ensures |WriteBox(c)| == SizeOf(c)
    ensures At(view, offset, Spread(1, 4)) && At(view, offset + 4, c.boxType) && At(view, offset + 8, Spread(HighHalf(SizeOf(c)), 4))
    ensures At(view, offset + 12, Spread(LowHalf(SizeOf(c)), 4)) && At(view, offset + 16, c.payload)
  {
    var one, high, low := Spread(1, 4), Spread(HighHalf(SizeOf(c)), 4), Spread(LowHalf(SizeOf(c)), 4);
    hide Spread, At, HighHalf, LowHalf;
    AtParts(view, offset, one, c.boxType + (high + (low + c.payload)));
    AtParts(view, offset + 4, c.boxType, high + (low + c.payload));
    AtParts(view, offset + 8, high, low + c.payload);
    AtParts(view, offset + 12, low, c.payload);
  }

  lemma WideHeader(view: View, offset: nat, boxType: seq<byte>, high: nat, low: nat, size: nat)
    requires offset + size <= |view| && size >= 16 && high <= 0x1f_ffff && high * 0x1_0000_0000 + low == size
    requires BigEndian(view, offset, 4) == 1 && BigEndian(view, offset + 8, 4) == high && BigEndian(view, offset + 12, 4) == low
    requires view[offset + 4..offset + 8] == boxType
    ensures IsoBox(view, offset) == Some(Box(boxType, offset, offset + 16, offset + size))
  {
    hide BigEndian;
  }

  lemma WideSize(size: nat)
    requires size < SAFE_LIMIT
    ensures HighHalf(size) <= 0x1f_ffff && LowHalf(size) < 0x1_0000_0000
    ensures HighHalf(size) * 0x1_0000_0000 + LowHalf(size) == size
  {
  }

  lemma TypeAt(view: View, offset: nat, boxType: seq<byte>)
    requires At(view, offset, boxType) && |boxType| == 4
    ensures offset + 4 <= |view| && view[offset..offset + 4] == boxType
  {
  }

  /** Which child has the type, and where it stands. */
  function FirstOf(cs: seq<Chunk>, offset: nat, boxType: seq<byte>): Option<(Chunk, nat)> {
    if cs == [] then None
    else if cs[0].boxType == boxType then Some((cs[0], offset))
    else FirstOf(cs[1..], offset + SizeOf(cs[0]), boxType)
  }

  /** In any sequence of boxes that fills its parent, the search finds the first of the type, with
      its payload, or nothing if there is none. */
  lemma {:induction false} FindRoundTrip(view: View, offset: nat, cs: seq<Chunk>, boxType: seq<byte>)
    requires At(view, offset, WriteBoxes(cs)) && forall c | c in cs :: Writable(c)
    ensures var first := FirstOf(cs, offset, boxType);
      FindFrom(view, offset, offset + |WriteBoxes(cs)|, boxType) == (if first.None? then None else Some(BoxAt(first.value.0, first.value.1)))
    ensures var first := FirstOf(cs, offset, boxType); first.Some? ==>
      first.value.0 in cs && At(view, first.value.1 + HeaderSize(first.value.0), first.value.0.payload)
    decreases |cs|
  {
    hide IsoBox, WriteBox, At, FindFrom;
    if cs == [] {
      FindNothing(view, offset, boxType);
    } else {
      assert cs[0] in cs;
      AtParts(view, offset, WriteBox(cs[0]), WriteBoxes(cs[1..]));
      ReadBox(view, offset, cs[0]);
      EndsInView(view, offset + SizeOf(cs[0]), WriteBoxes(cs[1..]));
      FindRoundTrip(view, offset + SizeOf(cs[0]), cs[1..], boxType);
      FindStep(view, offset, BoxAt(cs[0], offset), offset + |WriteBoxes(cs)|, boxType);
    }
  }

  lemma FindNothing(view: View, offset: nat, boxType: seq<byte>)
    ensures FindFrom(view, offset, offset, boxType) == None
  {
  }

  /** One box of the walk. */
  lemma FindStep(view: View, offset: nat, box: Box, end: nat, boxType: seq<byte>)
    requires IsoBox(view, offset) == Some(box) && box.end <= end
    ensures FindFrom(view, offset, end, boxType) == if box.boxType == boxType then Some(box) else FindFrom(view, box.end, end, boxType)
  {
    hide IsoBox;
  }

  // ---------------------------------------------------------------- the last box

  /** A box that gives no size, in either form, ends where the file does. */
  lemma BoxToTheEnd(view: View, offset: nat, boxType: seq<byte>, wide: bool)
    requires |boxType| == 4
    requires At(view, offset, (if wide then [0, 0, 0, 1] else [0, 0, 0, 0]) + (boxType + if wide then [0, 0, 0, 0, 0, 0, 0, 0] else []))
    ensures IsoBox(view, offset) == Some(Box(boxType, offset, offset + if wide then 16 else 8, |view|))
  {
    var size: seq<byte> := if wide then [0, 0, 0, 1] else [0, 0, 0, 0];
    var large: seq<byte> := if wide then [0, 0, 0, 0, 0, 0, 0, 0] else [];
    EndsInView(view, offset, size + (boxType + large));
    AtParts(view, offset, size, boxType + large);
    AtParts(view, offset + 4, boxType, large);
    FourBytes(view, offset, size);
    if wide {
      var zero: seq<byte> := [0, 0, 0, 0];
      assert zero + zero == large;
      AtParts(view, offset + 8, zero, zero);
      FourBytes(view, offset + 8, zero);
      FourBytes(view, offset + 12, zero);
    }
  }

  lemma FourBytes(view: View, offset: nat, b: seq<byte>)
    requires |b| == 4 && At(view, offset, b)
    ensures offset + 4 <= |view| && BigEndian(view, offset, 4) == ((b[0] as nat * 256 + b[1] as nat) * 256 + b[2] as nat) * 256 + b[3] as nat
  {
    EndsInView(view, offset, b);
    AtByte(view, offset, b, 0);
    AtByte(view, offset, b, 1);
    AtByte(view, offset, b, 2);
    AtByte(view, offset, b, 3);
    assert BigEndian(view, offset, 1) == BigEndian(view, offset, 0) * 256 + view[offset] == b[0] as nat;
    assert BigEndian(view, offset, 2) == BigEndian(view, offset, 1) * 256 + view[offset + 1];
    assert BigEndian(view, offset, 3) == BigEndian(view, offset, 2) * 256 + view[offset + 2];
  }
}
