/** From an image file to the place of its Exif block: the metadata box, its item information
    (ISO/IEC 14496-12, section 8.11.6) and its item locations together. */
module HeifExif {
  import opened Wrappers
  import opened Bytes
  import opened IsoBoxes
  import opened HeifItems

  const Meta: seq<byte> := [0x6d, 0x65, 0x74, 0x61]
  const Iinf: seq<byte> := [0x69, 0x69, 0x6e, 0x66]
  const Iloc: seq<byte> := [0x69, 0x6c, 0x6f, 0x63]
  const Infe: seq<byte> := [0x69, 0x6e, 0x66, 0x65]

  // ---------------------------------------------------------------- item information

  /** What one box among the entries says: the Exif item's id, or go on. Its header is 8 bytes or 16. */
  function ExifEntry(view: View, box: Box): Option<nat>
    requires box.start <= box.end <= |view|
  {
    if box.boxType != Infe || box.start + 8 > box.end then None
    else
      var version := view[box.start];
      var idSize := if version >= 3 then 4 else 2;
      var pointer := box.start + 4 + idSize + 2;
      if version >= 2 && pointer + 4 <= box.end && view[pointer..pointer + 4] == ExifName then Some(BigEndian(view, box.start + 4, idSize))
      else None
  }

  function EntriesFrom(view: View, end: nat, left: nat, offset: nat): Option<nat>
    requires end <= |view|
  {
    if left == 0 || offset + 8 > end then None
    else
      var box := IsoBox(view, offset);
      if box.None? || box.value.end > end then None
      else
        var id := ExifEntry(view, box.value);
        if id.Some? then id else EntriesFrom(view, end, left - 1, box.value.end)
  }

  function FindExifId(view: View, start: nat, end: nat): Outcome<nat>
    requires start <= end <= |view|
  {
    if start + 6 > end then Missing
    else
      var countSize := if view[start] == 0 then 2 else 4;
      if start + 4 + countSize > |view| then Thrown
      else
        var id := EntriesFrom(view, end, BigEndian(view, start + 4, countSize), start + 4 + countSize);
        if id.Some? then Found(id.value) else Missing
  }

  /** findHeifExifItemId */
  method FindHeifExifItemId(view: View, start: nat, end: nat) returns (r: Outcome<nat>)
    requires start <= end <= |view|
    ensures r == FindExifId(view, start, end)
  {
    hide BigEndian, IsoBox, ExifEntry;
    var offset: nat := start;
    if offset + 6 > end {
      return Missing;
    }
    var version := view[offset];
    offset := offset + 4;
    var countSize := if version == 0 then 2 else 4;
    if offset + countSize > |view| {
      return Thrown;
    }
    var count := BigEndian(view, offset, countSize);
    offset := offset + countSize;
    var index := 0;
    while index < count && offset + 8 <= end
      invariant index <= count
      invariant EntriesFrom(view, end, count, start + 4 + countSize) == EntriesFrom(view, end, count - index, offset)
      decreases count - index
    {
      var box := IsoBox(view, offset);
      if box.None? || box.value.end > end {
        break;
      }
      var id := ReadEntry(view, box.value);
      if id.Some? {
        return Found(id.value);
      }
      offset := box.value.end;
      index := index + 1;
    }
    r := Missing;
  }

  /** The body of the loop. */
  method ReadEntry(view: View, infe: Box) returns (found: Option<nat>)
    requires infe.start <= infe.end <= |view|
    ensures found == ExifEntry(view, infe)
  {
    if infe.boxType == Infe && infe.start + 8 <= infe.end {
      var infeVersion := view[infe.start];
      var pointer := infe.start + 4;
      var idSize := if infeVersion >= 3 then 4 else 2;
      var id := BigEndian(view, pointer, idSize);
      pointer := pointer + idSize + 2;
      if infeVersion >= 2 && pointer + 4 <= infe.end && view[pointer..pointer + 4] == ExifName {
        return Some(id);
      }
    }
    found := None;
  }

  /** An entry of version 2 or 3 names its item's type; older ones do not. */
  datatype ItemInfo = ItemInfo(version: nat, id: nat, protection: nat, itemType: seq<byte>, rest: seq<byte>, wide: bool)

  function InfoIdSize(i: ItemInfo): nat {
    if i.version >= 3 then 4 else 2
  }

  predicate InfoFits(i: ItemInfo) {
    && i.version <= 3 && i.id < Pow256(InfoIdSize(i)) && i.protection < Pow256(2) && Writable(InfoBox(i))
    && |i.itemType| == (if i.version >= 2 then 4 else 0)
  }

  function InfoPayload(i: ItemInfo): seq<byte>
  {
    [if i.version <= 3 then i.version else 3, 0, 0, 0] + (Spread(i.id, InfoIdSize(i)) + (Spread(i.protection, 2) + (i.itemType + i.rest)))
  }

  function InfoBox(i: ItemInfo): Chunk {
    Chunk(Infe, InfoPayload(i), i.wide)
  }

  function InfoBoxes(infos: seq<ItemInfo>): seq<Chunk> {
    seq(|infos|, i requires 0 <= i < |infos| => InfoBox(infos[i]))
  }

  /** `wide` is version 1 of the box, with a 32-bit count. */
  datatype InfoTable = InfoTable(infos: seq<ItemInfo>, wide: bool)

  predicate InfosFit(t: InfoTable) {
    |t.infos| < Pow256(CountSize(t)) && forall i | i in t.infos :: InfoFits(i)
  }

  function WriteInfos(t: InfoTable): seq<byte> {
    [if t.wide then 1 else 0, 0, 0, 0] + (Spread(|t.infos|, CountSize(t)) + WriteBoxes(InfoBoxes(t.infos)))
  }

  /** The id of the first entry whose type is Exif. */
  function ExifIdOf(infos: seq<ItemInfo>): Option<nat> {
    if infos == [] then None
    else if infos[0].version >= 2 && infos[0].itemType == ExifName then Some(infos[0].id)
    else ExifIdOf(infos[1..])
  }

  lemma ReadInfo(view: View, offset: nat, i: ItemInfo)
    requires InfoFits(i) && At(view, offset, WriteBox(InfoBox(i)))
    ensures |WriteBox(InfoBox(i))| == SizeOf(InfoBox(i)) && IsoBox(view, offset) == Some(BoxAt(InfoBox(i), offset))
    ensures BoxAt(InfoBox(i), offset).end <= |view|
    ensures ExifEntry(view, BoxAt(InfoBox(i), offset)) == if i.version >= 2 && i.itemType == ExifName then Some(i.id) else None
  {
    hide At, Spread, BigEndian, Pow256, IsoBox, WriteBox, InfoPayload;
    ReadBox(view, offset, InfoBox(i));
    var o := offset + HeaderSize(InfoBox(i));
    InfoFields(view, o, i);
    if i.version >= 2 {
      TypeAt(view, o + 4 + InfoIdSize(i) + 2, i.itemType);
    }
  }

  lemma InfoFields(view: View, o: nat, i: ItemInfo)
    requires InfoFits(i) && At(view, o, InfoPayload(i))
    ensures o + |InfoPayload(i)| <= |view| && |InfoPayload(i)| == 4 + InfoIdSize(i) + 2 + |i.itemType| + |i.rest|
    ensures view[o] == i.version && BigEndian(view, o + 4, InfoIdSize(i)) == i.id
    ensures At(view, o + 4 + InfoIdSize(i) + 2, i.itemType)
  {
    hide At, Spread, BigEndian, Pow256, WriteBox;
    var head: seq<byte> := [i.version, 0, 0, 0];
    var id, protection := Spread(i.id, InfoIdSize(i)), Spread(i.protection, 2);
    EndsInView(view, o, InfoPayload(i));
    AtParts(view, o, head, id + (protection + (i.itemType + i.rest)));
    AtByte(view, o, head, 0);
    AtParts(view, o + 4, id, protection + (i.itemType + i.rest));
    AtParts(view, o + 4 + |id|, protection, i.itemType + i.rest);
    AtParts(view, o + 4 + |id| + 2, i.itemType, i.rest);
    ReadSpread(view, o + 4, i.id, InfoIdSize(i));
  }

  lemma {:induction false} EntriesRoundTrip(view: View, offset: nat, infos: seq<ItemInfo>)
    requires At(view, offset, WriteBoxes(InfoBoxes(infos))) && forall i | i in infos :: InfoFits(i)
    ensures offset + |WriteBoxes(InfoBoxes(infos))| <= |view|
    ensures EntriesFrom(view, offset + |WriteBoxes(InfoBoxes(infos))|, |infos|, offset) == ExifIdOf(infos)
    decreases |infos|
  {
    hide At, WriteBox, IsoBox, InfoFits, ExifEntry;
    EndsInView(view, offset, WriteBoxes(InfoBoxes(infos)));
    if infos != [] {
      assert infos[0] in infos;
      assert InfoBoxes(infos)[1..] == InfoBoxes(infos[1..]);
      AtParts(view, offset, WriteBox(InfoBox(infos[0])), WriteBoxes(InfoBoxes(infos[1..])));
      ReadInfo(view, offset, infos[0]);
      EntriesRoundTrip(view, offset + SizeOf(InfoBox(infos[0])), infos[1..]);
    }
  }

  /** Item information round trips: the id found is that of the first Exif entry. */
  lemma InfoTableRoundTrip(view: View, start: nat, t: InfoTable)
    requires InfosFit(t) && At(view, start, WriteInfos(t))
    ensures start + |WriteInfos(t)| <= |view|
    ensures FindExifId(view, start, start + |WriteInfos(t)|) == AsOutcome(ExifIdOf(t.infos))
  {
    hide At, Spread, BigEndian, WriteBoxes, Pow256, EntriesFrom, InfoFits, WriteInfos, ExifIdOf;
    InfoParts(view, start, t);
    ReadSpread(view, start + 4, |t.infos|, CountSize(t));
    EntriesRoundTrip(view, start + 4 + CountSize(t), t.infos);
  }

  function CountSize(t: InfoTable): nat {
    if t.wide then 4 else 2
  }

  lemma InfoParts(view: View, start: nat, t: InfoTable)
    requires InfosFit(t) && At(view, start, WriteInfos(t))
    ensures start + |WriteInfos(t)| <= |view|
    ensures |WriteInfos(t)| == 4 + CountSize(t) + |WriteBoxes(InfoBoxes(t.infos))|
    ensures view[start] == if t.wide then 1 else 0
    ensures At(view, start + 4, Spread(|t.infos|, CountSize(t)))
    ensures At(view, start + 4 + CountSize(t), WriteBoxes(InfoBoxes(t.infos)))
  {
    var head: seq<byte> := [if t.wide then 1 else 0, 0, 0, 0];
    var boxes := WriteBoxes(InfoBoxes(t.infos));
    hide At, Spread, WriteBoxes, InfoFits, Pow256;
    EndsInView(view, start, WriteInfos(t));
    AtParts(view, start, head, Spread(|t.infos|, CountSize(t)) + boxes);
    AtByte(view, start, head, 0);
    AtParts(view, start + 4, Spread(|t.infos|, CountSize(t)), boxes);
  }

  // ---------------------------------------------------------------- the whole search

  /** The loop of parseHeifExif over the boxes of the file's head. */
  method FindMeta(view: View) returns (meta: Option<Box>)
    ensures meta == FindFrom(view, 0, |view|, Meta)
  {
    var offset: nat := 0;
    while offset + 8 <= |view|
      invariant offset <= |view|
      invariant FindFrom(view, 0, |view|, Meta) == FindFrom(view, offset, |view|, Meta)
      decreases |view| - offset
    {
      var box := IsoBox(view, offset);
      if box.None? {
        break;
      }
      if box.value.boxType == Meta {
        return box;
      }
      offset := box.value.end;
    }
    meta := None;
  }

  /** The part of parseHeifExif between reading the head of the file and reading the Exif block. */
  method LocateExif(view: View) returns (r: Outcome<Place>)
    ensures r == ExifPlace(view)
  {
    hide FindFrom, FindExifId, FindExtent;
    var meta := FindMeta(view);
    if meta.None? || meta.value.start + 4 >= meta.value.end {
      return Missing;
    }
    var iinf := FindIsoBox(view, meta.value.start + 4, meta.value.end, Iinf);
    var iloc := FindIsoBox(view, meta.value.start + 4, meta.value.end, Iloc);
    if iinf.None? || iloc.None? {
      return Missing;
    }
    var itemId := FindHeifExifItemId(view, iinf.value.start, iinf.value.end);
    match itemId {
      case Found(id) => r := FindHeifExtent(view, iloc.value.start, iloc.value.end, id);
      case Missing => r := Missing;
      case Thrown => r := Thrown;
    }
  }

  function ExifPlace(view: View): Outcome<Place> {
    var meta := FindFrom(view, 0, |view|, Meta);
    if meta.None? || meta.value.start + 4 >= meta.value.end then Missing
    else ChildPlace(view, meta.value.start + 4, meta.value.end)
  }

  function ChildPlace(view: View, start: nat, end: nat): Outcome<Place> {
    var iinf := FindFrom(view, start, end, Iinf);
    var iloc := FindFrom(view, start, end, Iloc);
    if iinf.None? || iloc.None? then Missing
    else
      match FindExifId(view, iinf.value.start, iinf.value.end)
      case Found(id) => FindExtent(view, iloc.value.start, iloc.value.end, id)
      case Missing => Missing
      case Thrown => Thrown
  }

  ghost predicate ChildrenFit(children: seq<Chunk>, infos: InfoTable, table: ItemTable) {
    && (forall c | c in children :: Writable(c)) && InfosFit(infos) && TableFits(table)
    && FirstOf(children, 0, Iinf).Some? && FirstOf(children, 0, Iinf).value.0.payload == WriteInfos(infos)
    && FirstOf(children, 0, Iloc).Some? && FirstOf(children, 0, Iloc).value.0.payload == WriteTable(table)
  }

  /** An image file: boxes, the first `meta` among them holding version and flags and its own boxes. */
  ghost predicate IsImage(tops: seq<Chunk>, children: seq<Chunk>, infos: InfoTable, table: ItemTable) {
    && (forall c | c in tops :: Writable(c)) && ChildrenFit(children, infos, table)
    && FirstOf(tops, 0, Meta).Some? && FirstOf(tops, 0, Meta).value.0.payload == [0, 0, 0, 0] + WriteBoxes(children)
  }

  /** What the tables say: where the Exif item's first non-empty extent is. */
  function Told(infos: InfoTable, table: ItemTable): Outcome<Place> {
    var id := ExifIdOf(infos.infos);
    if id.None? then Missing else AsOutcome(PlaceOf(table.items, id.value))
  }

  lemma {:induction false} FirstAnywhere(cs: seq<Chunk>, a: nat, b: nat, boxType: seq<byte>)
    ensures FirstOf(cs, a, boxType).Some? <==> FirstOf(cs, b, boxType).Some?
    ensures FirstOf(cs, a, boxType).Some? ==> FirstOf(cs, a, boxType).value.0 == FirstOf(cs, b, boxType).value.0
    decreases |cs|
  {
    if cs != [] { FirstAnywhere(cs[1..], a + SizeOf(cs[0]), b + SizeOf(cs[0]), boxType); }
  }

  /** A child box that the search finds, with its payload in place. */
  lemma ChildFound(view: View, offset: nat, cs: seq<Chunk>, boxType: seq<byte>) returns (c: Chunk, o: nat)
    requires At(view, offset, WriteBoxes(cs)) && (forall c | c in cs :: Writable(c)) && FirstOf(cs, 0, boxType).Some?
    ensures c == FirstOf(cs, 0, boxType).value.0
    ensures FindFrom(view, offset, offset + |WriteBoxes(cs)|, boxType) == Some(BoxAt(c, o))
    ensures At(view, o + HeaderSize(c), c.payload)
  {
    hide At, WriteBoxes, FindFrom;
    FindRoundTrip(view, offset, cs, boxType);
    FirstAnywhere(cs, 0, offset, boxType);
    c, o := FirstOf(cs, offset, boxType).value.0, FirstOf(cs, offset, boxType).value.1;
  }

  /** Whatever other boxes stand around and however sizes, widths and versions are chosen: the search
      in a written image ends at the Exif item's first non-empty extent, or nowhere if there is none. */
  lemma ImageRoundTrip(tops: seq<Chunk>, children: seq<Chunk>, infos: InfoTable, table: ItemTable)
    requires IsImage(tops, children, infos, table)
    ensures ExifPlace(WriteBoxes(tops)) == Told(infos, table)
  {
    hide At, WriteBoxes, FindFrom, Writable, FirstOf, ChildPlace, ChildrenFit, Told;
    var view := WriteBoxes(tops);
    AtStart(view);
    var meta, m := ChildFound(view, 0, tops, Meta);
    var o := m + HeaderSize(meta);
    AtParts(view, o, [0, 0, 0, 0], WriteBoxes(children));
    ChildrenRoundTrip(view, o + 4, children, infos, table);
  }

  lemma AtStart(view: View)
    ensures At(view, 0, view)
  {
  }

  /** The boxes inside `meta`. */
  lemma ChildrenRoundTrip(view: View, o: nat, children: seq<Chunk>, infos: InfoTable, table: ItemTable)
    requires At(view, o, WriteBoxes(children)) && ChildrenFit(children, infos, table)
    ensures |WriteBoxes(children)| > 0
    ensures ChildPlace(view, o, o + |WriteBoxes(children)|) == Told(infos, table)
  {
    hide At, WriteBoxes, WriteInfos, WriteTable, FindFrom, FindExifId, FindExtent, Writable, InfosFit, TableFits, FirstOf, ExifIdOf, PlaceOf, AsOutcome;
    var iinf, p := ChildFound(view, o, children, Iinf);
    var iloc, q := ChildFound(view, o, children, Iloc);
    NotEmpty(children, Iinf);
    InfoTableRoundTrip(view, p + HeaderSize(iinf), infos);
    var id := ExifIdOf(infos.infos);
    if id.Some? { ItemTableRoundTrip(view, q + HeaderSize(iloc), table, id.value); }
    SizesAgree(infos, iinf, table, iloc);
    SomeOrMissing(id);
  }

  lemma SizesAgree(infos: InfoTable, iinf: Chunk, table: ItemTable, iloc: Chunk)
    requires TableFits(table) && iinf.payload == WriteInfos(infos) && iloc.payload == WriteTable(table)
    ensures SizeOf(iinf) == HeaderSize(iinf) + |WriteInfos(infos)| && SizeOf(iloc) == HeaderSize(iloc) + |WriteTable(table)|
  {
  }

  lemma SomeOrMissing<T>(o: Option<T>)
    ensures AsOutcome(o) == if o.Some? then Found(o.value) else Missing
  {
  }

  lemma NotEmpty(cs: seq<Chunk>, boxType: seq<byte>)
    requires FirstOf(cs, 0, boxType).Some?
    ensures |WriteBoxes(cs)| > 0
  {
  }
}
