/** The item location table of an image file, and the search for an item's place in it. The table is
    written here as ISO/IEC 14496-12 lays it out (section 8.11.3); what the search returns is stated
    on the table, not on its bytes. */
module HeifItems {
  import opened Wrappers
  import opened Bytes
  import opened IsoBoxes

  /** Thrown: a read past the buffer, which DataView answers with a RangeError. */
  datatype Outcome<T> = Found(value: T) | Missing | Thrown

  function AsOutcome<T>(o: Option<T>): Outcome<T> {
    if o.Some? then Found(o.value) else Missing
  }

  datatype Place = Place(offset: nat, length: nat)

  // ---------------------------------------------------------------- variable-width fields

  /** readSized: None past the end or from 2^53 on. Up to there a double accumulates exactly. */
  function ReadSized(view: View, offset: nat, size: nat): Option<nat> {
    if size == 0 then Some(0)
    else if size > 8 || offset + size > |view| then None
    else if BigEndian(view, offset, size) < SAFE_LIMIT then Some(BigEndian(view, offset, size))
    else None
  }

  method ReadSizedField(view: View, offset: nat, size: nat) returns (value: Option<nat>)
    ensures value == ReadSized(view, offset, size)
  {
    if size == 0 {
      return Some(0);
    }
    if size > 8 || offset + size > |view| {
      return None;
    }
    var sum := 0;
    for index := 0 to size
      invariant sum == BigEndian(view, offset, index)
    {
      sum := sum * 256 + view[offset + index];
    }
    value := if sum < SAFE_LIMIT then Some(sum) else None;
  }

  // ---------------------------------------------------------------- item locations

  datatype Layout = Layout(version: nat, offsetSize: nat, lengthSize: nat, baseOffsetSize: nat, indexSize: nat)

  function IdSize(version: nat): nat {
    if version < 2 then 2 else 4
  }

  datatype ExtentScan = Hit(place: Place) | Broken | Past(offset: nat)

  /** The remaining extents of one item. */
  function ExtentsFrom(view: View, layout: Layout, wanted: bool, base: nat, left: nat, offset: nat): ExtentScan {
    if left == 0 then Past(offset)
    else
      var index := if layout.indexSize > 0 then ReadSized(view, offset, layout.indexSize) else Some(0);
      var o1 := offset + layout.indexSize;
      var extentOffset := ReadSized(view, o1, layout.offsetSize);
      var o2 := o1 + layout.offsetSize;
      var extentLength := ReadSized(view, o2, layout.lengthSize);
      if index.None? || extentOffset.None? || extentLength.None? then Broken
      else if wanted && extentLength.value > 0 then Hit(Place(base + extentOffset.value, extentLength.value))
      else ExtentsFrom(view, layout, wanted, base, left - 1, o2 + layout.lengthSize)
  }

  datatype ItemScan = ItemEnds(result: Outcome<Place>) | NextItem(offset: nat)

  /** One item of the table; `end` is the end of its box. */
  function OneItem(view: View, end: nat, layout: Layout, itemId: nat, offset: nat): ItemScan
    requires end <= |view|
  {
    if offset >= end then ItemEnds(Missing)
    else if offset + IdSize(layout.version) > |view| then ItemEnds(Thrown)
    else
      var id := BigEndian(view, offset, IdSize(layout.version));
      var construction := if layout.version == 1 || layout.version == 2 then 2 else 0;
      var o1 := offset + IdSize(layout.version) + construction + 2;
      var base := ReadSized(view, o1, layout.baseOffsetSize);
      var o2 := o1 + layout.baseOffsetSize;
      if o1 > end || base.None? || o2 + 2 > end then ItemEnds(Missing)
      else
        match ExtentsFrom(view, layout, id == itemId, base.value, BigEndian(view, o2, 2), o2 + 2)
        case Hit(place) => ItemEnds(Found(place))
        case Broken => ItemEnds(Missing)
        case Past(o3) => NextItem(o3)
  }

  function ItemsFrom(view: View, end: nat, layout: Layout, itemId: nat, left: nat, offset: nat): Outcome<Place>
    requires end <= |view|
  {
    if left == 0 then Missing
    else
      match OneItem(view, end, layout, itemId, offset)
      case ItemEnds(result) => result
      case NextItem(next) => ItemsFrom(view, end, layout, itemId, left - 1, next)
  }

  function LayoutAt(view: View, start: nat): Layout
    requires start + 8 <= |view|
  {
    var version := view[start];
    Layout(version, view[start + 4] / 16, view[start + 4] % 16, view[start + 5] / 16,
           if version == 1 || version == 2 then view[start + 5] % 16 else 0)
  }

  function FindExtent(view: View, start: nat, end: nat, itemId: nat): Outcome<Place>
    requires start <= end <= |view|
  {
    if start + 8 > end then Missing
    else
      var layout := LayoutAt(view, start);
      if start + 6 + IdSize(layout.version) > |view| then Thrown
      else ItemsFrom(view, end, layout, itemId, BigEndian(view, start + 6, IdSize(layout.version)), start + 6 + IdSize(layout.version))
  }

  /** findHeifExtent */
  method FindHeifExtent(view: View, start: nat, end: nat, itemId: nat) returns (r: Outcome<Place>)
    requires start <= end <= |view|
    ensures r == FindExtent(view, start, end, itemId)
  {
    var offset: nat := start;
    if offset + 8 > end {
      return Missing;
    }
    var version := view[offset];
    offset := offset + 4;
    var firstSizes, secondSizes := view[offset], view[offset + 1];
    offset := offset + 2;
    var indexSize := if version == 1 || version == 2 then secondSizes % 16 else 0;
    var layout := Layout(version, firstSizes / 16, firstSizes % 16, secondSizes / 16, indexSize);
    if offset + IdSize(version) > |view| {
      return Thrown;
    }
    var itemCount := BigEndian(view, offset, IdSize(version));
    offset := offset + IdSize(version);
    assert layout == LayoutAt(view, start);
    hide BigEndian, LayoutAt, OneItem;
    for index := 0 to itemCount
      invariant FindExtent(view, start, end, itemId) == ItemsFrom(view, end, layout, itemId, itemCount - index, offset)
    {
      var scan := ScanItem(view, end, layout, itemId, offset);
      if scan.ItemEnds? {
        return scan.result;
      }
      offset := scan.offset;
    }
    r := Missing;
  }

  /** The body of the loop over the items. */
  method ScanItem(view: View, end: nat, layout: Layout, itemId: nat, from: nat) returns (scan: ItemScan)
    requires end <= |view|
    ensures scan == OneItem(view, end, layout, itemId, from)
  {
    var offset: nat := from;
    if offset >= end {
      return ItemEnds(Missing);
    }
    if offset + IdSize(layout.version) > |view| {
      return ItemEnds(Thrown);
    }
    var id := BigEndian(view, offset, IdSize(layout.version));
    offset := offset + IdSize(layout.version);
    if layout.version == 1 || layout.version == 2 {
      if offset + 2 > end {
        return ItemEnds(Missing);
      }
      offset := offset + 2;
    }
    if offset + 2 > end {
      return ItemEnds(Missing);
    }
    offset := offset + 2;
    var base := ReadSizedField(view, offset, layout.baseOffsetSize);
    if base.None? {
      return ItemEnds(Missing);
    }
    offset := offset + layout.baseOffsetSize;
    if offset + 2 > end {
      return ItemEnds(Missing);
    }
    var extentCount := BigEndian(view, offset, 2);
    offset := offset + 2;
    var extents := ScanExtents(view, layout, id == itemId, base.value, extentCount, offset);
    match extents {
      case Hit(place) => scan := ItemEnds(Found(place));
      case Broken => scan := ItemEnds(Missing);
      case Past(next) => scan := NextItem(next);
    }
  }

  /** The inner loop. */
  method ScanExtents(view: View, layout: Layout, wanted: bool, base: nat, extentCount: nat, from: nat) returns (scan: ExtentScan)
    ensures scan == ExtentsFrom(view, layout, wanted, base, extentCount, from)
  {
    var offset: nat := from;
    for extentIndex := 0 to extentCount
      invariant ExtentsFrom(view, layout, wanted, base, extentCount, from)
        == ExtentsFrom(view, layout, wanted, base, extentCount - extentIndex, offset)
    {
      if layout.indexSize > 0 {
        var index := ReadSizedField(view, offset, layout.indexSize);
        if index.None? {
          return Broken;
        }
        offset := offset + layout.indexSize;
      }
      var extentOffset := ReadSizedField(view, offset, layout.offsetSize);
      if extentOffset.None? {
        return Broken;
      }
      offset := offset + layout.offsetSize;
      var extentLength := ReadSizedField(view, offset, layout.lengthSize);
      if extentLength.None? {
        return Broken;
      }
      offset := offset + layout.lengthSize;
      if wanted && extentLength.value > 0 {
        return Hit(Place(base + extentOffset.value, extentLength.value));
      }
    }
    scan := Past(offset);
  }

  /** An item whose first extent runs past the end of the file ends the search with nothing. */
  lemma CutItemIsMissing(view: View, end: nat, layout: Layout, itemId: nat, offset: nat)
    requires end <= |view| && layout.lengthSize > 0
    requires var counted := offset + IdSize(layout.version) + (if layout.version == 1 || layout.version == 2 then 2 else 0) + 2 + layout.baseOffsetSize;
      && counted + 2 <= end && BigEndian(view, counted, 2) > 0
      && counted + 2 + layout.indexSize + layout.offsetSize + layout.lengthSize > |view|
    ensures OneItem(view, end, layout, itemId, offset) == ItemEnds(Missing)
  {
    hide BigEndian;
  }

  // ---------------------------------------------------------------- the table as the standard writes it

  datatype Extent = Extent(index: nat, offset: nat, length: nat)
  datatype ItemLocation = ItemLocation(id: nat, construction: nat, dataReference: nat, base: nat, extents: seq<Extent>)
  datatype ItemTable = ItemTable(layout: Layout, reserved: nat, items: seq<ItemLocation>)

  predicate Fits(value: nat, size: nat) {
    size <= 8 && value < Pow256(size) && value < SAFE_LIMIT
  }

  predicate ExtentFits(l: Layout, e: Extent) {
    Fits(e.index, l.indexSize) && Fits(e.offset, l.offsetSize) && Fits(e.length, l.lengthSize)
  }

  predicate LocationFits(l: Layout, i: ItemLocation) {
    && i.id < Pow256(IdSize(l.version)) && i.construction < Pow256(2) && i.dataReference < Pow256(2)
    && Fits(i.base, l.baseOffsetSize) && |i.extents| < Pow256(2)
    && forall e | e in i.extents :: ExtentFits(l, e)
  }

  /** Versions 0, 1 and 2, any widths from 0 to 8, values below 2^53; version 0 has no index field,
      and its low nibble is reserved. */
  predicate TableFits(t: ItemTable) {
    var l := t.layout;
    && l.version <= 2 && l.offsetSize <= 8 && l.lengthSize <= 8 && l.baseOffsetSize <= 8 && l.indexSize <= 8
    && (l.version == 0 ==> l.indexSize == 0) && t.reserved < 16
    && |t.items| < Pow256(IdSize(l.version))
    && forall i | i in t.items :: LocationFits(l, i)
  }

  function WriteExtent(l: Layout, e: Extent): seq<byte> {
    Spread(e.index, l.indexSize) + (Spread(e.offset, l.offsetSize) + Spread(e.length, l.lengthSize))
  }

  function WriteExtents(l: Layout, es: seq<Extent>): seq<byte> {
    if es == [] then [] else WriteExtent(l, es[0]) + WriteExtents(l, es[1..])
  }

  function WriteItem(l: Layout, i: ItemLocation): seq<byte> {
    Spread(i.id, IdSize(l.version)) + (Spread(i.construction, if l.version == 0 then 0 else 2)
      + (Spread(i.dataReference, 2) + (Spread(i.base, l.baseOffsetSize) + (Spread(|i.extents|, 2) + WriteExtents(l, i.extents)))))
  }

  function WriteItems(l: Layout, locs: seq<ItemLocation>): seq<byte> {
    if locs == [] then [] else WriteItem(l, locs[0]) + WriteItems(l, locs[1..])
  }

  function TableHead(t: ItemTable): (head: seq<byte>)
    requires TableFits(t)
    ensures |head| == 6
  {
    var l := t.layout;
    [l.version, 0, 0, 0, l.offsetSize * 16 + l.lengthSize, l.baseOffsetSize * 16 + if l.version == 0 then t.reserved else l.indexSize]
  }

  function WriteTable(t: ItemTable): seq<byte>
    requires TableFits(t)
  {
    TableHead(t) + (Spread(|t.items|, IdSize(t.layout.version)) + WriteItems(t.layout, t.items))
  }

  /** The first extent that is not empty. */
  function FirstNonEmpty(es: seq<Extent>): Option<Extent> {
    if es == [] then None else if es[0].length > 0 then Some(es[0]) else FirstNonEmpty(es[1..])
  }

  /** The first non-empty extent under the id, base added. */
  function PlaceOf(locs: seq<ItemLocation>, itemId: nat): Option<Place> {
    if locs == [] then None
    else
      var e := FirstNonEmpty(locs[0].extents);
      if locs[0].id == itemId && e.Some? then Some(Place(locs[0].base + e.value.offset, e.value.length)) else PlaceOf(locs[1..], itemId)
  }

  lemma ReadField(view: View, offset: nat, value: nat, size: nat)
    requires At(view, offset, Spread(value, size)) && Fits(value, size)
    ensures ReadSized(view, offset, size) == Some(value)
  {
    ReadSpread(view, offset, value, size);
  }

  lemma ReadExtent(view: View, offset: nat, l: Layout, e: Extent, rest: seq<byte>)
    requires At(view, offset, WriteExtent(l, e) + rest) && ExtentFits(l, e)
    ensures ReadSized(view, offset, l.indexSize) == Some(e.index)
    ensures ReadSized(view, offset + l.indexSize, l.offsetSize) == Some(e.offset)
    ensures ReadSized(view, offset + l.indexSize + l.offsetSize, l.lengthSize) == Some(e.length)
    ensures At(view, offset + l.indexSize + l.offsetSize + l.lengthSize, rest)
  {
    hide At, Spread, ReadSized, Fits;
    var index, eo, el := Spread(e.index, l.indexSize), Spread(e.offset, l.offsetSize), Spread(e.length, l.lengthSize);
    AtParts(view, offset, WriteExtent(l, e), rest);
    AtParts(view, offset, index, eo + el);
    AtParts(view, offset + l.indexSize, eo, el);
    ReadField(view, offset, e.index, l.indexSize);
    ReadField(view, offset + l.indexSize, e.offset, l.offsetSize);
    ReadField(view, offset + l.indexSize + l.offsetSize, e.length, l.lengthSize);
  }

  lemma {:induction false} ExtentsRoundTrip(view: View, offset: nat, l: Layout, wanted: bool, base: nat, es: seq<Extent>)
    requires At(view, offset, WriteExtents(l, es)) && forall e | e in es :: ExtentFits(l, e)
    ensures ExtentsFrom(view, l, wanted, base, |es|, offset) ==
      if wanted && FirstNonEmpty(es).Some? then Hit(Place(base + FirstNonEmpty(es).value.offset, FirstNonEmpty(es).value.length))
      else Past(offset + |WriteExtents(l, es)|)
    decreases |es|
  {
    hide At, ReadSized, ExtentFits;
    if es != [] {
      assert es[0] in es;
      ReadExtent(view, offset, l, es[0], WriteExtents(l, es[1..]));
      ExtentsRoundTrip(view, offset + |WriteExtent(l, es[0])|, l, wanted, base, es[1..]);
    }
  }

  /** The offsets of an item's fields. */
  lemma ReadItem(view: View, offset: nat, l: Layout, i: ItemLocation, rest: seq<byte>)
    requires At(view, offset, WriteItem(l, i) + rest) && LocationFits(l, i)
    ensures var c := if l.version == 0 then 0 else 2; var o := offset + IdSize(l.version) + c + 2;
      && offset + |WriteItem(l, i)| <= |view|
      && BigEndian(view, offset, IdSize(l.version)) == i.id && ReadSized(view, o, l.baseOffsetSize) == Some(i.base)
      && BigEndian(view, o + l.baseOffsetSize, 2) == |i.extents| && At(view, o + l.baseOffsetSize + 2, WriteExtents(l, i.extents))
      && At(view, offset + |WriteItem(l, i)|, rest)
      && |WriteItem(l, i)| == IdSize(l.version) + c + 2 + l.baseOffsetSize + 2 + |WriteExtents(l, i.extents)|
  {
    hide At, Spread, ReadSized, Fits, WriteExtents, BigEndian, Pow256;
    var c := if l.version == 0 then 0 else 2;
    var id, con, ref, base, count := Spread(i.id, IdSize(l.version)), Spread(i.construction, c), Spread(i.dataReference, 2),
      Spread(i.base, l.baseOffsetSize), Spread(|i.extents|, 2);
    var es := WriteExtents(l, i.extents);
    AtParts(view, offset, WriteItem(l, i), rest);
    EndsInView(view, offset, WriteItem(l, i));
    AtParts(view, offset, id, con + (ref + (base + (count + es))));
    AtParts(view, offset + |id|, con, ref + (base + (count + es)));
    AtParts(view, offset + |id| + c, ref, base + (count + es));
    AtParts(view, offset + |id| + c + 2, base, count + es);
    AtParts(view, offset + |id| + c + 2 + |base|, count, es);
    ReadSpread(view, offset, i.id, IdSize(l.version));
    ReadField(view, offset + |id| + c + 2, i.base, l.baseOffsetSize);
    ReadSpread(view, offset + |id| + c + 2 + |base|, |i.extents|, 2);
  }

  lemma {:induction false} ItemsRoundTrip(view: View, offset: nat, l: Layout, locs: seq<ItemLocation>, itemId: nat)
    requires At(view, offset, WriteItems(l, locs)) && l.version <= 2 && forall i | i in locs :: LocationFits(l, i)
    ensures ItemsFrom(view, offset + |WriteItems(l, locs)|, l, itemId, |locs|, offset) == AsOutcome(PlaceOf(locs, itemId))
    decreases |locs|
  {
    hide At, ReadSized, LocationFits, BigEndian, WriteItem, WriteExtents, ExtentsFrom;
    EndsInView(view, offset, WriteItems(l, locs));
    if locs != [] {
      var i := locs[0];
      assert i in locs;
      ReadItem(view, offset, l, i, WriteItems(l, locs[1..]));
      var o := offset + IdSize(l.version) + (if l.version == 0 then 0 else 2) + 2 + l.baseOffsetSize + 2;
      ExtentsFit(l, i);
      ExtentsRoundTrip(view, o, l, i.id == itemId, i.base, i.extents);
      ItemsRoundTrip(view, offset + |WriteItem(l, i)|, l, locs[1..], itemId);
    }
  }

  lemma ExtentsFit(l: Layout, i: ItemLocation)
    requires LocationFits(l, i)
    ensures forall e | e in i.extents :: ExtentFits(l, e)
  {
  }

  /** Item tables round trip: the search finds base plus offset, and the length, of the first
      non-empty extent under the id, or nothing if there is none. */
  lemma ItemTableRoundTrip(view: View, start: nat, t: ItemTable, itemId: nat)
    requires TableFits(t) && At(view, start, WriteTable(t))
    ensures start + |WriteTable(t)| <= |view|
    ensures FindExtent(view, start, start + |WriteTable(t)|, itemId) == AsOutcome(PlaceOf(t.items, itemId))
  {
    hide At, BigEndian, Spread, WriteItems, TableHead, WriteTable, TableFits, Pow256, ItemsFrom, LayoutAt, PlaceOf, LocationFits, AsOutcome;
    HeadRead(view, start, t);
    TableParts(view, start, t);
    CountFits(t);
    ReadSpread(view, start + 6, |t.items|, IdSize(t.layout.version));
    ItemsRoundTrip(view, start + 6 + IdSize(t.layout.version), t.layout, t.items, itemId);
  }

  lemma TableParts(view: View, start: nat, t: ItemTable)
    requires TableFits(t) && At(view, start, WriteTable(t))
    ensures start + |WriteTable(t)| <= |view|
    ensures |WriteTable(t)| == 6 + IdSize(t.layout.version) + |WriteItems(t.layout, t.items)| >= 8
    ensures At(view, start + 6, Spread(|t.items|, IdSize(t.layout.version)))
    ensures At(view, start + 6 + IdSize(t.layout.version), WriteItems(t.layout, t.items))
  {
    var head, count, rest := TableHead(t), Spread(|t.items|, IdSize(t.layout.version)), WriteItems(t.layout, t.items);
    hide At, Spread, WriteItems, TableHead;
    EndsInView(view, start, WriteTable(t));
    AtParts(view, start, head, count + rest);
    AtParts(view, start + 6, count, rest);
  }

  lemma CountFits(t: ItemTable)
    requires TableFits(t)
    ensures |t.items| < Pow256(IdSize(t.layout.version)) && t.layout.version <= 2
    ensures forall i | i in t.items :: LocationFits(t.layout, i)
  {
  }

  lemma HeadRead(view: View, start: nat, t: ItemTable)
    requires TableFits(t) && At(view, start, WriteTable(t))
    ensures start + 8 <= |view| && LayoutAt(view, start) == t.layout
  {
    var l := t.layout;
    var whole := WriteTable(t);
    AtParts(view, start, TableHead(t), Spread(|t.items|, IdSize(l.version)) + WriteItems(l, t.items));
    hide At, Spread, WriteItems, WriteTable, Pow256;
    HeadBytes(view, start, TableHead(t));
    EndsInView(view, start, whole);
    assert |whole| >= 8 by { TableIsLong(t); }
    Nibbles(l.offsetSize, l.lengthSize);
    Nibbles(l.baseOffsetSize, if l.version == 0 then t.reserved else l.indexSize);
  }

  lemma TableIsLong(t: ItemTable)
    requires TableFits(t)
    ensures |WriteTable(t)| >= 8
  {
  }

  lemma HeadBytes(view: View, start: nat, head: seq<byte>)
    requires At(view, start, head) && |head| == 6
    ensures start + 6 <= |view| && view[start] == head[0] && view[start + 4] == head[4] && view[start + 5] == head[5]
  {
    AtByte(view, start, head, 0);
    AtByte(view, start, head, 4);
    AtByte(view, start, head, 5);
  }

  lemma Nibbles(high: nat, low: nat)
    requires low < 16
    ensures (high * 16 + low) / 16 == high && (high * 16 + low) % 16 == low
  {
  }
}
