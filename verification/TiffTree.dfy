/** A TIFF document as TIFF 6.0, section 2, writes it: directories of twelve-byte entries, every value
    in one of two byte orders. What the reader returns is stated on the tree. */
module TiffTree {
  import opened Wrappers
  import opened Bytes
  import opened Tiff

  /** Mark is the byte order mark, written II or MM. */
  datatype Cell = Mark | Byte(b: byte) | Short(value: nat) | Long(value: nat)

  predicate CellFits(c: Cell) {
    match c
    case Short(v) => v < Pow256(2)
    case Long(v) => v < Pow256(4)
    case _ => true
  }

  function CellSize(c: Cell): (n: nat)
    ensures 1 <= n <= 4
  {
    match c
    case Byte(_) => 1
    case Long(_) => 4
    case _ => 2
  }

  function Size(cells: seq<Cell>): nat {
    if cells == [] then 0 else CellSize(cells[0]) + Size(cells[1..])
  }

  function WriteCell(c: Cell, little: bool): (bytes: seq<byte>)
    ensures |bytes| == CellSize(c)
  {
    match c
    case Mark => if little then [0x49, 0x49] else [0x4d, 0x4d]
    case Byte(b) => [b]
    case Short(v) => if little then SpreadLittle(v, 2) else Spread(v, 2)
    case Long(v) => if little then SpreadLittle(v, 4) else Spread(v, 4)
  }

  /** The document in one of the two byte orders. */
  function Encode(cells: seq<Cell>, little: bool): (bytes: seq<byte>)
    ensures |bytes| == Size(cells)
  {
    if cells == [] then [] else WriteCell(cells[0], little) + Encode(cells[1..], little)
  }

  /** The cell that begins at this offset, if one does. */
  function CellAt(cells: seq<Cell>, offset: nat): (c: Option<Cell>)
    ensures c.Some? ==> offset + CellSize(c.value) <= Size(cells) && c.value in cells
  {
    if cells == [] then None
    else if offset == 0 then Some(cells[0])
    else if offset < CellSize(cells[0]) then None
    else CellAt(cells[1..], offset - CellSize(cells[0]))
  }

  function ByteAt(cells: seq<Cell>, base: nat, o: nat): Option<nat> {
    if o < base then None
    else match CellAt(cells, o - base) case Some(Byte(b)) => Some(b as nat) case _ => None
  }

  function ShortAt(cells: seq<Cell>, base: nat, o: nat): Option<nat> {
    if o < base then None
    else match CellAt(cells, o - base) case Some(Short(v)) => Some(v) case _ => None
  }

  function LongAt(cells: seq<Cell>, base: nat, o: nat): Option<nat> {
    if o < base then None
    else match CellAt(cells, o - base) case Some(Long(v)) => Some(v) case _ => None
  }

  /** Reads each value only where it begins and at the width it was written. */
  function CellReader(cells: seq<Cell>, base: nat): Reader {
    Reader(base + Size(cells), o => ByteAt(cells, base, o), o => ShortAt(cells, base, o), o => LongAt(cells, base, o))
  }

  // ---------------------------------------------------------------- both byte orders

  lemma {:induction false} CellWritten(view: View, start: nat, cells: seq<Cell>, little: bool, offset: nat)
    requires At(view, start, Encode(cells, little)) && CellAt(cells, offset).Some?
    ensures At(view, start + offset, WriteCell(CellAt(cells, offset).value, little))
    decreases |cells|
  {
    hide At, WriteCell;
    AtParts(view, start, WriteCell(cells[0], little), Encode(cells[1..], little));
    if offset > 0 { CellWritten(view, start + CellSize(cells[0]), cells[1..], little, offset - CellSize(cells[0])); }
  }

  lemma CellRead(view: View, offset: nat, c: Cell, little: bool)
    requires At(view, offset, WriteCell(c, little)) && CellFits(c)
    ensures !c.Mark? ==> Value(view, offset, CellSize(c), little) == Some(if c.Byte? then c.b as nat else c.value)
  {
    match c
    case Mark =>
    case Byte(b) =>
      AtByte(view, offset, [b], 0);
      assert LittleEndian(view, offset + 1, 0) == 0 && BigEndian(view, offset, 0) == 0;
    case Short(v) => if little { ReadSpreadLittle(view, offset, v, 2); } else { ReadSpread(view, offset, v, 2); }
    case Long(v) => if little { ReadSpreadLittle(view, offset, v, 4); } else { ReadSpread(view, offset, v, 4); }
  }

  lemma CellsAgree(view: View, base: nat, cells: seq<Cell>, little: bool)
    requires |view| == base + Size(cells) && At(view, base, Encode(cells, little)) && forall c | c in cells :: CellFits(c)
    ensures Agrees(CellReader(cells, base), ViewReader(view, little))
  {
    hide At, CellFits;
    forall p: nat | CellAt(cells, p).Some?
      ensures var c := CellAt(cells, p).value;
        !c.Mark? ==> Value(view, base + p, CellSize(c), little) == Some(if c.Byte? then c.b as nat else c.value)
    {
      CellWritten(view, base, cells, little, p);
      CellRead(view, base + p, CellAt(cells, p).value, little);
    }
  }

  function File(prefix: seq<byte>, cells: seq<Cell>, little: bool): View {
    prefix + Encode(cells, little)
  }

  /** A document whose values are read as they were written decodes to the same fields from either
      byte order, at any place in a file. */
  lemma ByteOrderIndependence(prefix: seq<byte>, cells: seq<Cell>, little: bool)
    requires cells != [] && cells[0] == Mark && forall c | c in cells :: CellFits(c)
    requires Parse(CellReader(cells, |prefix|), |prefix|).Some?
    ensures Some(ParseBytes(File(prefix, cells, little), |prefix|)) == Parse(CellReader(cells, |prefix|), |prefix|)
  {
    var view := File(prefix, cells, little);
    var base := |prefix|;
    MarkRead(prefix, cells, little);
    assert At(view, base, Encode(cells, little));
    CellsAgree(view, base, cells, little);
    hide Parse, At, Agrees, CellReader, ViewReader;
    ParseAgrees(CellReader(cells, base), ViewReader(view, little), base);
    if base + 8 > |view| { TooShort(cells, base); }
  }

  lemma TooShort(cells: seq<Cell>, base: nat)
    requires Size(cells) < 8
    ensures Parse(CellReader(cells, base), base) == Some(NoFields)
  {
  }

  lemma MarkRead(prefix: seq<byte>, cells: seq<Cell>, little: bool)
    requires cells != [] && cells[0] == Mark
    ensures |File(prefix, cells, little)| == |prefix| + Size(cells) >= |prefix| + 2
    ensures BigEndian(File(prefix, cells, little), |prefix|, 2) == if little then 0x4949 else 0x4d4d
  {
    var view := File(prefix, cells, little);
    var mark := WriteCell(Mark, little);
    assert At(view, |prefix|, mark + Encode(cells[1..], little));
    AtParts(view, |prefix|, mark, Encode(cells[1..], little));
    AtByte(view, |prefix|, mark, 0);
    AtByte(view, |prefix|, mark, 1);
    assert BigEndian(view, |prefix|, 2) == BigEndian(view, |prefix|, 1) * 256 + view[|prefix| + 1];
  }

  // ---------------------------------------------------------------- the tree

  datatype Payload =
    | TextValue(text: seq<byte>)
    | TripleValue(degree: (nat, nat), minute: (nat, nat), second: (nat, nat))
    | PointerValue
    | OtherValue(fieldType: nat, count: nat, value: nat)

  /** `place` is where the entry's data or directory stands, counted from the byte order mark. */
  datatype Entry = Entry(tag: nat, payload: Payload, place: nat)

  datatype Tree = Tree(main: seq<Entry>, exif: seq<Entry>, gps: seq<Entry>)

  function TypeOf(e: Entry): nat {
    match e.payload
    case TextValue(_) => AsciiType
    case TripleValue(_, _, _) => 5
    case PointerValue => 4
    case OtherValue(fieldType, _, _) => fieldType
  }

  function CountOf(e: Entry): nat {
    match e.payload
    case TextValue(text) => |text| + 1
    case TripleValue(_, _, _) => 3
    case PointerValue => 1
    case OtherValue(_, count, _) => count
  }

  function TextCells(text: seq<byte>): seq<Cell> {
    if text == [] then [Byte(0)] else [Byte(text[0])] + TextCells(text[1..])
  }

  predicate Inline(e: Entry) {
    e.payload.TextValue? && |e.payload.text| < 4
  }

  /** The four bytes of the value field. Short texts stand there themselves, padded. */
  function ValueCells(e: Entry): seq<Cell> {
    if Inline(e) then TextCells(e.payload.text) + seq(3 - |e.payload.text|, _ => Byte(0))
    else [Long(if e.payload.OtherValue? then e.payload.value else e.place)]
  }

  function EntryCells(e: Entry): seq<Cell> {
    [Short(e.tag), Short(TypeOf(e)), Long(CountOf(e))] + ValueCells(e)
  }

  function EntriesCells(es: seq<Entry>): seq<Cell> {
    if es == [] then [] else EntryCells(es[0]) + EntriesCells(es[1..])
  }

  function DirectoryCells(es: seq<Entry>): seq<Cell> {
    [Short(|es|)] + EntriesCells(es)
  }

  /** `part` stands in the document at `offset`. */
  predicate Stands(cells: seq<Cell>, offset: nat, part: seq<Cell>)
    decreases |part|
  {
    part == [] || (CellAt(cells, offset) == Some(part[0]) && Stands(cells, offset + CellSize(part[0]), part[1..]))
  }

  /** The data an entry points to is where it says. */
  predicate DataStands(cells: seq<Cell>, e: Entry) {
    match e.payload
    case TextValue(text) => !Inline(e) ==> Stands(cells, e.place, TextCells(text))
    case TripleValue(d, m, s) => Stands(cells, e.place, [Long(d.0), Long(d.1), Long(m.0), Long(m.1), Long(s.0), Long(s.1)])
    case _ => true
  }

  function LastWith(es: seq<Entry>, tag: nat): Option<Entry> {
    if es == [] then None
    else
      var later := LastWith(es[1..], tag);
      if later.Some? then later else if es[0].tag == tag then Some(es[0]) else None
  }

  predicate NoZero(text: seq<byte>) {
    forall i | 0 <= i < |text| :: text[i] != 0
  }

  /** The text an entry means; an entry of another type means none. */
  function TextOf(e: Entry): seq<nat> {
    if e.payload.TextValue? then e.payload.text else []
  }

  function Fraction(r: (nat, nat)): Option<real> {
    if r.1 == 0 then None else Some(r.0 as real / r.1 as real)
  }

  function DegreesOf(e: Entry): Option<real> {
    if !e.payload.TripleValue? then None
    else
      var (d, m, s) := (Fraction(e.payload.degree), Fraction(e.payload.minute), Fraction(e.payload.second));
      if d.None? || m.None? || s.None? then None else Some(Degrees(d.value, m.value, s.value))
  }

  function TextUnder(es: seq<Entry>, tag: nat): Option<seq<nat>> {
    var e := LastWith(es, tag);
    if e.None? then None else Some(TextOf(e.value))
  }

  function DegreesUnder(es: seq<Entry>, tag: nat): Option<real> {
    var e := LastWith(es, tag);
    if e.None? then None else DegreesOf(e.value)
  }

  function RefUnder(es: seq<Entry>, tag: nat): seq<nat> {
    var t := TextUnder(es, tag);
    if t.None? then [] else t.value
  }

  function PointerUnder(es: seq<Entry>, tag: nat): Option<nat> {
    var e := LastWith(es, tag);
    if e.None? then None else Some(e.value.place)
  }

  /** What the tree says. */
  function FieldsOf(t: Tree): Fields {
    var exif := if PointerUnder(t.main, ExifPointerTag).Some? then t.exif else [];
    var gps := if PointerUnder(t.main, GpsPointerTag).Some? then t.gps else [];
    Fields(TextUnder(exif, DateTimeOriginalTag), TextUnder(exif, CreateDateTag),
           Signed(DegreesUnder(gps, 2), RefUnder(gps, 1), South), Signed(DegreesUnder(gps, 4), RefUnder(gps, 3), West))
  }

  /** Pointers and coordinates have their own types; texts hold no zero and their data is in place. */
  predicate EntryRight(cells: seq<Cell>, dir: Directory, e: Entry) {
    && (dir.Main? && e.tag in {ExifPointerTag, GpsPointerTag} ==> e.payload.PointerValue? && e.place > 0)
    && (dir.GpsDirectory? && e.tag in {2, 4} ==> e.payload.TripleValue?)
    && (e.payload.OtherValue? ==> e.payload.fieldType != AsciiType)
    && (e.payload.TextValue? ==> NoZero(e.payload.text))
    && DataStands(cells, e)
  }

  predicate DirectoryStands(cells: seq<Cell>, dir: Directory, offset: nat, es: seq<Entry>) {
    Stands(cells, offset, DirectoryCells(es)) && forall e | e in es :: EntryRight(cells, dir, e)
  }

  /** The document lays out the tree: mark, first directory, and the directories it points to. */
  predicate LaysOut(cells: seq<Cell>, t: Tree, ifd0: nat) {
    && cells != [] && cells[0] == Mark
    && CellAt(cells, 4) == Some(Long(ifd0))
    && DirectoryStands(cells, Main, ifd0, t.main)
    && (PointerUnder(t.main, ExifPointerTag).Some? ==> DirectoryStands(cells, ExifDirectory, PointerUnder(t.main, ExifPointerTag).value, t.exif))
    && (PointerUnder(t.main, GpsPointerTag).Some? ==> DirectoryStands(cells, GpsDirectory, PointerUnder(t.main, GpsPointerTag).value, t.gps))
  }

  // ---------------------------------------------------------------- reading the tree back

  lemma {:induction false} StandsParts(cells: seq<Cell>, offset: nat, a: seq<Cell>, b: seq<Cell>)
    requires Stands(cells, offset, a + b)
    ensures Stands(cells, offset, a) && Stands(cells, offset + Size(a), b)
    decreases |a|
  {
    if a == [] {
      assert a + b == b;
    } else {
      assert (a + b)[0] == a[0] && (a + b)[1..] == a[1..] + b;
      StandsParts(cells, offset + CellSize(a[0]), a[1..], b);
    }
  }

  lemma {:induction false} StandsInside(cells: seq<Cell>, offset: nat, part: seq<Cell>)
    requires Stands(cells, offset, part) && part != []
    ensures offset + Size(part) <= Size(cells)
    decreases |part|
  {
    if |part| > 1 { StandsInside(cells, offset + CellSize(part[0]), part[1..]); }
  }

  lemma {:induction false} ReadTextCells(cells: seq<Cell>, base: nat, start: nat, text: seq<byte>, left: nat)
    requires Stands(cells, start, TextCells(text)) && NoZero(text) && |text| < left
    ensures Text(CellReader(cells, base), base + start, left) == Some(text)
    decreases |text|
  {
    hide CellAt, Size, CellReader;
    var tc := TextCells(text);
    assert CellAt(cells, start) == Some(tc[0]);
    ByteRead(cells, base, start, if text == [] then 0 else text[0]);
    if text != [] {
      assert tc[1..] == TextCells(text[1..]);
      ReadTextCells(cells, base, start + 1, text[1..], left - 1);
      assert [text[0] as nat] + text[1..] == text;
    }
  }

  lemma ByteRead(cells: seq<Cell>, base: nat, offset: nat, b: byte)
    requires CellAt(cells, offset) == Some(Byte(b))
    ensures var r := CellReader(cells, base); base + offset < r.length && r.u8(base + offset) == Some(b as nat)
  {
    hide CellAt, Size;
  }

  lemma {:induction false} TextSize(text: seq<byte>)
    ensures Size(TextCells(text)) == |text| + 1
    decreases |text|
  {
    if text != [] {
      assert TextCells(text)[1..] == TextCells(text[1..]);
      TextSize(text[1..]);
    }
  }

  lemma {:induction false} PadSize(n: nat)
    ensures Size(seq(n, _ => Byte(0))) == n
  {
    if n > 0 {
      assert seq(n, _ => Byte(0))[1..] == seq(n - 1, _ => Byte(0));
      PadSize(n - 1);
    }
  }

  lemma {:induction false} SizeOfParts(a: seq<Cell>, b: seq<Cell>)
    ensures Size(a + b) == Size(a) + Size(b)
    decreases |a|
  {
    if a == [] {
      assert a + b == b;
    } else {
      assert (a + b)[1..] == a[1..] + b;
      SizeOfParts(a[1..], b);
    }
  }

  lemma EntrySize(e: Entry)
    ensures Size(EntryCells(e)) == 12 && ValueCells(e) != [] && Size(ValueCells(e)) == 4
  {
    var head := [Short(e.tag), Short(TypeOf(e)), Long(CountOf(e))];
    HeadSize(e.tag, TypeOf(e), CountOf(e));
    SizeOfParts(head, ValueCells(e));
    if Inline(e) {
      TextSize(e.payload.text);
      PadSize(3 - |e.payload.text|);
      SizeOfParts(TextCells(e.payload.text), seq(3 - |e.payload.text|, _ => Byte(0)));
    } else {
      var value := ValueCells(e);
      assert value[1..] == [];
    }
  }

  lemma HeadSize(tag: nat, fieldType: nat, count: nat)
    ensures Size([Short(tag), Short(fieldType), Long(count)]) == 8
  {
    var one, two, three := [Long(count)], [Short(fieldType), Long(count)], [Short(tag), Short(fieldType), Long(count)];
    assert one[1..] == [] && two[1..] == one && three[1..] == two;
    assert Size(one) == 4 && Size(two) == 6;
  }

  /** The parts of an entry, where the scan reads them. */
  lemma EntryParts(cells: seq<Cell>, base: nat, offset: nat, e: Entry)
    requires Stands(cells, offset, EntryCells(e))
    ensures var r := CellReader(cells, base);
      && base + offset + 12 <= r.length
      && r.u16(base + offset) == Some(e.tag) && r.u16(base + offset + 2) == Some(TypeOf(e)) && r.u32(base + offset + 4) == Some(CountOf(e))
    ensures Stands(cells, offset + 8, ValueCells(e))
  {
    hide Stands, CellAt, Size, ValueCells, EntryCells, CellReader;
    var rest := ValueCells(e);
    EntryCellsAre(e);
    EntrySize(e);
    StandsInside(cells, offset, EntryCells(e));
    StandsFirst(cells, offset, Short(e.tag), [Short(TypeOf(e))] + ([Long(CountOf(e))] + rest));
    StandsFirst(cells, offset + 2, Short(TypeOf(e)), [Long(CountOf(e))] + rest);
    StandsFirst(cells, offset + 4, Long(CountOf(e)), rest);
    ReaderReads(cells, base, offset, Short(e.tag));
    ReaderReads(cells, base, offset + 2, Short(TypeOf(e)));
    ReaderReads(cells, base, offset + 4, Long(CountOf(e)));
  }

  lemma EntryCellsAre(e: Entry)
    ensures EntryCells(e) == [Short(e.tag)] + ([Short(TypeOf(e))] + ([Long(CountOf(e))] + ValueCells(e)))
    ensures EntryCells(e) != []
  {
    hide ValueCells;
  }

  lemma StandsFirst(cells: seq<Cell>, offset: nat, c: Cell, rest: seq<Cell>)
    requires Stands(cells, offset, [c] + rest)
    ensures CellAt(cells, offset) == Some(c) && Stands(cells, offset + CellSize(c), rest)
  {
    hide CellAt, Size;
    assert ([c] + rest)[1..] == rest;
  }

  lemma ReaderReads(cells: seq<Cell>, base: nat, offset: nat, c: Cell)
    requires CellAt(cells, offset) == Some(c)
    ensures var r := CellReader(cells, base);
      && r.length == base + Size(cells) && base + offset + CellSize(c) <= r.length
      && (c.Short? ==> r.u16(base + offset) == Some(c.value)) && (c.Long? ==> r.u32(base + offset) == Some(c.value))
  {
    hide CellAt, Size;
  }

  lemma TextRead(cells: seq<Cell>, base: nat, data: nat, e: Entry)
    requires Stands(cells, data, ValueCells(e)) && DataStands(cells, e) && (e.payload.TextValue? ==> NoZero(e.payload.text))
    requires e.payload.OtherValue? ==> e.payload.fieldType != AsciiType
    ensures ReadAscii(CellReader(cells, base), base, TypeOf(e), CountOf(e), base + data) == Some(TextOf(e))
  {
    if e.payload.TextValue? {
      var text := e.payload.text;
      if Inline(e) {
        StandsParts(cells, data, TextCells(text), seq(3 - |text|, _ => Byte(0)));
        ReadTextCells(cells, base, data, text, |text| + 1);
      } else {
        ReadTextCells(cells, base, e.place, text, |text| + 1);
      }
    }
  }

  lemma FractionRead(cells: seq<Cell>, base: nat, place: nat, a: nat, b: nat)
    requires CellAt(cells, place) == Some(Long(a)) && CellAt(cells, place + 4) == Some(Long(b))
    ensures Rational(CellReader(cells, base), base + place) == Some(Fraction((a, b)))
  {
    hide CellAt, Size;
    assert place + 8 <= Size(cells);
  }

  lemma TripleRead(cells: seq<Cell>, base: nat, data: nat, e: Entry)
    requires Stands(cells, data, ValueCells(e)) && e.payload.TripleValue? && DataStands(cells, e)
    ensures Triple(CellReader(cells, base), base, base + data) == Some(DegreesOf(e))
  {
    var (d, m, s) := (e.payload.degree, e.payload.minute, e.payload.second);
    SixLongs(cells, e.place, d.0, d.1, m.0, m.1, s.0, s.1);
    assert CellAt(cells, data) == Some(Long(e.place));
    TripleOfFractions(cells, base, data, e);
  }

  lemma TripleOfFractions(cells: seq<Cell>, base: nat, data: nat, e: Entry)
    requires e.payload.TripleValue? && CellAt(cells, data) == Some(Long(e.place))
    requires var (d, m, s) := (e.payload.degree, e.payload.minute, e.payload.second); var o := e.place;
      && CellAt(cells, o) == Some(Long(d.0)) && CellAt(cells, o + 4) == Some(Long(d.1)) && CellAt(cells, o + 8) == Some(Long(m.0))
      && CellAt(cells, o + 12) == Some(Long(m.1)) && CellAt(cells, o + 16) == Some(Long(s.0)) && CellAt(cells, o + 20) == Some(Long(s.1))
    ensures Triple(CellReader(cells, base), base, base + data) == Some(DegreesOf(e))
  {
    hide CellAt, Size, Rational, Fraction, Degrees;
    var (d, m, s) := (e.payload.degree, e.payload.minute, e.payload.second);
    FractionRead(cells, base, e.place, d.0, d.1);
    FractionRead(cells, base, e.place + 8, m.0, m.1);
    FractionRead(cells, base, e.place + 16, s.0, s.1);
    assert base + e.place + 8 == base + (e.place + 8) && base + e.place + 16 == base + (e.place + 16);
  }

  lemma SixLongs(cells: seq<Cell>, o: nat, a: nat, b: nat, c: nat, d: nat, e: nat, f: nat)
    requires Stands(cells, o, [Long(a), Long(b), Long(c), Long(d), Long(e), Long(f)])
    ensures CellAt(cells, o) == Some(Long(a)) && CellAt(cells, o + 4) == Some(Long(b)) && CellAt(cells, o + 8) == Some(Long(c))
    ensures CellAt(cells, o + 12) == Some(Long(d)) && CellAt(cells, o + 16) == Some(Long(e)) && CellAt(cells, o + 20) == Some(Long(f))
  {
    hide CellAt, Size;
    var l := [Long(a), Long(b), Long(c), Long(d), Long(e), Long(f)];
    assert l[1..] == [Long(b), Long(c), Long(d), Long(e), Long(f)];
    assert l[1..][1..] == [Long(c), Long(d), Long(e), Long(f)];
    assert l[1..][1..][1..] == [Long(d), Long(e), Long(f)];
    assert l[1..][1..][1..][1..] == [Long(e), Long(f)];
    assert l[1..][1..][1..][1..][1..] == [Long(f)];
    assert Stands(cells, o + 4, l[1..]) && Stands(cells, o + 8, l[1..][1..]) && Stands(cells, o + 12, l[1..][1..][1..]);
    assert Stands(cells, o + 16, l[1..][1..][1..][1..]) && Stands(cells, o + 20, l[1..][1..][1..][1..][1..]);
  }

  // ---------------------------------------------------------------- what a directory leaves behind

  /** The state after a directory: the last entry of each tag that matters. */
  function Left(dir: Directory, base: nat, s: State, es: seq<Entry>): State {
    match dir
    case Main =>
      s.(exifPtr := if LastWith(es, ExifPointerTag).Some? then base + LastWith(es, ExifPointerTag).value.place else s.exifPtr,
         gpsPtr := if LastWith(es, GpsPointerTag).Some? then base + LastWith(es, GpsPointerTag).value.place else s.gpsPtr)
    case ExifDirectory =>
      s.(dateTimeOriginal := if LastWith(es, DateTimeOriginalTag).Some? then TextUnder(es, DateTimeOriginalTag) else s.dateTimeOriginal,
         createDate := if LastWith(es, CreateDateTag).Some? then TextUnder(es, CreateDateTag) else s.createDate)
    case GpsDirectory =>
      s.(latRef := if LastWith(es, 1).Some? then RefUnder(es, 1) else s.latRef,
         lonRef := if LastWith(es, 3).Some? then RefUnder(es, 3) else s.lonRef,
         latitude := if LastWith(es, 2).Some? then DegreesUnder(es, 2) else s.latitude,
         longitude := if LastWith(es, 4).Some? then DegreesUnder(es, 4) else s.longitude)
  }

  /** One entry's effect. */
  function LeftByOne(dir: Directory, base: nat, s: State, e: Entry): State {
    match dir
    case Main =>
      if e.tag == ExifPointerTag then s.(exifPtr := base + e.place)
      else if e.tag == GpsPointerTag then s.(gpsPtr := base + e.place) else s
    case ExifDirectory =>
      if e.tag == DateTimeOriginalTag then s.(dateTimeOriginal := Some(TextOf(e)))
      else if e.tag == CreateDateTag then s.(createDate := Some(TextOf(e))) else s
    case GpsDirectory =>
      if e.tag == 1 then s.(latRef := TextOf(e))
      else if e.tag == 3 then s.(lonRef := TextOf(e))
      else if e.tag == 2 then s.(latitude := DegreesOf(e))
      else if e.tag == 4 then s.(longitude := DegreesOf(e)) else s
  }

  lemma LeftOfOne(dir: Directory, base: nat, s: State, e: Entry)
    ensures Left(dir, base, s, [e]) == LeftByOne(dir, base, s, e)
  {
    hide TextOf, DegreesOf;
    OnlyEntry(e);
  }

  lemma VisitMeans(cells: seq<Cell>, base: nat, dir: Directory, s: State, offset: nat, e: Entry)
    requires Stands(cells, offset, EntryCells(e)) && EntryRight(cells, dir, e)
    ensures VisitAt(CellReader(cells, base), base, dir, s, base + offset) == Some(Left(dir, base, s, [e]))
  {
    hide CellReader, EntryCells, Left, Visit, LeftByOne;
    EntryParts(cells, base, offset, e);
    LeftOfOne(dir, base, s, e);
    match dir
    case Main => VisitMain(cells, base, s, offset + 8, e);
    case ExifDirectory => VisitExif(cells, base, s, offset + 8, e);
    case GpsDirectory => VisitGps(cells, base, s, offset + 8, e);
  }

  lemma VisitMain(cells: seq<Cell>, base: nat, s: State, data: nat, e: Entry)
    requires Stands(cells, data, ValueCells(e)) && EntryRight(cells, Main, e)
    ensures Visit(CellReader(cells, base), base, Main, s, e.tag, TypeOf(e), CountOf(e), base + data) == Some(LeftByOne(Main, base, s, e))
  {
    hide CellReader, Stands, DataStands;
    if e.tag in {ExifPointerTag, GpsPointerTag} { PointerRead(cells, base, data, e); }
  }

  lemma VisitExif(cells: seq<Cell>, base: nat, s: State, data: nat, e: Entry)
    requires Stands(cells, data, ValueCells(e)) && EntryRight(cells, ExifDirectory, e)
    ensures Visit(CellReader(cells, base), base, ExifDirectory, s, e.tag, TypeOf(e), CountOf(e), base + data)
      == Some(LeftByOne(ExifDirectory, base, s, e))
  {
    hide CellReader, Stands, DataStands, ReadAscii, TextOf, NoZero;
    TextRead(cells, base, data, e);
  }

  lemma VisitGps(cells: seq<Cell>, base: nat, s: State, data: nat, e: Entry)
    requires Stands(cells, data, ValueCells(e)) && EntryRight(cells, GpsDirectory, e)
    ensures Visit(CellReader(cells, base), base, GpsDirectory, s, e.tag, TypeOf(e), CountOf(e), base + data)
      == Some(LeftByOne(GpsDirectory, base, s, e))
  {
    hide CellReader, Stands, DataStands, ReadAscii, TextOf, NoZero, Triple, DegreesOf;
    TextRead(cells, base, data, e);
    if e.tag in {2, 4} { TripleRead(cells, base, data, e); }
  }

  lemma PointerRead(cells: seq<Cell>, base: nat, data: nat, e: Entry)
    requires Stands(cells, data, ValueCells(e)) && e.payload.PointerValue?
    ensures CellReader(cells, base).u32(base + data) == Some(e.place)
  {
    hide CellAt, Size;
    assert CellAt(cells, data) == Some(Long(e.place));
  }

  lemma OnlyEntry(e: Entry)
    ensures forall tag :: LastWith([e], tag) == if e.tag == tag then Some(e) else None
  {
    assert [e][1..] == [];
  }

  lemma LeftOneByOne(dir: Directory, base: nat, s: State, es: seq<Entry>)
    requires es != []
    ensures Left(dir, base, Left(dir, base, s, [es[0]]), es[1..]) == Left(dir, base, s, es)
  {
    OnlyEntry(es[0]);
  }

  lemma {:induction false} EntriesMean(cells: seq<Cell>, base: nat, dir: Directory, s: State, offset: nat, es: seq<Entry>)
    requires Stands(cells, offset, EntriesCells(es)) && forall e | e in es :: EntryRight(cells, dir, e)
    ensures EntriesFrom(CellReader(cells, base), base, dir, s, |es|, base + offset) == Some(Left(dir, base, s, es))
    decreases |es|
  {
    hide CellReader, VisitAt, EntryRight;
    if es != [] {
      assert es[0] in es;
      StandsParts(cells, offset, EntryCells(es[0]), EntriesCells(es[1..]));
      EntrySize(es[0]);
      EntryParts(cells, base, offset, es[0]);
      VisitMeans(cells, base, dir, s, offset, es[0]);
      EntriesMean(cells, base, dir, Left(dir, base, s, [es[0]]), offset + 12, es[1..]);
      LeftOneByOne(dir, base, s, es);
    }
  }

  lemma DirectoryMeans(cells: seq<Cell>, base: nat, dir: Directory, s: State, offset: nat, es: seq<Entry>)
    requires DirectoryStands(cells, dir, offset, es)
    ensures Scan(CellReader(cells, base), base, dir, s, base + offset) == Some(Left(dir, base, s, es))
    ensures offset + 2 <= Size(cells)
  {
    hide EntryRight, EntriesFrom, Left, EntriesCells, Stands, CellAt, Size, CellReader;
    StandsFirst(cells, offset, Short(|es|), EntriesCells(es));
    ReaderReads(cells, base, offset, Short(|es|));
    EntriesMean(cells, base, dir, s, offset + 2, es);
  }

  /** A directory that claims more entries than the file holds is read as far as it goes. */
  lemma TruncatedDirectory(cells: seq<Cell>, base: nat, dir: Directory, s: State, offset: nat, es: seq<Entry>, claimed: nat)
    requires CellAt(cells, offset) == Some(Short(claimed)) && Stands(cells, offset + 2, EntriesCells(es)) && claimed >= |es|
    requires forall e | e in es :: EntryRight(cells, dir, e)
    requires claimed == |es| || Size(cells) < offset + 2 + 12 * (|es| + 1)
    ensures Scan(CellReader(cells, base), base, dir, s, base + offset) == Some(Left(dir, base, s, es))
  {
    hide EntryRight, EntriesFrom, Left, EntriesCells, Stands, CellAt, Size, CellReader;
    ReaderReads(cells, base, offset, Short(claimed));
    TruncatedEntries(cells, base, dir, s, offset + 2, es, claimed);
  }

  lemma {:induction false} TruncatedEntries(cells: seq<Cell>, base: nat, dir: Directory, s: State, offset: nat, es: seq<Entry>, claimed: nat)
    requires Stands(cells, offset, EntriesCells(es)) && (forall e | e in es :: EntryRight(cells, dir, e)) && claimed >= |es|
    requires claimed == |es| || Size(cells) < offset + 12 * (|es| + 1)
    ensures EntriesFrom(CellReader(cells, base), base, dir, s, claimed, base + offset) == Some(Left(dir, base, s, es))
    decreases |es|
  {
    hide CellReader, VisitAt, EntryRight, Size, CellAt, Stands, Left, EntryCells;
    if es == [] {
      assert CellReader(cells, base).length == base + Size(cells) by { ReaderLength(cells, base); }
      NothingLeft(dir, base, s);
    } else {
      assert es[0] in es;
      StandsParts(cells, offset, EntryCells(es[0]), EntriesCells(es[1..]));
      EntrySize(es[0]);
      EntryParts(cells, base, offset, es[0]);
      VisitMeans(cells, base, dir, s, offset, es[0]);
      TruncatedEntries(cells, base, dir, Left(dir, base, s, [es[0]]), offset + 12, es[1..], claimed - 1);
      LeftOneByOne(dir, base, s, es);
    }
  }

  lemma ReaderLength(cells: seq<Cell>, base: nat)
    ensures CellReader(cells, base).length == base + Size(cells)
  {
  }

  lemma NothingLeft(dir: Directory, base: nat, s: State)
    ensures Left(dir, base, s, []) == s
  {
    NoneInEmpty();
  }

  /** A text is cut at its count, or where the file ends. */
  lemma {:induction false} TextIsCut(cells: seq<Cell>, base: nat, start: nat, text: seq<byte>, count: nat)
    requires Stands(cells, start, Plain(text)) && NoZero(text)
    requires count <= |text| || start + |text| == Size(cells)
    ensures Text(CellReader(cells, base), base + start, count) == Some(if count < |text| then text[..count] else text)
    decreases |text|
  {
    hide CellAt, Size, CellReader;
    ReaderLength(cells, base);
    if text != [] && count > 0 {
      var tc := Plain(text);
      assert CellAt(cells, start) == Some(tc[0]) && tc[1..] == Plain(text[1..]);
      ByteRead(cells, base, start, text[0]);
      TextIsCut(cells, base, start + 1, text[1..], count - 1);
      assert [text[0] as nat] + text[1..] == text;
      assert count < |text| ==> [text[0] as nat] + text[1..][..count - 1] == text[..count];
    }
  }

  /** A text without its closing zero. */
  function Plain(text: seq<byte>): seq<Cell> {
    if text == [] then [] else [Byte(text[0])] + Plain(text[1..])
  }

  /** A document that lays out a tree is read back as exactly what the tree says, in either byte order. */
  lemma TreeRoundTrip(prefix: seq<byte>, cells: seq<Cell>, little: bool, t: Tree, ifd0: nat)
    requires LaysOut(cells, t, ifd0) && forall c | c in cells :: CellFits(c)
    ensures ParseBytes(File(prefix, cells, little), |prefix|) == FieldsOf(t)
  {
    hide ParseBytes, File, Parse, FieldsOf, CellFits;
    TreeMeans(cells, |prefix|, t, ifd0);
    ByteOrderIndependence(prefix, cells, little);
  }

  lemma TreeMeans(cells: seq<Cell>, base: nat, t: Tree, ifd0: nat)
    requires LaysOut(cells, t, ifd0)
    ensures Parse(CellReader(cells, base), base) == Some(FieldsOf(t))
  {
    hide Scan, DirectoryStands, LastWith, CellAt, Size;
    var r := CellReader(cells, base);
    assert r.u32(base + 4) == Some(ifd0) && base + 8 <= r.length;
    DirectoryMeans(cells, base, Main, Begin, ifd0, t.main);
    var main := Left(Main, base, Begin, t.main);
    var exifAt, gpsAt := PointerUnder(t.main, ExifPointerTag), PointerUnder(t.main, GpsPointerTag);
    PointersPositive(cells, t.main, ifd0);
    if exifAt.Some? { DirectoryMeans(cells, base, ExifDirectory, main, exifAt.value, t.exif); }
    var exif := if exifAt.Some? then Left(ExifDirectory, base, main, t.exif) else main;
    if gpsAt.Some? { DirectoryMeans(cells, base, GpsDirectory, exif, gpsAt.value, t.gps); }
    NoneInEmpty();
  }

  lemma NoneInEmpty()
    ensures forall tag :: LastWith([], tag) == None
  {
  }

  lemma {:induction false} PointersPositive(cells: seq<Cell>, es: seq<Entry>, ifd0: nat)
    requires DirectoryStands(cells, Main, ifd0, es)
    ensures PointerUnder(es, ExifPointerTag).Some? ==> PointerUnder(es, ExifPointerTag).value > 0
    ensures PointerUnder(es, GpsPointerTag).Some? ==> PointerUnder(es, GpsPointerTag).value > 0
  {
    LastIsOne(es, ExifPointerTag);
    LastIsOne(es, GpsPointerTag);
  }

  lemma {:induction false} LastIsOne(es: seq<Entry>, tag: nat)
    ensures LastWith(es, tag).Some? ==> LastWith(es, tag).value in es && LastWith(es, tag).value.tag == tag
    decreases |es|
  {
    if es != [] { LastIsOne(es[1..], tag); }
  }
}
