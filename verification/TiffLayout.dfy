/** Writing any directory tree as one document: the header, the three directories, and then the data
    that do not fit their entries. Together with the reader this is a round trip over all trees. */
module TiffLayout {
  import opened Wrappers
  import opened Bytes
  import opened Tiff
  import opened TiffTree

  const Header: seq<Cell> := [Mark, Short(42), Long(8)]

  /** What an entry keeps outside its value field. */
  function DataCells(e: Entry): seq<Cell> {
    match e.payload
    case TextValue(text) => if Inline(e) then [] else TextCells(text)
    case TripleValue(d, m, s) => [Long(d.0), Long(d.1), Long(m.0), Long(m.1), Long(s.0), Long(s.1)]
    case _ => []
  }

  function AllData(es: seq<Entry>): seq<Cell> {
    if es == [] then [] else DataCells(es[0]) + AllData(es[1..])
  }

  /** Where the three directories stand. */
  datatype Frame = Frame(exifAt: nat, gpsAt: nat)

  function PlaceOf(e: Entry, at: nat, frame: Frame): nat {
    if !e.payload.PointerValue? then at
    else if e.tag == ExifPointerTag then frame.exifAt
    else if e.tag == GpsPointerTag then frame.gpsAt
    else e.place
  }

  /** The entries with their data one after another from `at`. */
  function Placed(es: seq<Entry>, at: nat, frame: Frame): (placed: seq<Entry>)
    ensures |placed| == |es|
  {
    if es == [] then []
    else [es[0].(place := PlaceOf(es[0], at, frame))] + Placed(es[1..], at + Size(DataCells(es[0])), frame)
  }

  /** A directory and the link to the next one, of which there is none. */
  function Block(es: seq<Entry>): seq<Cell> {
    DirectoryCells(es) + [Long(0)]
  }

  function DirectorySize(es: seq<Entry>): nat {
    6 + 12 * |es|
  }

  function FrameOf(t: Tree): Frame {
    Frame(8 + DirectorySize(t.main), 8 + DirectorySize(t.main) + DirectorySize(t.exif))
  }

  function DataAt(t: Tree): nat {
    FrameOf(t).gpsAt + DirectorySize(t.gps)
  }

  /** The tree with every place filled in. */
  function Laid(t: Tree): Tree {
    var exifData := DataAt(t) + Size(AllData(t.main));
    Tree(Placed(t.main, DataAt(t), FrameOf(t)),
         Placed(t.exif, exifData, FrameOf(t)),
         Placed(t.gps, exifData + Size(AllData(t.exif)), FrameOf(t)))
  }

  function Written(t: Tree): seq<Cell> {
    var l := Laid(t);
    Header + Block(l.main) + Block(l.exif) + Block(l.gps) + AllData(t.main) + AllData(t.exif) + AllData(t.gps)
  }

  // ---------------------------------------------------------------- which trees can be written

  /** Pointers and coordinates have their own types, texts hold no zero, and no other value calls
      itself a text. */
  predicate Typed(dir: Directory, e: Entry) {
    && (dir.Main? && e.tag in {ExifPointerTag, GpsPointerTag} ==> e.payload.PointerValue?)
    && (dir.GpsDirectory? && e.tag in {2, 4} ==> e.payload.TripleValue?)
    && (e.payload.OtherValue? ==> e.payload.fieldType != AsciiType)
    && (e.payload.TextValue? ==> NoZero(e.payload.text))
  }

  predicate RatioFits(r: (nat, nat)) {
    r.0 < Pow256(4) && r.1 < Pow256(4)
  }

  /** Every number has room in its field. */
  predicate EntryFits(e: Entry) {
    e.tag < Pow256(2) && TypeOf(e) < Pow256(2) && CountOf(e) < Pow256(4) && e.place < Pow256(4)
      && match e.payload
         case TripleValue(d, m, s) => RatioFits(d) && RatioFits(m) && RatioFits(s)
         case OtherValue(_, _, value) => value < Pow256(4)
         case _ => true
  }

  predicate DirectoryFits(dir: Directory, es: seq<Entry>) {
    |es| < Pow256(2) && forall e | e in es :: Typed(dir, e) && EntryFits(e)
  }

  predicate Writable(t: Tree) {
    && DirectoryFits(Main, t.main) && DirectoryFits(ExifDirectory, t.exif) && DirectoryFits(GpsDirectory, t.gps)
    && Size(Written(t)) < Pow256(4)
  }

  // ---------------------------------------------------------------- cells stand where they were put

  lemma {:induction false} FirstPut(pre: seq<Cell>, c: Cell, post: seq<Cell>)
    ensures CellAt(pre + ([c] + post), Size(pre)) == Some(c)
    decreases |pre|
  {
    if pre == [] {
      assert pre + ([c] + post) == [c] + post;
    } else {
      assert (pre + ([c] + post))[0] == pre[0] && (pre + ([c] + post))[1..] == pre[1..] + ([c] + post);
      FirstPut(pre[1..], c, post);
    }
  }

  lemma {:induction false} PutStands(pre: seq<Cell>, part: seq<Cell>, post: seq<Cell>)
    ensures Stands(pre + part + post, Size(pre), part)
    decreases |part|
  {
    hide CellAt, Size;
    if part != [] {
      var whole := pre + part + post;
      FirstPut(pre, part[0], part[1..] + post);
      assert pre + ([part[0]] + (part[1..] + post)) == whole;
      PutStands(pre + [part[0]], part[1..], post);
      assert pre + [part[0]] + part[1..] + post == whole;
      SizeOfParts(pre, [part[0]]);
      OneSize(part[0]);
    }
  }

  lemma OneSize(c: Cell)
    ensures Size([c]) == CellSize(c)
  {
    assert [c][1..] == [];
  }

  lemma {:induction false} EntriesSize(es: seq<Entry>)
    ensures Size(EntriesCells(es)) == 12 * |es|
    decreases |es|
  {
    hide EntryCells;
    if es != [] {
      EntrySize(es[0]);
      SizeOfParts(EntryCells(es[0]), EntriesCells(es[1..]));
      EntriesSize(es[1..]);
    }
  }

  lemma DirectorySized(es: seq<Entry>)
    ensures Size(Block(es)) == DirectorySize(es)
  {
    EntriesSize(es);
    SizeOfParts([Short(|es|)], EntriesCells(es));
    SizeOfParts(DirectoryCells(es), [Long(0)]);
    assert [Short(|es|)][1..] == [] && [Long(0)][1..] == [];
  }

  lemma DirectoryPut(pre: seq<Cell>, es: seq<Entry>, post: seq<Cell>, whole: seq<Cell>)
    requires pre + Block(es) + post == whole
    ensures Stands(whole, Size(pre), DirectoryCells(es))
  {
    hide Stands, Size, DirectoryCells;
    assert pre + DirectoryCells(es) + ([Long(0)] + post) == whole;
    PutStands(pre, DirectoryCells(es), [Long(0)] + post);
  }

  lemma HeaderSized()
    ensures Size(Header) == 8
  {
    assert Header[1..] == [Short(42), Long(8)] && Header[1..][1..] == [Long(8)] && [Long(8)][1..] == [];
    assert Size(Header[1..][1..]) == 4 && Size(Header[1..]) == 6;
  }

  // ---------------------------------------------------------------- directories and data in place

  /** Every entry finds its own data. */
  lemma {:induction false} DataInPlace(pre: seq<Cell>, es: seq<Entry>, post: seq<Cell>, frame: Frame, dir: Directory)
    requires forall e | e in es :: Typed(dir, e)
    requires frame.exifAt > 0 && frame.gpsAt > 0
    ensures forall e | e in Placed(es, Size(pre), frame) :: EntryRight(pre + AllData(es) + post, dir, e)
    decreases |es|
  {
    hide Stands, Size, NoZero, TextCells;
    if es != [] {
      var first := DataCells(es[0]);
      var whole := pre + AllData(es) + post;
      assert whole == pre + first + (AllData(es[1..]) + post) && whole == pre + first + AllData(es[1..]) + post;
      PutStands(pre, first, AllData(es[1..]) + post);
      SizeOfParts(pre, first);
      DataInPlace(pre + first, es[1..], post, frame, dir);
      assert es[0] in es;
      FirstInPlace(whole, es[0], Size(pre), frame, dir);
    }
  }

  lemma FirstInPlace(whole: seq<Cell>, e: Entry, at: nat, frame: Frame, dir: Directory)
    requires Typed(dir, e) && frame.exifAt > 0 && frame.gpsAt > 0 && Stands(whole, at, DataCells(e))
    ensures EntryRight(whole, dir, e.(place := PlaceOf(e, at, frame)))
  {
    hide Stands, NoZero, TextCells;
  }

  /** What can be read of an entry does not depend on its place, and its pointers are the frame's. */
  lemma {:induction false} LastPlaced(es: seq<Entry>, at: nat, frame: Frame, tag: nat)
    ensures LastWith(Placed(es, at, frame), tag).Some? <==> LastWith(es, tag).Some?
    ensures LastWith(es, tag).Some? ==>
      var (e, p) := (LastWith(es, tag).value, LastWith(Placed(es, at, frame), tag).value);
      p.payload == e.payload && e in es && e.tag == tag
      && (e.payload.PointerValue? && tag == ExifPointerTag ==> p.place == frame.exifAt)
      && (e.payload.PointerValue? && tag == GpsPointerTag ==> p.place == frame.gpsAt)
    decreases |es|
  {
    hide Size, DataCells;
    if es != [] {
      var placed := Placed(es, at, frame);
      assert placed[1..] == Placed(es[1..], at + Size(DataCells(es[0])), frame);
      LastPlaced(es[1..], at + Size(DataCells(es[0])), frame, tag);
    }
  }

  lemma SameTexts(es: seq<Entry>, at: nat, frame: Frame, tag: nat)
    ensures TextUnder(Placed(es, at, frame), tag) == TextUnder(es, tag)
    ensures RefUnder(Placed(es, at, frame), tag) == RefUnder(es, tag)
    ensures DegreesUnder(Placed(es, at, frame), tag) == DegreesUnder(es, tag)
    ensures PointerUnder(Placed(es, at, frame), tag).Some? <==> PointerUnder(es, tag).Some?
  {
    hide LastWith, Placed;
    LastPlaced(es, at, frame, tag);
  }

  /** Filling in the places changes nothing that the tree says. */
  lemma SameFields(t: Tree)
    ensures FieldsOf(Laid(t)) == FieldsOf(t)
  {
    hide Placed, TextUnder, RefUnder, DegreesUnder, PointerUnder, Size, AllData, Signed;
    var frame := FrameOf(t);
    var exifData := DataAt(t) + Size(AllData(t.main));
    var gpsData := exifData + Size(AllData(t.exif));
    SameTexts(t.main, DataAt(t), frame, ExifPointerTag);
    SameTexts(t.main, DataAt(t), frame, GpsPointerTag);
    SameTexts(t.exif, exifData, frame, DateTimeOriginalTag);
    SameTexts(t.exif, exifData, frame, CreateDateTag);
    SameTexts(t.gps, gpsData, frame, 1);
    SameTexts(t.gps, gpsData, frame, 2);
    SameTexts(t.gps, gpsData, frame, 3);
    SameTexts(t.gps, gpsData, frame, 4);
  }

  // ---------------------------------------------------------------- the document

  /** The document from its parts, and where each of them begins. */
  lemma PartsStand(m: seq<Entry>, x: seq<Entry>, g: seq<Entry>, rest: seq<Cell>)
    ensures var cells := Header + Block(m) + Block(x) + Block(g) + rest;
      && CellAt(cells, 4) == Some(Long(8))
      && Stands(cells, 8, DirectoryCells(m))
      && Stands(cells, 8 + DirectorySize(m), DirectoryCells(x))
      && Stands(cells, 8 + DirectorySize(m) + DirectorySize(x), DirectoryCells(g))
    ensures Size(Header + Block(m) + Block(x) + Block(g)) == 8 + DirectorySize(m) + DirectorySize(x) + DirectorySize(g)
  {
    hide CellAt, Stands, Size, DirectoryCells, Block;
    var cells := Header + Block(m) + Block(x) + Block(g) + rest;
    HeaderSized();
    DirectorySized(m);
    DirectorySized(x);
    DirectorySized(g);
    SizeOfParts(Header, Block(m));
    SizeOfParts(Header + Block(m), Block(x));
    SizeOfParts(Header + Block(m) + Block(x), Block(g));
    HeaderPut(Block(m) + Block(x) + Block(g) + rest);
    assert Header + (Block(m) + Block(x) + Block(g) + rest) == cells;
    DirectoryPut(Header, m, Block(x) + Block(g) + rest, cells);
    DirectoryPut(Header + Block(m), x, Block(g) + rest, cells);
    DirectoryPut(Header + Block(m) + Block(x), g, rest, cells);
  }

  lemma HeaderPut(rest: seq<Cell>)
    ensures CellAt(Header + rest, 4) == Some(Long(8))
  {
    assert [Mark, Short(42)][1..] == [Short(42)] && [Short(42)][1..] == [] && Size([Short(42)]) == 2;
    FirstPut([Mark, Short(42)], Long(8), rest);
    assert [Mark, Short(42)] + ([Long(8)] + rest) == Header + rest;
  }

  lemma Regrouped(a: seq<Cell>, b: seq<Cell>, c: seq<Cell>)
    ensures a + (b + c) == a + b + c && a + b + c + [] == a + b + c
  {
  }

  /** The entries of the three directories are right in the document. */
  lemma EntriesRight(t: Tree)
    requires DirectoryFits(Main, t.main) && DirectoryFits(ExifDirectory, t.exif) && DirectoryFits(GpsDirectory, t.gps)
    ensures forall e | e in Laid(t).main :: EntryRight(Written(t), Main, e)
    ensures forall e | e in Laid(t).exif :: EntryRight(Written(t), ExifDirectory, e)
    ensures forall e | e in Laid(t).gps :: EntryRight(Written(t), GpsDirectory, e)
  {
    hide Stands, Size, Placed, EntryRight, Block, AllData, Typed, EntryFits;
    var l := Laid(t);
    var head := Header + Block(l.main) + Block(l.exif) + Block(l.gps);
    var (m, x, g) := (AllData(t.main), AllData(t.exif), AllData(t.gps));
    PartsStand(l.main, l.exif, l.gps, m + x + g);
    SizeOfParts(head, m);
    SizeOfParts(head + m, x);
    Regrouped(head + m, x, g);
    DataInPlace(head, t.main, x + g, FrameOf(t), Main);
    DataInPlace(head + m, t.exif, g, FrameOf(t), ExifDirectory);
    DataInPlace(head + m + x, t.gps, [], FrameOf(t), GpsDirectory);
  }

  /** Each part of the document stands where the laid-out tree says. */
  lemma WrittenStands(t: Tree)
    ensures var (cells, l, frame) := (Written(t), Laid(t), FrameOf(t));
      && cells != [] && cells[0] == Mark && CellAt(cells, 4) == Some(Long(8))
      && Stands(cells, 8, DirectoryCells(l.main))
      && Stands(cells, frame.exifAt, DirectoryCells(l.exif))
      && Stands(cells, frame.gpsAt, DirectoryCells(l.gps))
  {
    hide CellAt, Stands, Size, Placed, Block, DirectoryCells, AllData;
    var l := Laid(t);
    var rest := AllData(t.main) + AllData(t.exif) + AllData(t.gps);
    PartsStand(l.main, l.exif, l.gps, rest);
    assert Written(t) == Header + Block(l.main) + Block(l.exif) + Block(l.gps) + rest;
  }

  lemma FramePointers(t: Tree)
    requires DirectoryFits(Main, t.main)
    ensures var (l, frame) := (Laid(t), FrameOf(t));
      && (PointerUnder(l.main, ExifPointerTag).Some? ==> PointerUnder(l.main, ExifPointerTag).value == frame.exifAt)
      && (PointerUnder(l.main, GpsPointerTag).Some? ==> PointerUnder(l.main, GpsPointerTag).value == frame.gpsAt)
  {
    hide Size, Placed, LastWith, AllData, EntryFits;
    LastPlaced(t.main, DataAt(t), FrameOf(t), ExifPointerTag);
    LastPlaced(t.main, DataAt(t), FrameOf(t), GpsPointerTag);
  }

  /** The written document lays the tree out. */
  lemma WrittenLaysOut(t: Tree)
    requires DirectoryFits(Main, t.main) && DirectoryFits(ExifDirectory, t.exif) && DirectoryFits(GpsDirectory, t.gps)
    ensures LaysOut(Written(t), Laid(t), 8)
  {
    hide CellAt, Stands, Written, Laid, EntryRight, DirectoryCells, PointerUnder, DirectoryFits, FrameOf;
    EntriesRight(t);
    WrittenStands(t);
    FramePointers(t);
  }

  // ---------------------------------------------------------------- every number has room

  lemma {:induction false} TextFits(text: seq<byte>)
    ensures forall c | c in TextCells(text) :: CellFits(c)
    decreases |text|
  {
    if text != [] { TextFits(text[1..]); }
  }

  lemma OneEntryFits(e: Entry, place: nat)
    requires EntryFits(e) && place < Pow256(4)
    ensures forall c | c in EntryCells(e.(place := place)) :: CellFits(c)
    ensures forall c | c in DataCells(e) :: CellFits(c)
  {
    hide Pow256;
    if e.payload.TextValue? { TextFits(e.payload.text); }
  }

  lemma {:induction false} EntriesFit(es: seq<Entry>, at: nat, frame: Frame)
    requires forall e | e in es :: EntryFits(e)
    requires at + Size(AllData(es)) < Pow256(4) && frame.exifAt < Pow256(4) && frame.gpsAt < Pow256(4)
    ensures forall c | c in EntriesCells(Placed(es, at, frame)) :: CellFits(c)
    ensures forall c | c in AllData(es) :: CellFits(c)
    decreases |es|
  {
    hide Pow256, Size, CellFits, DataCells, EntryCells;
    if es != [] {
      var place := PlaceOf(es[0], at, frame);
      SizeOfParts(DataCells(es[0]), AllData(es[1..]));
      assert es[0] in es;
      PlaceFits(es[0], at, frame);
      OneEntryFits(es[0], place);
      EntriesFit(es[1..], at + Size(DataCells(es[0])), frame);
      var rest := Placed(es[1..], at + Size(DataCells(es[0])), frame);
      assert Placed(es, at, frame)[0] == es[0].(place := place) && Placed(es, at, frame)[1..] == rest;
    }
  }

  lemma PlaceFits(e: Entry, at: nat, frame: Frame)
    requires EntryFits(e) && at < Pow256(4) && frame.exifAt < Pow256(4) && frame.gpsAt < Pow256(4)
    ensures PlaceOf(e, at, frame) < Pow256(4)
  {
    hide Pow256;
  }

  lemma DirectoryHasRoom(es: seq<Entry>, at: nat, frame: Frame, dir: Directory)
    requires DirectoryFits(dir, es)
    requires at + Size(AllData(es)) < Pow256(4) && frame.exifAt < Pow256(4) && frame.gpsAt < Pow256(4)
    ensures forall c | c in Block(Placed(es, at, frame)) :: CellFits(c)
    ensures forall c | c in AllData(es) :: CellFits(c)
  {
    EntriesFit(es, at, frame);
    hide Size, Typed, EntryFits, EntriesCells, AllData, Placed;
    assert Pow256(4) > 0;
  }

  lemma WrittenFits(t: Tree)
    requires Writable(t)
    ensures forall c | c in Written(t) :: CellFits(c)
  {
    hide Pow256, Size, Placed, DirectoryFits, Block, AllData, CellFits, CellAt, Stands;
    var l := Laid(t);
    var head := Header + Block(l.main) + Block(l.exif) + Block(l.gps);
    var (m, x, g) := (AllData(t.main), AllData(t.exif), AllData(t.gps));
    PartsStand(l.main, l.exif, l.gps, m + x + g);
    SizeOfParts(head, m);
    SizeOfParts(head + m, x);
    SizeOfParts(head + m + x, g);
    DirectoryHasRoom(t.main, DataAt(t), FrameOf(t), Main);
    DirectoryHasRoom(t.exif, DataAt(t) + Size(m), FrameOf(t), ExifDirectory);
    DirectoryHasRoom(t.gps, DataAt(t) + Size(m) + Size(x), FrameOf(t), GpsDirectory);
    HeaderFits();
  }

  lemma HeaderFits()
    ensures forall c | c in Header :: CellFits(c)
  {
    assert Pow256(2) == 65536 && Pow256(4) == 65536 * 65536;
  }

  // ---------------------------------------------------------------- main result

  /** Every tree whose numbers have room can be written, in either byte order and anywhere in a file,
      and what is read back is exactly what the tree says. */
  lemma WriteThenRead(prefix: seq<byte>, t: Tree, little: bool)
    requires Writable(t)
    ensures ParseBytes(File(prefix, Written(t), little), |prefix|) == FieldsOf(t)
  {
    hide LaysOut, Written, Laid, FieldsOf, ParseBytes, File, Size, CellFits, DirectoryFits;
    WrittenLaysOut(t);
    WrittenFits(t);
    SameFields(t);
    TreeRoundTrip(prefix, Written(t), little, Laid(t), 8);
  }

  /** A camera's date: a pointer to the Exif directory and the text there. */
  function Dated(text: seq<byte>): Tree {
    Tree([Entry(ExifPointerTag, PointerValue, 0)], [Entry(DateTimeOriginalTag, TextValue(text), 0)], [])
  }

  lemma DatedIsWritable(text: seq<byte>)
    requires NoZero(text) && |text| + 64 < Pow256(4)
    ensures Writable(Dated(text))
  {
    hide CellAt, Stands, Size, Placed, Block, DirectoryCells, NoZero, TextCells;
    var t := Dated(text);
    var l := Laid(t);
    var head := Header + Block(l.main) + Block(l.exif) + Block(l.gps);
    assert t.main[1..] == [] && t.exif[1..] == [];
    assert AllData(t.main) == [] && AllData(t.gps) == [];
    assert AllData(t.exif) == DataCells(t.exif[0]);
    PartsStand(l.main, l.exif, l.gps, []);
    SizeOfParts(head, AllData(t.exif));
    assert Written(t) == head + AllData(t.exif);
    TextSize(text);
    NothingSized();
    assert Pow256(2) == 65536 && Pow256(4) == 65536 * 65536;
  }

  lemma NothingSized()
    ensures Size([]) == 0
  {
  }

  /** So the date a camera writes is the date that is read, whatever its length. */
  lemma DateIsRead(prefix: seq<byte>, text: seq<byte>, little: bool)
    requires NoZero(text) && |text| + 64 < Pow256(4)
    ensures ParseBytes(File(prefix, Written(Dated(text)), little), |prefix|) == Fields(Some(text), None, None, None)
  {
    hide ParseBytes, File, Written, NoZero, Writable;
    DatedIsWritable(text);
    WriteThenRead(prefix, Dated(text), little);
    OnlyEntry(Dated(text).main[0]);
    OnlyEntry(Dated(text).exif[0]);
    NoneInEmpty();
  }
}
