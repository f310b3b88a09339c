/** The TIFF block inside Exif data: one reader of image file directories over any source of 8-, 16-
    and 32-bit values, so that both byte orders, and the directory tree they encode, can be compared. */
module Tiff {
  import opened Wrappers
  import opened Bytes

  /** Where values come from. None: the source has no value of that width there. */
  datatype Reader = Reader(length: nat, u8: nat -> Option<nat>, u16: nat -> Option<nat>, u32: nat -> Option<nat>)

  /** What parseTiff collects: dates as raw text, coordinates as exact fractions. */
  datatype Fields = Fields(
    dateTimeOriginal: Option<seq<nat>>,
    createDate: Option<seq<nat>>,
    latitude: Option<real>,
    longitude: Option<real>)

  const NoFields := Fields(None, None, None, None)

  datatype Directory = Main | ExifDirectory | GpsDirectory

  /** The variables the callbacks assign; 0 in a pointer means none. */
  datatype State = State(
    exifPtr: nat,
    gpsPtr: nat,
    dateTimeOriginal: Option<seq<nat>>,
    createDate: Option<seq<nat>>,
    latRef: seq<nat>,
    lonRef: seq<nat>,
    latitude: Option<real>,
    longitude: Option<real>)

  const Begin := State(0, 0, None, None, [], [], None, None)

  // ---------------------------------------------------------------- values of entries

  /** Bytes from `start` up to a zero, `left` bytes, or the end of the source. */
  function Text(r: Reader, start: nat, left: nat): Option<seq<nat>>
    decreases left
  {
    if left == 0 || start >= r.length then Some([])
    else if r.u8(start).None? then None
    else if r.u8(start).value == 0 then Some([])
    else
      var rest := Text(r, start + 1, left - 1);
      if rest.None? then None else Some([r.u8(start).value] + rest.value)
  }

  const AsciiType := 2

  /** readAscii: up to four bytes stand in the entry itself. */
  function ReadAscii(r: Reader, base: nat, fieldType: nat, count: nat, data: nat): Option<seq<nat>> {
    if fieldType != AsciiType then Some([])
    else if count <= 4 then Text(r, data, count)
    else if r.u32(data).None? then None
    else Text(r, base + r.u32(data).value, count)
  }

  /** A fraction; None inside for a zero denominator or a place past the end (NaN in the program). */
  function Rational(r: Reader, pointer: nat): Option<Option<real>> {
    if pointer + 8 > r.length then Some(None)
    else if r.u32(pointer + 4).None? then None
    else if r.u32(pointer + 4).value == 0 then Some(None)
    else if r.u32(pointer).None? then None
    else Some(Some(r.u32(pointer).value as real / r.u32(pointer + 4).value as real))
  }

  function Degrees(degree: real, minute: real, second: real): real {
    degree + minute / 60.0 + second / 3600.0
  }

  /** Degrees, minutes and seconds, if all three are numbers. */
  function Triple(r: Reader, base: nat, data: nat): Option<Option<real>> {
    if r.u32(data).None? then None
    else
      var pointer := base + r.u32(data).value;
      var (d, m, s) := (Rational(r, pointer), Rational(r, pointer + 8), Rational(r, pointer + 16));
      if d.None? || m.None? || s.None? then None
      else if d.value.None? || m.value.None? || s.value.None? then Some(None)
      else Some(Some(Degrees(d.value.value, m.value.value, s.value.value)))
  }

  // ---------------------------------------------------------------- directories

  const ExifPointerTag := 0x8769
  const GpsPointerTag := 0x8825
  const DateTimeOriginalTag := 0x9003
  const CreateDateTag := 0x9004

  /** The callback of a directory, applied to one entry. A later entry of the same tag wins. */
  function Visit(r: Reader, base: nat, dir: Directory, s: State, tag: nat, fieldType: nat, count: nat, data: nat): Option<State> {
    match dir
    case Main =>
      if tag != ExifPointerTag && tag != GpsPointerTag then Some(s)
      else if r.u32(data).None? then None
      else if tag == ExifPointerTag then Some(s.(exifPtr := base + r.u32(data).value))
      else Some(s.(gpsPtr := base + r.u32(data).value))
    case ExifDirectory =>
      if tag != DateTimeOriginalTag && tag != CreateDateTag then Some(s)
      else
        var text := ReadAscii(r, base, fieldType, count, data);
        if text.None? then None
        else if tag == DateTimeOriginalTag then Some(s.(dateTimeOriginal := text))
        else Some(s.(createDate := text))
    case GpsDirectory =>
      if tag == 1 || tag == 3 then
        var text := ReadAscii(r, base, fieldType, count, data);
        if text.None? then None
        else if tag == 1 then Some(s.(latRef := text.value)) else Some(s.(lonRef := text.value))
      else if tag == 2 || tag == 4 then
        var degrees := Triple(r, base, data);
        if degrees.None? then None
        else if tag == 2 then Some(s.(latitude := degrees.value)) else Some(s.(longitude := degrees.value))
      else Some(s)
  }

  function VisitAt(r: Reader, base: nat, dir: Directory, s: State, entry: nat): Option<State> {
    var (tag, fieldType, count) := (r.u16(entry), r.u16(entry + 2), r.u32(entry + 4));
    if tag.None? || fieldType.None? || count.None? then None
    else Visit(r, base, dir, s, tag.value, fieldType.value, count.value, entry + 8)
  }

  function EntriesFrom(r: Reader, base: nat, dir: Directory, s: State, left: nat, entry: nat): Option<State>
    decreases left
  {
    if left == 0 || entry + 12 > r.length then Some(s)
    else
      var next := VisitAt(r, base, dir, s, entry);
      if next.None? then None else EntriesFrom(r, base, dir, next.value, left - 1, entry + 12)
  }

  function Scan(r: Reader, base: nat, dir: Directory, s: State, position: nat): Option<State> {
    if position < base || position + 2 > r.length then Some(s)
    else if r.u16(position).None? then None
    else EntriesFrom(r, base, dir, s, r.u16(position).value, position + 2)
  }

  const South: seq<nat> := [0x53]
  const West: seq<nat> := [0x57]

  function Signed(value: Option<real>, ref: seq<nat>, negative: seq<nat>): Option<real> {
    if value.Some? && ref == negative then Some(-value.value) else value
  }

  function Result(s: State): Fields {
    Fields(s.dateTimeOriginal, s.createDate, Signed(s.latitude, s.latRef, South), Signed(s.longitude, s.lonRef, West))
  }

  function ScanIf(r: Reader, base: nat, dir: Directory, s: Option<State>, position: nat): Option<State> {
    if s.None? || position == 0 then s else Scan(r, base, dir, s.value, position)
  }

  /** Everything after the byte order mark. */
  function Parse(r: Reader, base: nat): Option<Fields> {
    if base + 8 > r.length then Some(NoFields)
    else if r.u32(base + 4).None? then None
    else
      var ifd0 := base + r.u32(base + 4).value;
      if ifd0 + 2 > r.length then Some(NoFields)
      else
        var main := Scan(r, base, Main, Begin, ifd0);
        if main.None? then None
        else
          var exif := ScanIf(r, base, ExifDirectory, main, main.value.exifPtr);
          var gps := ScanIf(r, base, GpsDirectory, exif, main.value.gpsPtr);
          if gps.None? then None else Some(Result(gps.value))
  }

  // ---------------------------------------------------------------- less informed readers

  /** Whatever `a` can answer, `b` answers the same. */
  ghost predicate Agrees(a: Reader, b: Reader) {
    && a.length == b.length
    && (forall o :: a.u8(o).Some? ==> b.u8(o) == a.u8(o))
    && (forall o :: a.u16(o).Some? ==> b.u16(o) == a.u16(o))
    && (forall o :: a.u32(o).Some? ==> b.u32(o) == a.u32(o))
  }

  lemma {:induction false} TextAgrees(a: Reader, b: Reader, start: nat, left: nat)
    requires Agrees(a, b) && Text(a, start, left).Some?
    ensures Text(b, start, left) == Text(a, start, left)
    decreases left
  {
    if left > 0 && start < a.length && a.u8(start).Some? && a.u8(start).value != 0 { TextAgrees(a, b, start + 1, left - 1); }
  }

  lemma AsciiAgrees(a: Reader, b: Reader, base: nat, fieldType: nat, count: nat, data: nat)
    requires Agrees(a, b) && ReadAscii(a, base, fieldType, count, data).Some?
    ensures ReadAscii(b, base, fieldType, count, data) == ReadAscii(a, base, fieldType, count, data)
  {
    if fieldType == AsciiType {
      TextAgrees(a, b, if count <= 4 then data else base + a.u32(data).value, count);
    }
  }

  lemma VisitAgrees(a: Reader, b: Reader, base: nat, dir: Directory, s: State, entry: nat)
    requires Agrees(a, b) && VisitAt(a, base, dir, s, entry).Some?
    ensures VisitAt(b, base, dir, s, entry) == VisitAt(a, base, dir, s, entry)
  {
    hide Text;
    var tag, fieldType, count := a.u16(entry).value, a.u16(entry + 2).value, a.u32(entry + 4).value;
    if (dir.ExifDirectory? && tag in {DateTimeOriginalTag, CreateDateTag}) || (dir.GpsDirectory? && tag in {1, 3}) {
      AsciiAgrees(a, b, base, fieldType, count, entry + 8);
    }
  }

  lemma {:induction false} EntriesAgree(a: Reader, b: Reader, base: nat, dir: Directory, s: State, left: nat, entry: nat)
    requires Agrees(a, b) && EntriesFrom(a, base, dir, s, left, entry).Some?
    ensures EntriesFrom(b, base, dir, s, left, entry) == EntriesFrom(a, base, dir, s, left, entry)
    decreases left
  {
    hide VisitAt;
    if left > 0 && entry + 12 <= a.length {
      VisitAgrees(a, b, base, dir, s, entry);
      EntriesAgree(a, b, base, dir, VisitAt(a, base, dir, s, entry).value, left - 1, entry + 12);
    }
  }

  lemma ScanAgrees(a: Reader, b: Reader, base: nat, dir: Directory, s: State, position: nat)
    requires Agrees(a, b) && Scan(a, base, dir, s, position).Some?
    ensures Scan(b, base, dir, s, position) == Scan(a, base, dir, s, position)
  {
    hide EntriesFrom;
    if base <= position && position + 2 <= a.length {
      EntriesAgree(a, b, base, dir, s, a.u16(position).value, position + 2);
    }
  }

  /** A reader that can answer more gives the same fields. */
  lemma ParseAgrees(a: Reader, b: Reader, base: nat)
    requires Agrees(a, b) && Parse(a, base).Some?
    ensures Parse(b, base) == Parse(a, base)
  {
    hide Scan;
    if base + 8 <= a.length && base + a.u32(base + 4).value + 2 <= a.length {
      ScanAgrees(a, b, base, Main, Begin, base + a.u32(base + 4).value);
      var main := Scan(a, base, Main, Begin, base + a.u32(base + 4).value).value;
      if main.exifPtr != 0 { ScanAgrees(a, b, base, ExifDirectory, main, main.exifPtr); }
      var exif := ScanIf(a, base, ExifDirectory, Some(main), main.exifPtr).value;
      if main.gpsPtr != 0 { ScanAgrees(a, b, base, GpsDirectory, exif, main.gpsPtr); }
    }
  }

  // ---------------------------------------------------------------- bytes as a reader

  function Value(view: View, offset: nat, n: nat, little: bool): Option<nat> {
    if offset + n > |view| then None else Some(if little then LittleEndian(view, offset, n) else BigEndian(view, offset, n))
  }

  function ViewReader(view: View, little: bool): Reader {
    Reader(|view|, o => Value(view, o, 1, little), o => Value(view, o, 2, little), o => Value(view, o, 4, little))
  }

  /** parseTiff on bytes: the byte order mark decides. */
  function ParseBytes(view: View, base: nat): Fields {
    if base + 8 > |view| then NoFields
    else
      var marker := BigEndian(view, base, 2);
      if marker != 0x4949 && marker != 0x4d4d then NoFields
      else
        var fields := Parse(ViewReader(view, marker == 0x4949), base);
        if fields.Some? then fields.value else NoFields
  }

  // ---------------------------------------------------------------- no read past the end

  /** A source that has a value wherever one fits. */
  ghost predicate Complete(r: Reader) {
    && (forall o: nat | o + 1 <= r.length :: r.u8(o).Some?)
    && (forall o: nat | o + 2 <= r.length :: r.u16(o).Some?)
    && (forall o: nat | o + 4 <= r.length :: r.u32(o).Some?)
  }

  lemma {:induction false} TextAnswers(r: Reader, start: nat, left: nat)
    requires Complete(r)
    ensures Text(r, start, left).Some?
    decreases left
  {
    if left > 0 && start < r.length { TextAnswers(r, start + 1, left - 1); }
  }

  lemma VisitAnswers(r: Reader, base: nat, dir: Directory, s: State, entry: nat)
    requires Complete(r) && entry + 12 <= r.length
    ensures VisitAt(r, base, dir, s, entry).Some?
  {
    hide Text;
    var data := entry + 8;
    TextAnswers(r, data, r.u32(entry + 4).value);
    TextAnswers(r, base + r.u32(data).value, r.u32(entry + 4).value);
  }

  lemma {:induction false} EntriesAnswer(r: Reader, base: nat, dir: Directory, s: State, left: nat, entry: nat)
    requires Complete(r)
    ensures EntriesFrom(r, base, dir, s, left, entry).Some?
    decreases left
  {
    hide VisitAt;
    if left > 0 && entry + 12 <= r.length {
      VisitAnswers(r, base, dir, s, entry);
      EntriesAnswer(r, base, dir, VisitAt(r, base, dir, s, entry).value, left - 1, entry + 12);
    }
  }

  lemma ScanAnswers(r: Reader, base: nat, dir: Directory, s: State, position: nat)
    requires Complete(r)
    ensures Scan(r, base, dir, s, position).Some?
  {
    hide EntriesFrom;
    if base <= position && position + 2 <= r.length { EntriesAnswer(r, base, dir, s, r.u16(position).value, position + 2); }
  }

  lemma ViewIsComplete(view: View, little: bool)
    ensures Complete(ViewReader(view, little))
  {
  }

  /** On arbitrary bytes every read of the scans stays inside the buffer. */
  lemma NeverReadsOutside(view: View, little: bool, base: nat)
    ensures Parse(ViewReader(view, little), base).Some?
  {
    hide Scan, ViewReader;
    var r := ViewReader(view, little);
    ViewIsComplete(view, little);
    if base + 8 <= r.length && base + r.u32(base + 4).value + 2 <= r.length {
      var ifd0 := base + r.u32(base + 4).value;
      ScanAnswers(r, base, Main, Begin, ifd0);
      var main := Scan(r, base, Main, Begin, ifd0).value;
      ScanAnswers(r, base, ExifDirectory, main, main.exifPtr);
      var exif := ScanIf(r, base, ExifDirectory, Some(main), main.exifPtr).value;
      ScanAnswers(r, base, GpsDirectory, exif, main.gpsPtr);
    }
  }

  // ---------------------------------------------------------------- the loops

  method ReadText(r: Reader, start: nat, count: nat) returns (text: Option<seq<nat>>)
    ensures text == Text(r, start, count)
  {
    var codes: seq<nat> := [];
    var index := 0;
    NothingPrefixed(Text(r, start, count));
    while index < count && start + index < r.length
      invariant index <= count
      invariant Text(r, start, count) == Prefixed(codes, Text(r, start + index, count - index))
      decreases count - index
    {
      var code := r.u8(start + index);
      if code.None? {
        return None;
      }
      if code.value == 0 {
        break;
      }
      PrefixMoves(codes, code.value, Text(r, start + index + 1, count - index - 1));
      codes := codes + [code.value];
      index := index + 1;
    }
    text := Some(codes);
    assert codes + [] == codes;
  }

  function Prefixed(codes: seq<nat>, rest: Option<seq<nat>>): Option<seq<nat>> {
    if rest.None? then None else Some(codes + rest.value)
  }

  lemma NothingPrefixed(rest: Option<seq<nat>>)
    ensures Prefixed([], rest) == rest
  {
    if rest.Some? { assert [] + rest.value == rest.value; }
  }

  lemma PrefixMoves(codes: seq<nat>, code: nat, rest: Option<seq<nat>>)
    ensures Prefixed(codes, Prefixed([code], rest)) == Prefixed(codes + [code], rest)
  {
    if rest.Some? { assert codes + ([code] + rest.value) == codes + [code] + rest.value; }
  }

  /** `scan` with one of its three callbacks. */
  method ScanDirectory(r: Reader, base: nat, dir: Directory, s: State, position: nat) returns (next: Option<State>)
    ensures next == Scan(r, base, dir, s, position)
  {
    hide VisitAt;
    if position < base || position + 2 > r.length {
      return Some(s);
    }
    var count := r.u16(position);
    if count.None? {
      return None;
    }
    var state := s;
    for index := 0 to count.value
      invariant EntriesFrom(r, base, dir, s, count.value, position + 2)
        == EntriesFrom(r, base, dir, state, count.value - index, position + 2 + index * 12)
    {
      var entry := position + 2 + index * 12;
      if entry + 12 > r.length {
        break;
      }
      var visited := ReadEntry(r, base, dir, state, entry);
      if visited.None? {
        return None;
      }
      state := visited.value;
    }
    next := Some(state);
  }

  /** One turn of the loop. */
  method ReadEntry(r: Reader, base: nat, dir: Directory, s: State, entry: nat) returns (next: Option<State>)
    ensures next == VisitAt(r, base, dir, s, entry)
  {
    hide Visit;
    var tag, fieldType, length := r.u16(entry), r.u16(entry + 2), r.u32(entry + 4);
    if tag.None? || fieldType.None? || length.None? {
      return None;
    }
    next := VisitEntry(r, base, dir, s, tag.value, fieldType.value, length.value, entry + 8);
  }

  /** The callbacks. */
  method VisitEntry(r: Reader, base: nat, dir: Directory, s: State, tag: nat, fieldType: nat, count: nat, data: nat) returns (next: Option<State>)
    ensures next == Visit(r, base, dir, s, tag, fieldType, count, data)
  {
    hide Text;
    match dir {
      case Main =>
        if tag != ExifPointerTag && tag != GpsPointerTag {
          return Some(s);
        }
        var pointer := r.u32(data);
        if pointer.None? {
          return None;
        }
        return Some(if tag == ExifPointerTag then s.(exifPtr := base + pointer.value) else s.(gpsPtr := base + pointer.value));
      case ExifDirectory =>
        if tag != DateTimeOriginalTag && tag != CreateDateTag {
          return Some(s);
        }
        var text := ReadAsciiField(r, base, fieldType, count, data);
        return if text.None? then None else if tag == DateTimeOriginalTag then Some(s.(dateTimeOriginal := text)) else Some(s.(createDate := text));
      case GpsDirectory =>
        if tag == 1 || tag == 3 {
          var text := ReadAsciiField(r, base, fieldType, count, data);
          return if text.None? then None else if tag == 1 then Some(s.(latRef := text.value)) else Some(s.(lonRef := text.value));
        }
        if tag == 2 || tag == 4 {
          var degrees := Triple(r, base, data);
          return if degrees.None? then None else if tag == 2 then Some(s.(latitude := degrees.value)) else Some(s.(longitude := degrees.value));
        }
        return Some(s);
    }
  }

  method ReadAsciiField(r: Reader, base: nat, fieldType: nat, count: nat, data: nat) returns (text: Option<seq<nat>>)
    ensures text == ReadAscii(r, base, fieldType, count, data)
  {
    if fieldType != AsciiType {
      return Some([]);
    }
    if count <= 4 {
      text := ReadText(r, data, count);
      return;
    }
    var pointer := r.u32(data);
    if pointer.None? {
      return None;
    }
    text := ReadText(r, base + pointer.value, count);
  }

  /** parseTiff */
  method ParseTiff(view: View, base: nat) returns (output: Fields)
    ensures output == ParseBytes(view, base)
  {
    if base + 8 > |view| {
      return NoFields;
    }
    var marker := BigEndian(view, base, 2);
    if marker != 0x4949 && marker != 0x4d4d {
      return NoFields;
    }
    var r := ViewReader(view, marker == 0x4949);
    NeverReadsOutside(view, marker == 0x4949, base);
    var ifd0 := base + r.u32(base + 4).value;
    if ifd0 + 2 > |view| {
      return NoFields;
    }
    hide Scan;
    var state := ScanDirectory(r, base, Main, Begin, ifd0);
    var main := state.value;
    if main.exifPtr != 0 {
      state := ScanDirectory(r, base, ExifDirectory, state.value, main.exifPtr);
    }
    if main.gpsPtr != 0 {
      state := ScanDirectory(r, base, GpsDirectory, state.value, main.gpsPtr);
    }
    output := Result(state.value);
  }
}
