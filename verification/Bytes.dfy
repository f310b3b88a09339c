/** Byte buffers as a DataView shows them. */
module Bytes {
  import opened Wrappers

  type byte = b: nat | b < 256
  type View = seq<byte>

  /** The letters E, x, i, f. */
  const ExifName: seq<byte> := [0x45, 0x78, 0x69, 0x66]

  function Pow256(n: nat): (p: nat)
    ensures p >= 1
  {
    if n == 0 then 1 else 256 * Pow256(n - 1)
  }

  lemma Powers()
    ensures Pow256(1) == 0x100 && Pow256(2) == 0x1_0000 && Pow256(3) == 0x100_0000 && Pow256(4) == 0x1_0000_0000
  {
  }

  /** The n bytes at `offset`, most significant first. */
  function BigEndian(view: View, offset: nat, n: nat): nat
    requires offset + n <= |view|
  {
    if n == 0 then 0 else BigEndian(view, offset, n - 1) * 256 + view[offset + n - 1]
  }

  /** The n bytes at `offset`, least significant first. */
  function LittleEndian(view: View, offset: nat, n: nat): nat
    requires offset + n <= |view|
    decreases n
  {
    if n == 0 then 0 else view[offset] + 256 * LittleEndian(view, offset + 1, n - 1)
  }

  /** value in n bytes, most significant first. */
  function Spread(value: nat, n: nat): (bytes: seq<byte>)
    ensures |bytes| == n
  {
    if n == 0 then [] else Spread(value / 256, n - 1) + [value % 256]
  }

  /** value in n bytes, least significant first. */
  function SpreadLittle(value: nat, n: nat): (bytes: seq<byte>)
    ensures |bytes| == n
  {
    if n == 0 then [] else [value % 256] + SpreadLittle(value / 256, n - 1)
  }

  /** `bytes` stand in the view at `offset`. */
  predicate At(view: View, offset: nat, bytes: seq<byte>) {
    offset + |bytes| <= |view| && view[offset..offset + |bytes|] == bytes
  }

  lemma AtParts(view: View, offset: nat, a: seq<byte>, b: seq<byte>)
    requires At(view, offset, a + b)
    ensures At(view, offset, a) && At(view, offset + |a|, b)
  {
    var whole := view[offset..offset + |a + b|];
    assert whole[..|a|] == a && whole[|a|..] == b;
    assert view[offset..offset + |a|] == whole[..|a|];
    assert view[offset + |a|..offset + |a| + |b|] == whole[|a|..];
  }

  lemma EndsInView(view: View, offset: nat, bytes: seq<byte>)
    requires At(view, offset, bytes)
    ensures offset + |bytes| <= |view|
  {
  }

  lemma AtByte(view: View, offset: nat, bytes: seq<byte>, i: nat)
    requires At(view, offset, bytes) && i < |bytes|
    ensures view[offset + i] == bytes[i]
  {
    assert view[offset..offset + |bytes|][i] == bytes[i];
  }

  /** Reading back what was written. */
  lemma {:induction false} ReadSpread(view: View, offset: nat, value: nat, n: nat)
    requires At(view, offset, Spread(value, n)) && value < Pow256(n)
    ensures BigEndian(view, offset, n) == value
  {
    if n > 0 {
      AtParts(view, offset, Spread(value / 256, n - 1), [value % 256]);
      ReadSpread(view, offset, value / 256, n - 1);
      AtByte(view, offset + n - 1, [value % 256], 0);
    }
  }

  lemma {:induction false} ReadSpreadLittle(view: View, offset: nat, value: nat, n: nat)
    requires At(view, offset, SpreadLittle(value, n)) && value < Pow256(n)
    ensures LittleEndian(view, offset, n) == value
    decreases n
  {
    if n > 0 {
      AtParts(view, offset, [value % 256], SpreadLittle(value / 256, n - 1));
      ReadSpreadLittle(view, offset + 1, value / 256, n - 1);
      AtByte(view, offset, [value % 256], 0);
    }
  }

  lemma {:induction false} BigEndianBelow(view: View, offset: nat, n: nat)
    requires offset + n <= |view|
    ensures BigEndian(view, offset, n) < Pow256(n)
  {
    if n > 0 { BigEndianBelow(view, offset, n - 1); }
  }
}
