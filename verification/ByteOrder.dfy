/** Little-endian fields and the records packed from them. */
module ByteOrder {
  import opened Common

  function Pow256(width: nat): (r: nat)
    ensures r > 0
  {
    if width == 0 then 1 else 256 * Pow256(width - 1)
  }

  lemma Pow256Values()
    ensures Pow256(2) == 0x1_0000 && Pow256(4) == 0x1_0000_0000 && Pow256(8) == 0x1_0000_0000_0000_0000
  {
    assert Pow256(1) == 256;
    assert Pow256(3) == 0x100_0000;
    assert Pow256(5) == 0x100_0000_0000 && Pow256(6) == 0x1_0000_0000_0000 && Pow256(7) == 0x100_0000_0000_0000;
  }

  /** `width` bytes of `n`, least significant first. */
  function Le(n: nat, width: nat): (r: seq<Byte>)
    ensures |r| == width
  {
    if width == 0 then [] else [n % 256] + Le(n / 256, width - 1)
  }

  function UnLe(s: seq<Byte>): (r: nat)
  {
    if s == [] then 0 else s[0] + 256 * UnLe(s[1..])
  }

  lemma {:induction false} UnLeLe(n: nat, width: nat)
    requires n < Pow256(width)
    ensures UnLe(Le(n, width)) == n
  {
    if width > 0 {
      UnLeLe(n / 256, width - 1);
      assert Le(n, width)[1..] == Le(n / 256, width - 1);
    }
  }

  // ------------------------------------------------------------------- packed records

  /** The width of a format letter: `H`, `I` and `Q` are 2, 4 and 8 bytes. */
  function Width(letter: char): (r: nat)
  {
    if letter == 'H' then 2 else if letter == 'I' then 4 else 8
  }

  function Limit(letter: char): (r: nat)
    ensures r == Pow256(Width(letter))
  {
    Pow256Values();
    if letter == 'H' then 0x1_0000 else if letter == 'I' then 0x1_0000_0000 else 0x1_0000_0000_0000_0000
  }

  /** Where field `i` of a record starts. */
  function Offset(format: string, i: nat): (r: nat)
    requires i <= |format|
  {
    if i == 0 then 0 else Offset(format, i - 1) + Width(format[i - 1])
  }

  function Size(format: string): (r: nat)
  {
    Offset(format, |format|)
  }

  /** Packing raises unless every value fits its field. */
  predicate Fits(format: string, values: seq<nat>)
  {
    |format| == |values| && forall i :: 0 <= i < |format| ==> values[i] < Limit(format[i])
  }

  function Cells(format: string, values: seq<nat>): (r: seq<seq<Byte>>)
    requires |format| == |values|
  {
    seq(|format|, i requires 0 <= i < |format| => Le(values[i], Width(format[i])))
  }

  function Pack(format: string, values: seq<nat>): (r: seq<Byte>)
    requires |format| == |values|
  {
    Concat(Cells(format, values))
  }

  /** The field of `width` bytes at `at`; zero when `s` is too short. */
  function Cell(s: seq<Byte>, at: nat, width: nat): (r: nat)
  {
    if at + width <= |s| then UnLe(s[at..at + width]) else 0
  }

  function Unpack(format: string, s: seq<Byte>): (r: seq<nat>)
  {
    seq(|format|, i requires 0 <= i < |format| => Cell(s, Offset(format, i), Width(format[i])))
  }

  lemma {:induction false} CellsSize(format: string, values: seq<nat>, i: nat)
    requires |format| == |values| && i <= |format|
    ensures |Concat(Cells(format, values)[..i])| == Offset(format, i)
  {
    if i > 0 {
      var cells := Cells(format, values);
      CellsSize(format, values, i - 1);
      ConcatSnoc(cells[..i - 1], cells[i - 1]);
      assert cells[..i] == cells[..i - 1] + [cells[i - 1]];
    }
  }

  lemma PackSize(format: string, values: seq<nat>)
    requires |format| == |values|
    ensures |Pack(format, values)| == Size(format)
  {
    CellsSize(format, values, |format|);
    assert Cells(format, values)[..|format|] == Cells(format, values);
  }

  lemma CellRead(format: string, values: seq<nat>, i: nat)
    requires Fits(format, values) && i < |format|
    ensures Cell(Pack(format, values), Offset(format, i), Width(format[i])) == values[i]
  {
    CellsSize(format, values, i);
    PieceInPlace(Cells(format, values), i);
    UnLeLe(values[i], Width(format[i]));
  }

  /** Packing and unpacking are inverse on values that fit. */
  lemma UnpackPack(format: string, values: seq<nat>)
    requires Fits(format, values)
    ensures Unpack(format, Pack(format, values)) == values
  {
    forall i | 0 <= i < |format| ensures Unpack(format, Pack(format, values))[i] == values[i] {
      CellRead(format, values, i);
    }
  }

  // ------------------------------------------------------------------- network order

  const MAX_U32 := 0xFFFF_FFFF

  /** Four bytes, most significant first. */
  function Be32(n: nat): (r: seq<Byte>)
    requires n <= MAX_U32
    ensures |r| == 4
  {
    [n / 256 / 256 / 256, n / 256 / 256 % 256, n / 256 % 256, n % 256]
  }

  function UnBe32(s: seq<Byte>): (r: nat)
    requires |s| == 4
    ensures r <= MAX_U32
  {
    var a: nat, b: nat, c: nat, d: nat := s[0], s[1], s[2], s[3];
    256 * (256 * (256 * a + b) + c) + d
  }

  lemma UnBe32Be32(n: nat)
    requires n <= MAX_U32
    ensures UnBe32(Be32(n)) == n
  {
    var p, q := n / 256, n / 256 / 256;
    assert 256 * (q / 256) + q % 256 == q && 256 * q + p % 256 == p;
  }

  lemma Be32UnBe32(s: seq<Byte>)
    requires |s| == 4
    ensures Be32(UnBe32(s)) == s
  {
    var a: nat, b: nat, c: nat, d: nat := s[0], s[1], s[2], s[3];
    var p, q := 256 * (256 * a + b) + c, 256 * a + b;
    assert UnBe32(s) == 256 * p + d && (256 * p + d) / 256 == p && (256 * p + d) % 256 == d;
    assert p / 256 == q && p % 256 == c && q / 256 == a && q % 256 == b;
  }
}
