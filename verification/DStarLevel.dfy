/** The packed levels of examples/dstar.c: 38 signed chars each, the offsets of ball and box and then
    36 bytes of four 2-bit cells, high bits first. */
module DStarLevel {

  const EMPTY := 0
  const WALL := 1
  const BUBB := 2
  const BALL := 3
  const BOX := 4

  /** sccz80's char is signed. */
  type Char = v: int | -128 <= v < 128

  function ToChar(v: int): Char { (v + 128) % 256 - 128 }

  /** 2-bit cell k of a run of packed bytes: the char is shifted arithmetically, then masked. */
  function CellOf(data: seq<Char>, k: nat): int
    requires k < 4 * |data|
  {
    var c := data[k / 4];
    match k % 4
    case 0 => c / 64 % 4
    case 1 => c / 16 % 4
    case 2 => c / 4 % 4
    case _ => c % 4
  }

  function Unpacked(data: seq<Char>): (cells: seq<int>)
    ensures |cells| == 4 * |data|
    ensures forall k :: 0 <= k < |cells| ==> 0 <= cells[k] < 4
  {
    seq(4 * |data|, k requires 0 <= k < 4 * |data| => CellOf(data, k))
  }

  function PackFour(a: int, b: int, c: int, d: int): Char { ToChar(64 * a + 16 * b + 4 * c + d) }

  /** The reference encoder. */
  function Packed(cells: seq<int>): (data: seq<Char>)
    requires |cells| % 4 == 0
    ensures |data| == |cells| / 4
  {
    seq(|cells| / 4, i requires 0 <= i < |cells| / 4 =>
      PackFour(cells[4 * i], cells[4 * i + 1], cells[4 * i + 2], cells[4 * i + 3]))
  }

  lemma Digit4(q: int, r: int)
    requires 0 <= r < 4
    ensures (4 * q + r) / 4 == q && (4 * q + r) % 4 == r
  {
  }

  lemma Digit16(q: int, r: int)
    requires 0 <= r < 16
    ensures (16 * q + r) / 16 == q
  {
  }

  lemma Digit64(q: int, r: int)
    requires 0 <= r < 64
    ensures (64 * q + r) / 64 == q
  {
  }

  lemma CharOf(u: int)
    requires 0 <= u < 256
    ensures ToChar(u) == if u < 128 then u else u - 256
  {
  }

  lemma FourCells(a: int, b: int, c: int, d: int)
    requires 0 <= a < 4 && 0 <= b < 4 && 0 <= c < 4 && 0 <= d < 4
    ensures var v := PackFour(a, b, c, d);
            v / 64 % 4 == a && v / 16 % 4 == b && v / 4 % 4 == c && v % 4 == d
  {
    var u := 64 * a + 16 * b + 4 * c + d;
    CharOf(u);
    // the sign bit only borrows from the top digit
    var top := if u < 128 then a else a - 4;
    Digit64(top, 16 * b + 4 * c + d);
    Digit4(if u < 128 then 0 else -1, a);
    Digit16(4 * top + b, 4 * c + d);
    Digit4(top, b);
    Digit4(16 * top + 4 * b + c, d);
    Digit4(4 * top + b, c);
  }

  lemma FourBits(v: Char)
    ensures PackFour(v / 64 % 4, v / 16 % 4, v / 4 % 4, v % 4) == v
  {
    var q1 := v / 4;
    var q2 := q1 / 4;
    var q3 := q2 / 4;
    Digit16(q2, 4 * (q1 % 4) + v % 4);
    Digit64(q3, 16 * (q2 % 4) + 4 * (q1 % 4) + v % 4);
    assert -2 <= q3 <= 1;
    Digit4(if q3 < 0 then -1 else 0, if q3 < 0 then q3 + 4 else q3);
    CharOf(if v < 0 then v + 256 else v);
  }

  /** Decoding inverts packing, bytes with the top bit set included. */
  lemma UnpackPacked(cells: seq<int>)
    requires |cells| % 4 == 0 && forall k :: 0 <= k < |cells| ==> 0 <= cells[k] < 4
    ensures Unpacked(Packed(cells)) == cells
  {
    hide PackFour;
    var data := Packed(cells);
    forall k | 0 <= k < |cells|
      ensures CellOf(data, k) == cells[k]
    {
      var i := k / 4;
      FourCells(cells[4 * i], cells[4 * i + 1], cells[4 * i + 2], cells[4 * i + 3]);
    }
  }

  /** And packing inverts decoding, so a level has exactly one packed form. */
  lemma PackUnpacked(data: seq<Char>)
    ensures Packed(Unpacked(data)) == data
  {
    hide PackFour, CellOf;
    forall i | 0 <= i < |data|
      ensures Packed(Unpacked(data))[i] == data[i]
    {
      FourAt(data, i);
      FourBits(data[i]);
    }
  }

  lemma FourAt(data: seq<Char>, i: nat)
    requires i < |data|
    ensures CellOf(data, 4 * i) == data[i] / 64 % 4 && CellOf(data, 4 * i + 1) == data[i] / 16 % 4
    ensures CellOf(data, 4 * i + 2) == data[i] / 4 % 4 && CellOf(data, 4 * i + 3) == data[i] % 4
  {
    Digit4(i, 0);
    Digit4(i, 1);
    Digit4(i, 2);
    Digit4(i, 3);
  }

  type Board = b: seq<int> | |b| == 144 witness seq(144, _ => 0)

  /** The table of all levels. */
  type Levels = l: seq<Char> | |l| == 25 * 38 witness seq(950, _ => 0)

  function Data(levels: Levels, level: int): seq<Char>
    requires 0 <= level < 25
  {
    levels[level * 38 + 2..level * 38 + 38]
  }

  function BallAt(levels: Levels, level: int): Char
    requires 0 <= level < 25
  {
    levels[level * 38]
  }

  function BoxAt(levels: Levels, level: int): Char
    requires 0 <= level < 25
  {
    levels[level * 38 + 1]
  }

  /** The pieces start inside the board; SetupLevel writes through these offsets unchecked. */
  predicate Placeable(levels: Levels, level: int)
    requires 0 <= level < 25
  {
    BallAt(levels, level) >= 0 && BoxAt(levels, level) >= 0
  }

  /** The board of a fresh level: the unpacked cells, then the ball, then the box. */
  function Loaded(levels: Levels, level: int): Board
    requires 0 <= level < 25 && Placeable(levels, level)
  {
    Unpacked(Data(levels, level))[BallAt(levels, level) as int := BALL][BoxAt(levels, level) as int := BOX]
  }
}
