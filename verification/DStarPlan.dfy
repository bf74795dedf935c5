/** Level tables of examples/dstar.h, written byte by byte in rows of four, and what a table holds. */
module DStarPlan {
  import opened DStarLevel

  /** A byte as an unsigned number. */
  type Byte = v: int | 0 <= v < 256

  /** Four bytes hold the sixteen cells of a row. */
  datatype Row = Row(a: Byte, b: Byte, c: Byte, d: Byte)

  type Rows = s: seq<Row> | |s| == 9 witness seq(9, _ => Row(0, 0, 0, 0))

  function Nine(r0: Row, r1: Row, r2: Row, r3: Row, r4: Row, r5: Row, r6: Row, r7: Row, r8: Row): (s: Rows)
    ensures s[0] == r0 && s[1] == r1 && s[2] == r2 && s[3] == r3 && s[4] == r4 && s[5] == r5
    ensures s[6] == r6 && s[7] == r7 && s[8] == r8
  {
    [r0, r1, r2, r3, r4, r5, r6, r7, r8]
  }

  datatype Plan = Plan(ball: Char, box: Char, rows: Rows)

  /** Byte i of a board. */
  function ByteAt(rows: Rows, i: nat): Byte
    requires i < 36
  {
    var r := rows[i / 4];
    match i % 4
    case 0 => r.a
    case 1 => r.b
    case 2 => r.c
    case _ => r.d
  }

  /** Cell q of a byte. */
  function Crumb(v: int, q: nat): int
    requires q < 4
  {
    match q
    case 0 => v / 64 % 4
    case 1 => v / 16 % 4
    case 2 => v / 4 % 4
    case _ => v % 4
  }

  /** Cell c of a board. */
  function CellAt(rows: Rows, c: nat): int
    requires c < 144
  {
    Crumb(ByteAt(rows, c / 4), c % 4)
  }

  function PlanByte(p: Plan, j: nat): Char
    requires j < 38
  {
    if j == 0 then p.ball else if j == 1 then p.box else ToChar(ByteAt(p.rows, j - 2))
  }

  /** The level table that holds some plans. */
  function Table(plans: seq<Plan>): Levels
    requires |plans| == 25
  {
    seq(950, k requires 0 <= k < 950 => PlanByte(plans[k / 38], k % 38))
  }

  /** This level of the table starts with the plan's pieces, and its cells are the plan's. */
  ghost predicate Holds(levels: Levels, level: int, p: Plan)
    requires 0 <= level < 25
  {
    && BallAt(levels, level) == p.ball && BoxAt(levels, level) == p.box
    && forall c: nat :: c < 144 ==> Unpacked(Data(levels, level))[c] == CellAt(p.rows, c)
  }

  /** A byte and the signed char with the same bits have the same cells. */
  lemma SameCrumbs(v: Byte, q: nat)
    requires q < 4
    ensures Crumb(ToChar(v), q) == Crumb(v, q)
  {
    CharOf(v);
    hide ToChar;
    if v >= 128 { FourFewer(v, q); }
  }

  lemma FourFewer(v: int, q: nat)
    requires q < 4
    ensures Crumb(v - 256, q) == Crumb(v, q)
  {
    match q
    case 0 => FoursDropped(v / 64, 1);
    case 1 => FoursDropped(v / 16, 4);
    case 2 => FoursDropped(v / 4, 16);
    case _ => FoursDropped(v, 64);
  }

  lemma FoursDropped(a: int, j: int)
    ensures (a - 4 * j) % 4 == a % 4
  {
    Digit4(a / 4 - j, a % 4);
    assert 4 * (a / 4 - j) + a % 4 == a - 4 * j;
  }

  lemma CellIsCrumb(data: seq<Char>, c: nat)
    requires c < 4 * |data|
    ensures CellOf(data, c) == Crumb(data[c / 4], c % 4)
  {
  }

  lemma TableByte(plans: seq<Plan>, level: int, j: nat)
    requires |plans| == 25 && 0 <= level < 25 && j < 38
    ensures Table(plans)[level * 38 + j] == PlanByte(plans[level], j)
  {
    hide PlanByte;
    assert (level * 38 + j) / 38 == level && (level * 38 + j) % 38 == j;
  }

  /** Decompressing a level of a table yields the cells of its plan. */
  lemma TableHolds(plans: seq<Plan>, level: int)
    requires |plans| == 25 && 0 <= level < 25
    ensures Holds(Table(plans), level, plans[level])
  {
    hide ByteAt, Crumb, ToChar, CellOf, Table;
    var p := plans[level];
    TableByte(plans, level, 0);
    TableByte(plans, level, 1);
    var data := Data(Table(plans), level);
    forall c: nat | c < 144
      ensures Unpacked(data)[c] == CellAt(p.rows, c)
    {
      TableByte(plans, level, c / 4 + 2);
      assert data[c / 4] == ToChar(ByteAt(p.rows, c / 4));
      SameCrumbs(ByteAt(p.rows, c / 4), c % 4);
      CellIsCrumb(data, c);
    }
  }
}
