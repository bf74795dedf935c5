/** A test on the packed rows of a DStar level that makes it start sealed, and a level table on which the
    scan for bubbles goes wrong. */
module DStarSealed {
  import opened DStarLevel
  import opened DStarSlide
  import opened DStarGame
  import opened DStarPlan

  // ----- a mask that walls separate from the pieces

  /** A level, and the cells that its pieces cannot reach: those where the mask is odd. */
  datatype Masked = Masked(plan: Plan, mask: Rows)

  /** Two neighbours on different sides of the mask include a wall. */
  predicate Fits(u: int, x: int, v: int, y: int) { x % 2 == y % 2 || u == WALL || v == WALL }

  /** The four cells of byte u, with mask x, towards the right, up to byte ur, and downwards, to byte v.
      There is nothing to look at where the mask does not change. */
  predicate Apart(u: Byte, x: Byte, ur: Byte, xr: Byte, v: Byte, y: Byte) {
    || (x == xr == y && (x == 0 || x == 85))
    || (&& Fits(u % 4, x % 4, v % 4, y % 4) && Fits(u / 4 % 4, x / 4 % 4, v / 4 % 4, y / 4 % 4)
        && Fits(u / 16 % 4, x / 16 % 4, v / 16 % 4, y / 16 % 4)
        && Fits(u / 64 % 4, x / 64 % 4, v / 64 % 4, y / 64 % 4)
        && Fits(u % 4, x % 4, ur / 64 % 4, xr / 64 % 4) && Fits(u / 4 % 4, x / 4 % 4, u % 4, x % 4)
        && Fits(u / 16 % 4, x / 16 % 4, u / 4 % 4, x / 4 % 4)
        && Fits(u / 64 % 4, x / 64 % 4, u / 16 % 4, x / 16 % 4))
  }

  /** No cell of the byte is packed as a ball. */
  predicate NoBall(u: Byte) { u % 4 != BALL && u / 4 % 4 != BALL && u / 16 % 4 != BALL && u / 64 % 4 != BALL }

  predicate RowApart(u: Row, x: Row, v: Row, y: Row) {
    && Apart(u.a, x.a, u.b, x.b, v.a, y.a) && Apart(u.b, x.b, u.c, x.c, v.b, y.b)
    && Apart(u.c, x.c, u.d, x.d, v.c, y.c) && Apart(u.d, x.d, v.a, y.a, v.d, y.d)
  }

  predicate Vacant(p: Masked, c: int) {
    16 <= c < 128 && CellAt(p.plan.rows, c) == EMPTY && CellAt(p.mask, c) % 2 == 0
  }

  /** A row that is masked throughout, or one of walls only. */
  const OUTSIDE := Row(85, 85, 85, 85)

  predicate NoBallIn(u: Row) { NoBall(u.a) && NoBall(u.b) && NoBall(u.c) && NoBall(u.d) }

  /** Walls separate the other cells from the masked ones, which include the top and bottom rows. */
  predicate Separated(p: Masked) {
    && p.mask[0] == OUTSIDE && p.mask[8] == OUTSIDE
    && RowsApart(p, 0) && RowsApart(p, 1) && RowsApart(p, 2) && RowsApart(p, 3)
    && RowsApart(p, 4) && RowsApart(p, 5) && RowsApart(p, 6) && RowsApart(p, 7) && NoBallIn(p.plan.rows[8])
  }

  predicate RowsApart(p: Masked, r: nat)
    requires r < 8
  {
    RowApart(p.plan.rows[r], p.mask[r], p.plan.rows[r + 1], p.mask[r + 1]) && NoBallIn(p.plan.rows[r])
  }

  lemma EachRow(p: Masked, r: nat)
    requires Separated(p) && r < 9
    ensures r < 8 ==> RowApart(p.plan.rows[r], p.mask[r], p.plan.rows[r + 1], p.mask[r + 1])
    ensures NoBallIn(p.plan.rows[r])
  {
    hide RowApart, NoBallIn;
    assert r == 0 || r == 1 || r == 2 || r == 3 || r == 4 || r == 5 || r == 6 || r == 7 || r == 8;
  }

  /** The pieces start apart on empty cells that walls separate from the masked ones. */
  predicate Closed(p: Masked) {
    Separated(p) && Vacant(p, p.plan.ball) && Vacant(p, p.plan.box) && p.plan.ball != p.plan.box
  }

  lemma ByteApart(p: Masked, i: nat)
    requires Separated(p) && i < 32
    ensures var b, x := p.plan.rows, p.mask;
            Apart(ByteAt(b, i), ByteAt(x, i), ByteAt(b, i + 1), ByteAt(x, i + 1), ByteAt(b, i + 4), ByteAt(x, i + 4))
  {
    hide Apart, Vacant;
    var r := i / 4;
    EachRow(p, r);
    hide Separated;
    assert (i + 4) / 4 == r + 1 && (i + 4) % 4 == i % 4;
    assert if i % 4 == 3 then (i + 1) / 4 == r + 1 && (i + 1) % 4 == 0
           else (i + 1) / 4 == r && (i + 1) % 4 == i % 4 + 1;
  }

  lemma ApartCells(u: Byte, x: Byte, ur: Byte, xr: Byte, v: Byte, y: Byte, q: nat)
    requires Apart(u, x, ur, xr, v, y) && q < 4
    ensures Fits(Crumb(u, q), Crumb(x, q), Crumb(v, q), Crumb(y, q))
    ensures if q == 3 then Fits(Crumb(u, 3), Crumb(x, 3), Crumb(ur, 0), Crumb(xr, 0))
            else Fits(Crumb(u, q), Crumb(x, q), Crumb(u, q + 1), Crumb(x, q + 1))
  {
  }

  /** Neighbours on different sides of the mask include a wall. */
  lemma CellsApart(p: Masked, c: nat, n: nat)
    requires Separated(p) && c < 128 && (n == c + 1 || n == c + 16)
    ensures Fits(CellAt(p.plan.rows, c), CellAt(p.mask, c), CellAt(p.plan.rows, n), CellAt(p.mask, n))
  {
    ByteApart(p, c / 4);
    ApartCells(ByteAt(p.plan.rows, c / 4), ByteAt(p.mask, c / 4),
               ByteAt(p.plan.rows, c / 4 + 1), ByteAt(p.mask, c / 4 + 1),
               ByteAt(p.plan.rows, c / 4 + 4), ByteAt(p.mask, c / 4 + 4), c % 4);
    hide Separated, ByteAt, Apart, Crumb, Fits;
    if n == c + 16 {
      assert n / 4 == c / 4 + 4 && n % 4 == c % 4;
    } else if c % 4 == 3 {
      assert n / 4 == c / 4 + 1 && n % 4 == 0;
    } else {
      assert n / 4 == c / 4 && n % 4 == c % 4 + 1;
    }
  }

  lemma OutsideRows(p: Masked)
    requires Separated(p)
    ensures p.mask[0] == OUTSIDE && p.mask[8] == OUTSIDE
  {
    hide RowsApart;
  }

  lemma OutsideCell(mask: Rows, c: nat)
    requires c < 144 && mask[c / 16] == OUTSIDE
    ensures CellAt(mask, c) == 1
  {
    assert ByteAt(mask, c / 4) == 85;
    hide ByteAt;
  }

  lemma OutsideIsMasked(p: Masked, c: nat)
    requires Separated(p) && (c < 16 || 128 <= c < 144)
    ensures CellAt(p.mask, c) == 1
  {
    hide Separated, CellAt;
    OutsideRows(p);
    OutsideCell(p.mask, c);
  }

  lemma NoCellIsBall(p: Masked, c: nat)
    requires Separated(p) && c < 144
    ensures CellAt(p.plan.rows, c) != BALL
  {
    hide Vacant, RowApart;
    EachRow(p, c / 16);
    hide Separated;
    assert NoBall(ByteAt(p.plan.rows, c / 4));
  }

  /** A fresh board is that of the plan, with the pieces placed. */
  lemma LoadedCell(levels: Levels, level: int, p: Masked, c: nat)
    requires 0 <= level < 25 && Holds(levels, level, p.plan) && Closed(p) && c < 144
    ensures Placeable(levels, level)
    ensures Loaded(levels, level)[c] ==
            if c == p.plan.box then BOX else if c == p.plan.ball then BALL else CellAt(p.plan.rows, c)
  {
    hide CellAt, RowApart, NoBall;
  }

  /** The region of a closed level: its cells without walls where the mask is even. */
  ghost function Region(p: Masked): set<int> {
    set c: nat | c < 144 && CellAt(p.plan.rows, c) != WALL && CellAt(p.mask, c) % 2 == 0
  }

  lemma RegionInside(p: Masked, c: int)
    requires Separated(p) && c in Region(p)
    ensures 16 <= c < 128 && CellAt(p.plan.rows, c) != WALL
  {
    if c < 16 || c >= 128 { OutsideIsMasked(p, c); }
  }

  lemma RegionIsClosed(p: Masked, c: nat, n: nat)
    requires Separated(p) && c in Region(p) && n < 144 && (n == c + 1 || n == c - 1 || n == c + 16 || n == c - 16)
    ensures CellAt(p.plan.rows, n) == WALL || n in Region(p)
  {
    RegionInside(p, c);
    hide Separated, CellAt;
    if n > c { CellsApart(p, c, n); } else { CellsApart(p, n, c); }
  }

  lemma ClosedIsWellMade(levels: Levels, level: int, p: Masked)
    requires 0 <= level < 25 && Holds(levels, level, p.plan) && Closed(p)
    ensures WellMade(levels, level)
  {
    assert Vacant(p, p.plan.ball) && Vacant(p, p.plan.box);
    hide Separated, CellAt, Unpacked;
    forall c: nat | c < 144
      ensures Unpacked(Data(levels, level))[c] != BALL
    {
      NoCellIsBall(p, c);
    }
  }

  lemma RegionStep(levels: Levels, level: int, p: Masked, c: int, d: int)
    requires 0 <= level < 25 && Holds(levels, level, p.plan) && Closed(p) && Placeable(levels, level)
    requires c in Region(p) && IsStep(d)
    ensures 16 <= c < 128 && StaysIn(Loaded(levels, level), Region(p), c, d)
  {
    RegionInside(p, c);
    hide Closed, CellAt, Loaded, Region, Holds;
    RegionIsClosed(p, c, c + d);
    LoadedCell(levels, level, p, c + d);
    PiecesInRegion(p);
  }

  lemma RegionSeals(levels: Levels, level: int, p: Masked)
    requires 0 <= level < 25 && Holds(levels, level, p.plan) && Closed(p) && Placeable(levels, level)
    ensures Seals(Loaded(levels, level), Region(p))
  {
    hide Closed, Loaded, Region, Holds, StaysIn;
    forall c, d | c in Region(p) && IsStep(d)
      ensures 16 <= c < 128 && StaysIn(Loaded(levels, level), Region(p), c, d)
    {
      RegionStep(levels, level, p, c, d);
    }
  }

  lemma PiecesInRegion(p: Masked)
    requires Closed(p)
    ensures p.plan.ball in Region(p) && p.plan.box in Region(p)
  {
    assert Vacant(p, p.plan.ball) && Vacant(p, p.plan.box);
    hide CellAt;
  }

  /** A closed level starts sealed. */
  lemma ClosedIsSealed(levels: Levels, level: int, p: Masked)
    requires 0 <= level < 25 && Holds(levels, level, p.plan) && Closed(p)
    ensures StartsSealed(levels, level) && WellMade(levels, level)
  {
    ClosedIsWellMade(levels, level, p);
    RegionSeals(levels, level, p);
    PiecesInRegion(p);
    hide Closed, Loaded, Region, Seals, Tidy;
    FreshIsTidy(levels, level);
    assert Sound(Loaded(levels, level), Loaded(levels, level), p.plan.ball, p.plan.box, Region(p));
  }

  /** A level and its mask from their rows; a mask row that is left out masks nothing. */
  function Walled(ball: Char, box: Char, r0: Row, r1: Row, r2: Row, r3: Row, r4: Row, r5: Row, r6: Row, r7: Row,
                  r8: Row,
                  x1: Row := Row(0, 0, 0, 0), x2: Row := Row(0, 0, 0, 0), x3: Row := Row(0, 0, 0, 0),
                  x4: Row := Row(0, 0, 0, 0), x5: Row := Row(0, 0, 0, 0), x6: Row := Row(0, 0, 0, 0),
                  x7: Row := Row(0, 0, 0, 0)): (p: Masked)
    requires RowApart(r0, OUTSIDE, r1, x1) && RowApart(r1, x1, r2, x2) && RowApart(r2, x2, r3, x3)
    requires RowApart(r3, x3, r4, x4) && RowApart(r4, x4, r5, x5) && RowApart(r5, x5, r6, x6)
    requires RowApart(r6, x6, r7, x7) && RowApart(r7, x7, r8, OUTSIDE)
    requires NoBallIn(r0) && NoBallIn(r1) && NoBallIn(r2) && NoBallIn(r3) && NoBallIn(r4)
    requires NoBallIn(r5) && NoBallIn(r6) && NoBallIn(r7) && NoBallIn(r8)
    ensures Separated(p)
  {
    hide RowApart, NoBallIn, Nine;
    Masked(Plan(ball, box, Nine(r0, r1, r2, r3, r4, r5, r6, r7, r8)),
           Nine(OUTSIDE, x1, x2, x3, x4, x5, x6, x7, OUTSIDE))
  }

  // ----- a level table that the scan misjudges

  /** Walled up but for the ball, the box and a bubble in the last cell. */
  function FaultyLevel(): Masked {
    Walled(17, 18,
      Row(85, 85, 85, 85), Row(65, 85, 85, 85), Row(85, 85, 85, 85),
      Row(85, 85, 85, 85), Row(85, 85, 85, 85), Row(85, 85, 85, 85),
      Row(85, 85, 85, 85), Row(85, 85, 85, 85), Row(85, 85, 85, 86))
  }

  /** Twenty-five times this level. */
  function Faulty(): Levels { Table(seq(25, _ => FaultyLevel().plan)) }

  lemma FaultyIsClosed(level: int)
    requires 0 <= level < 25
    ensures Closed(FaultyLevel()) && Holds(Faulty(), level, FaultyLevel().plan)
  {
    hide Holds;
    TableHolds(seq(25, _ => FaultyLevel().plan), level);
  }

  lemma FaultyIsSealed(level: int)
    requires 0 <= level < 25
    ensures StartsSealed(Faulty(), level) && WellMade(Faulty(), level)
  {
    hide Closed, Holds, StartsSealed, WellMade;
    FaultyIsClosed(level);
    ClosedIsSealed(Faulty(), level, FaultyLevel());
  }

  lemma FaultyCell(c: nat)
    requires c < 144
    ensures CellAt(FaultyLevel().plan.rows, c) == BUBB <==> c == 143
  {
    var rows := FaultyLevel().plan.rows;
    assert c < 128 && c / 16 != 1 ==> rows[c / 16] == OUTSIDE;
    assert rows[1] == Row(65, 85, 85, 85) && rows[8] == Row(85, 85, 85, 86);
    hide FaultyLevel;
    if c / 16 != 1 && c / 16 != 8 { OutsideCell(rows, c); }
  }

  lemma FaultyBubbles(level: int)
    requires 0 <= level < 25 && Placeable(Faulty(), level)
    ensures Bubbles(Loaded(Faulty(), level)) == {143}
  {
    hide Loaded, Holds, Closed, CellAt;
    FaultyIsClosed(level);
    assert FaultyLevel().plan.ball == 17 && FaultyLevel().plan.box == 18;
    forall c: nat | c < 144
      ensures Loaded(Faulty(), level)[c] == BUBB <==> c == 143
    {
      LoadedCell(Faulty(), level, FaultyLevel(), c);
      FaultyCell(c);
    }
  }

  /** The failing input: all its levels are well made and sealed, a bubble lies in the last cell of the
      first, and before any key is pressed main has left that level with the bubble on it. */
  lemma ScanMissesLastCell()
    ensures AllWellMade(Faulty()) && StartsSealed(Faulty(), 0) && Bubbles(Loaded(Faulty(), 0)) == {143}
    ensures AfterKeys(Faulty(), []) == Load(Faulty(), 1) && AfterKeys(Faulty(), []).level == 1
  {
    hide Faulty, Loaded;
    forall level | 0 <= level < 25
      ensures WellMade(Faulty(), level) && Placeable(Faulty(), level)
    {
      FaultyIsSealed(level);
    }
    FaultyIsSealed(0);
    FaultyBubbles(0);
    forall c | 0 <= c < 143
      ensures Loaded(Faulty(), 0)[c] != BUBB
    {
      assert c !in Bubbles(Loaded(Faulty(), 0));
    }
    assert NoneScanned(Loaded(Faulty(), 0));
    KeysStart(Faulty());
  }
}
