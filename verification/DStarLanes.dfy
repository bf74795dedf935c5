/** A second test that keeps the pieces of a DStar level on the board: a box that cannot move, and lanes
    that the ball rolls along from wall to wall. */
module DStarLanes {
  import opened DStarLevel
  import opened DStarSlide
  import opened DStarGame
  import opened DStarPlan

  /** The value of a cell in a map of lanes: 1 for a cell of a horizontal lane, 2 for one of a vertical
      lane, 3 for a cell of both, where the ball may come to rest. */
  predicate InLane(v: int, d: int) { if d == 1 || d == -1 then v == 1 || v == 3 else v == 2 || v == 3 }

  /** A lane goes on from cell to cell, and where a wall ends it the ball may rest. */
  predicate Leads(v: int, d: int, w: int, next: int) {
    InLane(v, d) ==> if w == WALL then v == 3 else InLane(next, d)
  }

  ghost predicate LaneStep(b: Board, lanes: Rows, c: int, d: int)
    requires OnBoard(c)
  {
    InLane(CellAt(lanes, c), d) ==>
      16 <= c < 128 && OnBoard(c + d) && Leads(CellAt(lanes, c), d, b[c + d], CellAt(lanes, c + d))
  }

  ghost predicate Lanes(b: Board, lanes: Rows) {
    forall c, d :: OnBoard(c) && IsStep(d) ==> LaneStep(b, lanes, c, d)
  }

  /** One cell on, if no wall is there. */
  lemma NextInLane(b: Board, loaded: Board, lanes: Rows, ball: int, box: int, d: int, c: int)
    requires Tidy(b, loaded, ball, box) && Lanes(loaded, lanes) && IsStep(d)
    requires OnBoard(c) && InLane(CellAt(lanes, c), d)
    ensures 16 <= c < 128 && OnBoard(c + d)
    ensures if b[c + d] == WALL then CellAt(lanes, c) == 3 else InLane(CellAt(lanes, c + d), d)
  {
    hide CellAt;
    assert LaneStep(loaded, lanes, c, d);
    assert CellTidy(b, loaded, ball, box, c + d);
  }

  /** The ball stays in its lane. */
  lemma {:induction false} BallInLane(b: Board, loaded: Board, lanes: Rows, ball: int, box: int, d: int, k: nat)
    requires Tidy(b, loaded, ball, box) && Lanes(loaded, lanes) && CellAt(lanes, ball) == 3 && IsStep(d)
    requires k <= SlideLen(b, 0, ball, d)
    ensures OnBoard(At(ball, d, k)) && InLane(CellAt(lanes, At(ball, d, k)), d)
  {
    AtInjective(ball, d, k - 1, k);
    assert InLane(3, d) && OnBoard(ball);
    hide At, SlideLen, CellAt, Tidy, Lanes, InLane, Stops;
    if k > 0 {
      CrossedIsFree(b, ball, d, k);
      BallInLane(b, loaded, lanes, ball, box, d, k - 1);
      NextInLane(b, loaded, lanes, ball, box, d, At(ball, d, k - 1));
    }
  }

  lemma CrossedIsFree(b: Board, ball: int, d: int, k: nat)
    requires OnBoard(ball) && IsStep(d) && 0 < k <= SlideLen(b, 0, ball, d)
    ensures OnBoard(At(ball, d, k)) && b[At(ball, d, k)] != WALL
  {
    hide At, SlideLen;
    assert !Stops(b, 0, At(ball, d, k));
  }

  ghost predicate ShutIn(loaded: Board, box: int) {
    OnBoard(box) && forall d :: IsStep(d) ==> OnBoard(box + d) && loaded[box + d] == WALL
  }

  /** Next to the box there are only walls. */
  lemma NotNextToBox(b: Board, loaded: Board, ball: int, box: int, c: int, d: int)
    requires Tidy(b, loaded, ball, box) && ShutIn(loaded, box) && IsStep(d) && OnBoard(c) && b[c] != WALL
    ensures c + d != box
  {
    StepBack(d);
    assert CellTidy(b, loaded, ball, box, c);
    assert c + d == box ==> c == box + -d;
  }

  lemma StepBack(d: int)
    requires IsStep(d)
    ensures IsStep(-d)
  {
  }

  lemma StopperIsWall(b: Board, loaded: Board, ball: int, box: int, c: int)
    requires Tidy(b, loaded, ball, box) && OnBoard(c) && Stops(b, 0, c) && c != ball && c != box
    ensures b[c] == WALL
  {
    assert CellTidy(b, loaded, ball, box, c);
  }

  /** What stops the ball is a wall: the box is out of its way. */
  lemma BallStopsAtWall(b: Board, loaded: Board, lanes: Rows, ball: int, box: int, d: int)
    requires Tidy(b, loaded, ball, box) && Lanes(loaded, lanes) && CellAt(lanes, ball) == 3 && IsStep(d)
    requires ShutIn(loaded, box)
    ensures var to := At(ball, d, SlideLen(b, 0, ball, d));
            FitsChar(b, 0, ball, d) && OnBoard(to) && CellAt(lanes, to) == 3
  {
    var k := SlideLen(b, 0, ball, d);
    var to := At(ball, d, k);
    BallInLane(b, loaded, lanes, ball, box, d, k);
    AtInjective(ball, d, 0, k + 1);
    AtInjective(ball, d, k, k + 1);
    AtInjective(ball, d, 0, k);
    hide At, SlideLen, CellAt, Lanes, ShutIn, CellTidy;
    NextInLane(b, loaded, lanes, ball, box, d, to);
    assert k > 0 ==> !Stops(b, 0, to);
    NotNextToBox(b, loaded, ball, box, to, d);
    hide Tidy;
    assert Stops(b, 0, At(ball, d, k + 1));
    StopperIsWall(b, loaded, ball, box, to + d);
  }

  lemma BoxStays(b: Board, loaded: Board, ball: int, box: int, pieceIsBox: int, d: int)
    requires Tidy(b, loaded, ball, box) && ShutIn(loaded, box) && IsStep(d) && pieceIsBox != 0
    ensures At(box, d, SlideLen(b, pieceIsBox, box, d)) == box && FitsChar(b, pieceIsBox, box, d)
  {
    AtInjective(box, d, 0, 0);
    var k := SlideLen(b, pieceIsBox, box, d);
    hide At, SlideLen;
    assert At(box, d, 1) == box + d;
    assert CellTidy(b, loaded, ball, box, box + d);
    assert k > 0 ==> !Stops(b, pieceIsBox, At(box, d, 1));
    assert k == 0;
  }

  /** The positions with the ball at rest. */
  function Rests(lanes: Rows, box: int): set<Places> {
    set c: nat | c < 144 && CellAt(lanes, c) == 3 :: Places(c, box)
  }

  lemma LanesKeep(loaded: Board, lanes: Rows, box: int)
    requires Lanes(loaded, lanes) && ShutIn(loaded, box)
    ensures Keeps(loaded, Rests(lanes, box))
  {
    hide Lanes, ShutIn, Tidy, CellAt, FitsChar;
    forall b: Board, at, pieceIsBox, d | at in Rests(lanes, box) && IsStep(d)
      ensures Kept(b, loaded, at, pieceIsBox, d, Rests(lanes, box))
    {
      if Tidy(b, loaded, at.ball, at.box) {
        PiecesOnBoard(b, loaded, at.ball, at.box);
        if pieceIsBox == 0 {
          BallStopsAtWall(b, loaded, lanes, at.ball, at.box, d);
        } else {
          BoxStays(b, loaded, at.ball, at.box, pieceIsBox, d);
        }
      }
    }
  }

  // ----- lanes from the bytes of a level

  datatype Laned = Laned(plan: Plan, lanes: Rows)

  /** Of two neighbours each leads on to the other; d is the step from the first to the second. */
  predicate Linked(u: int, l: int, v: int, m: int, d: int) { Leads(l, d, v, m) && Leads(m, -d, u, l) }

  /** A vertical lane at both ends of a step, or at one end at rest before a wall, or at neither. */
  predicate LinkedDown(u: int, l: int, v: int, m: int) {
    if l >= 2 then (m >= 2 && v != WALL && u != WALL) || (v == WALL && l == 3 && m < 2)
    else m >= 2 ==> u == WALL && m == 3
  }

  /** The same for a horizontal lane. */
  predicate LinkedAcross(u: int, l: int, v: int, m: int) {
    if l % 2 == 1 then (m % 2 == 1 && v != WALL && u != WALL) || (v == WALL && l == 3 && m % 2 == 0)
    else m % 2 == 1 ==> u == WALL && m == 3
  }

  predicate Down(u: Byte, l: Byte, v: Byte, m: Byte) {
    || (l == 0 && m == 0)
    || (&& LinkedDown(u % 4, l % 4, v % 4, m % 4) && LinkedDown(u / 4 % 4, l / 4 % 4, v / 4 % 4, m / 4 % 4)
        && LinkedDown(u / 16 % 4, l / 16 % 4, v / 16 % 4, m / 16 % 4)
        && LinkedDown(u / 64 % 4, l / 64 % 4, v / 64 % 4, m / 64 % 4))
  }

  predicate Across(u: Byte, l: Byte) {
    || l == 0
    || (&& LinkedAcross(u / 4 % 4, l / 4 % 4, u % 4, l % 4)
        && LinkedAcross(u / 16 % 4, l / 16 % 4, u / 4 % 4, l / 4 % 4)
        && LinkedAcross(u / 64 % 4, l / 64 % 4, u / 16 % 4, l / 16 % 4))
  }

  predicate Seam(u: Byte, l: Byte, v: Byte, m: Byte) {
    (l == 0 && m == 0) || LinkedAcross(u % 4, l % 4, v / 64 % 4, m / 64 % 4)
  }

  /** No horizontal lane reaches the ends of the row. */
  predicate RowLinked(u: Row, l: Row) {
    && Across(u.a, l.a) && Across(u.b, l.b) && Across(u.c, l.c) && Across(u.d, l.d)
    && Seam(u.a, l.a, u.b, l.b) && Seam(u.b, l.b, u.c, l.c) && Seam(u.c, l.c, u.d, l.d)
    && l.a < 64 && l.d % 4 == 0
  }

  predicate RowsLinked(u: Row, l: Row, v: Row, m: Row) {
    Down(u.a, l.a, v.a, m.a) && Down(u.b, l.b, v.b, m.b) && Down(u.c, l.c, v.c, m.c) && Down(u.d, l.d, v.d, m.d)
  }

  const NOLANE := Row(0, 0, 0, 0)

  predicate RowOk(p: Laned, r: nat)
    requires r < 8
  {
    RowLinked(p.plan.rows[r], p.lanes[r]) && RowsLinked(p.plan.rows[r], p.lanes[r], p.plan.rows[r + 1], p.lanes[r + 1])
  }

  /** All rows lead on, and the top and bottom rows have no lanes. */
  predicate WellLaned(p: Laned) {
    && p.lanes[0] == NOLANE && p.lanes[8] == NOLANE
    && RowOk(p, 0) && RowOk(p, 1) && RowOk(p, 2) && RowOk(p, 3)
    && RowOk(p, 4) && RowOk(p, 5) && RowOk(p, 6) && RowOk(p, 7)
  }

  lemma EachRow(p: Laned, r: nat)
    requires WellLaned(p) && r < 8
    ensures RowLinked(p.plan.rows[r], p.lanes[r])
    ensures RowsLinked(p.plan.rows[r], p.lanes[r], p.plan.rows[r + 1], p.lanes[r + 1])
  {
    hide RowLinked, RowsLinked;
    assert r == 0 || r == 1 || r == 2 || r == 3 || r == 4 || r == 5 || r == 6 || r == 7;
  }

  lemma ByteLinked(p: Laned, i: nat)
    requires WellLaned(p) && i < 32
    ensures var b, x := p.plan.rows, p.lanes;
            && Across(ByteAt(b, i), ByteAt(x, i))
            && Down(ByteAt(b, i), ByteAt(x, i), ByteAt(b, i + 4), ByteAt(x, i + 4))
            && (i % 4 == 0 ==> ByteAt(x, i) < 64)
            && if i % 4 == 3 then ByteAt(x, i) % 4 == 0
               else Seam(ByteAt(b, i), ByteAt(x, i), ByteAt(b, i + 1), ByteAt(x, i + 1))
  {
    hide Across, Down, Seam, WellLaned;
    var r := i / 4;
    EachRow(p, r);
    assert (i + 4) / 4 == r + 1 && (i + 4) % 4 == i % 4;
    assert i % 4 != 3 ==> (i + 1) / 4 == r && (i + 1) % 4 == i % 4 + 1;
  }

  lemma DownCells(u: Byte, l: Byte, v: Byte, m: Byte, q: nat)
    requires Down(u, l, v, m) && q < 4
    ensures Linked(Crumb(u, q), Crumb(l, q), Crumb(v, q), Crumb(m, q), 16)
  {
    CrumbRange(l, q);
    CrumbRange(m, q);
    DownIsLinked(Crumb(u, q), Crumb(l, q), Crumb(v, q), Crumb(m, q));
    hide Linked, LinkedDown;
  }

  lemma CrumbRange(v: Byte, q: nat)
    requires q < 4
    ensures 0 <= Crumb(v, q) < 4
  {
  }

  lemma DownIsLinked(u: int, l: int, v: int, m: int)
    requires 0 <= l < 4 && 0 <= m < 4
    ensures LinkedDown(u, l, v, m) ==> Linked(u, l, v, m, 16)
    ensures l == 0 && m == 0 ==> Linked(u, l, v, m, 16)
  {
  }

  lemma AcrossIsLinked(u: int, l: int, v: int, m: int)
    requires 0 <= l < 4 && 0 <= m < 4
    ensures LinkedAcross(u, l, v, m) ==> Linked(u, l, v, m, 1)
    ensures l == 0 && m == 0 ==> Linked(u, l, v, m, 1)
  {
  }

  lemma AcrossCells(u: Byte, l: Byte, q: nat)
    requires Across(u, l) && q < 3
    ensures Linked(Crumb(u, q), Crumb(l, q), Crumb(u, q + 1), Crumb(l, q + 1), 1)
  {
    CrumbRange(l, q);
    CrumbRange(l, q + 1);
    AcrossIsLinked(Crumb(u, q), Crumb(l, q), Crumb(u, q + 1), Crumb(l, q + 1));
    hide Linked, LinkedAcross;
  }

  lemma SeamCells(u: Byte, l: Byte, v: Byte, m: Byte)
    requires Seam(u, l, v, m)
    ensures Linked(Crumb(u, 3), Crumb(l, 3), Crumb(v, 0), Crumb(m, 0), 1)
  {
    AcrossIsLinked(Crumb(u, 3), Crumb(l, 3), Crumb(v, 0), Crumb(m, 0));
    hide Linked, LinkedAcross;
  }

  lemma EndCells(l: Byte)
    ensures l < 64 ==> Crumb(l, 0) == 0
    ensures l % 4 == 0 ==> Crumb(l, 3) == 0
  {
  }

  lemma CellBelow(c: nat)
    ensures (c + 16) / 4 == c / 4 + 4 && (c + 16) % 4 == c % 4
  {
  }

  lemma CellBeside(c: nat)
    ensures if c % 4 == 3 then (c + 1) / 4 == c / 4 + 1 && (c + 1) % 4 == 0
            else (c + 1) / 4 == c / 4 && (c + 1) % 4 == c % 4 + 1
  {
  }

  lemma RowOfByte(c: nat)
    ensures c % 16 == 4 * (c / 4 % 4) + c % 4
  {
  }

  /** Neighbours below each other, and neighbours in the same row, lead on to each other. */
  lemma LinkedBelow(p: Laned, c: nat)
    requires WellLaned(p) && c < 128
    ensures Linked(CellAt(p.plan.rows, c), CellAt(p.lanes, c), CellAt(p.plan.rows, c + 16), CellAt(p.lanes, c + 16), 16)
  {
    var b, x, i := p.plan.rows, p.lanes, c / 4;
    hide Linked, Across, Down, Seam, ByteAt, Crumb, WellLaned;
    ByteLinked(p, i);
    DownCells(ByteAt(b, i), ByteAt(x, i), ByteAt(b, i + 4), ByteAt(x, i + 4), c % 4);
    CellBelow(c);
  }

  lemma LinkedBeside(p: Laned, c: nat)
    requires WellLaned(p) && c < 128 && c % 16 != 15
    ensures Linked(CellAt(p.plan.rows, c), CellAt(p.lanes, c), CellAt(p.plan.rows, c + 1), CellAt(p.lanes, c + 1), 1)
  {
    var b, x, i := p.plan.rows, p.lanes, c / 4;
    hide Linked, Across, Down, Seam, ByteAt, Crumb, WellLaned;
    ByteLinked(p, i);
    RowOfByte(c);
    CellBeside(c);
    if c % 4 == 3 {
      SeamCells(ByteAt(b, i), ByteAt(x, i), ByteAt(b, i + 1), ByteAt(x, i + 1));
    } else {
      AcrossCells(ByteAt(b, i), ByteAt(x, i), c % 4);
    }
  }

  lemma RowEnds(p: Laned, c: nat)
    requires WellLaned(p) && c < 128
    ensures c % 16 == 0 || c % 16 == 15 ==> CellAt(p.lanes, c) == 0
  {
    hide Across, Down, Seam, ByteAt, Crumb, WellLaned;
    ByteLinked(p, c / 4);
    RowOfByte(c);
    EndCells(ByteAt(p.lanes, c / 4));
  }

  lemma LaneCells(p: Laned, c: int, d: int)
    requires WellLaned(p) && OnBoard(c) && IsStep(d) && InLane(CellAt(p.lanes, c), d)
    ensures 16 <= c < 128 && OnBoard(c + d)
    ensures Leads(CellAt(p.lanes, c), d, CellAt(p.plan.rows, c + d), CellAt(p.lanes, c + d))
  {
    hide WellLaned, CellAt, Leads;
    if c < 16 || c >= 128 { OuterCell(p, c); }
    RowEnds(p, c);
    if d == 16 {
      LinkedBelow(p, c);
    } else if d == -16 {
      LinkedBelow(p, c - 16);
    } else if d == 1 {
      LinkedBeside(p, c);
    } else {
      LinkedBeside(p, c - 1);
    }
  }

  lemma OuterCell(p: Laned, c: nat)
    requires WellLaned(p) && (c < 16 || 128 <= c < 144)
    ensures CellAt(p.lanes, c) == 0
  {
    hide RowOk;
    assert p.lanes[0] == NOLANE && p.lanes[8] == NOLANE;
    NoLane(p.lanes, c);
  }

  lemma NoLane(lanes: Rows, c: nat)
    requires c < 144 && lanes[c / 16] == NOLANE
    ensures CellAt(lanes, c) == 0
  {
    assert ByteAt(lanes, c / 4) == 0;
    hide ByteAt;
  }

  /** The ball starts at rest, and the box in a cell between four walls. */
  predicate Parked(p: Laned) {
    && p.plan.ball != p.plan.box && 0 <= p.plan.ball && 16 <= p.plan.box < 128
    && CellAt(p.lanes, p.plan.ball) == 3 && CellAt(p.plan.rows, p.plan.ball) != WALL
    && CellAt(p.plan.rows, p.plan.box) != WALL
    && CellAt(p.plan.rows, p.plan.box + 1) == WALL && CellAt(p.plan.rows, p.plan.box - 1) == WALL
    && CellAt(p.plan.rows, p.plan.box + 16) == WALL && CellAt(p.plan.rows, p.plan.box - 16) == WALL
  }

  lemma WallsOfPlan(levels: Levels, level: int, p: Laned, c: nat)
    requires 0 <= level < 25 && Holds(levels, level, p.plan) && Parked(p) && c < 144
    ensures Placeable(levels, level)
    ensures Loaded(levels, level)[c] == WALL <==> CellAt(p.plan.rows, c) == WALL
  {
    hide CellAt;
  }

  lemma BoxShutIn(levels: Levels, level: int, p: Laned)
    requires 0 <= level < 25 && Holds(levels, level, p.plan) && Parked(p) && Placeable(levels, level)
    ensures ShutIn(Loaded(levels, level), p.plan.box)
  {
    hide CellAt, Holds, Loaded;
    var box: int := p.plan.box;
    forall d | IsStep(d)
      ensures OnBoard(box + d) && Loaded(levels, level)[box + d] == WALL
    {
      WallsOfPlan(levels, level, p, box + d);
    }
  }

  lemma LanesOfPlan(levels: Levels, level: int, p: Laned)
    requires 0 <= level < 25 && Holds(levels, level, p.plan) && Parked(p) && WellLaned(p) && Placeable(levels, level)
    ensures Lanes(Loaded(levels, level), p.lanes)
  {
    hide CellAt, Holds, Loaded, WellLaned, Parked, InLane;
    forall c, d | OnBoard(c) && IsStep(d)
      ensures LaneStep(Loaded(levels, level), p.lanes, c, d)
    {
      if InLane(CellAt(p.lanes, c), d) {
        LaneCells(p, c, d);
        WallsOfPlan(levels, level, p, c + d);
      }
    }
  }

  lemma BallAtRest(p: Laned)
    requires Parked(p)
    ensures 0 <= p.plan.ball && 0 <= p.plan.box && Places(p.plan.ball, p.plan.box) in Rests(p.lanes, p.plan.box)
  {
    hide CellAt;
  }

  /** A level with a parked box and lanes keeps its pieces on the board. */
  lemma LanedStaysOn(levels: Levels, level: int, p: Laned)
    requires 0 <= level < 25 && Holds(levels, level, p.plan) && Parked(p) && WellLaned(p)
    ensures StaysOn(levels, level)
  {
    BallAtRest(p);
    hide Unpacked, CellAt, Loaded, WellLaned, Parked, ShutIn, Lanes, Keeps, Rests;
    BoxShutIn(levels, level, p);
    LanesOfPlan(levels, level, p);
    LanesKeep(Loaded(levels, level), p.lanes, p.plan.box);
  }
}
