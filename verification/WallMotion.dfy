/** Where a call of move_ball takes the ball of examples/wall.c, in rows, columns and states: row 0 is
    under the ceiling, row 20 above the paddle, columns 0 and 31 beside the walls. */
module WallMotion {
  import opened WallBricks
  import opened WallBall
  import opened WallGame

  /** Away from paddle, ceiling and side walls the six states are six directions. */
  lemma FreeFlight(b: Ball, a: int, coin: bool)
    requires b.InField() && 0 <= a <= 29
    requires b.m <= 19 || b.g == 120 || b.g == 140 || b.g == 180
    requires b.m >= 1 || b.g == 100 || b.g == 160 || b.g == 200
    requires b.n == 31 ==> b.g != 100 && b.g != 120
    requires b.n == 0 ==> b.g != 140 && b.g != 160
    ensures var f := Moved(b, a, coin, map[]);
            && (b.g == 100 ==> f == Ball(b.m + 1, b.n + 1, 100, b.p, b.w))
            && (b.g == 120 ==> f == Ball(b.m - 1, b.n + 1, 120, b.p, b.w))
            && (b.g == 140 ==> f == Ball(b.m - 1, b.n - 1, 140, b.p, b.w))
            && (b.g == 160 ==> f == Ball(b.m + 1, b.n - 1, 160, b.p, b.w))
            && (b.g == 180 ==> f == Ball(b.m - 1, b.n, 180, b.p, b.w))
            && (b.g == 200 ==> f == Ball(b.m + 1, b.n, 200, b.p, b.w))
  {
  }

  /** A side wall turns the column and keeps the row direction. */
  lemma SideWalls(b: Ball, a: int, coin: bool)
    requires b.InField() && 0 <= a <= 29
    requires b.m <= 19 || b.g == 120 || b.g == 140
    requires b.m >= 1 || b.g == 100 || b.g == 160
    ensures var f := Moved(b, a, coin, map[]);
            && (b.n == 31 && b.g == 100 ==> f == Ball(b.m + 1, 30, 160, b.p, b.w))
            && (b.n == 31 && b.g == 120 ==> f == Ball(b.m - 1, 30, 140, b.p, b.w))
            && (b.n == 0 && b.g == 160 ==> f == Ball(b.m + 1, 1, 100, b.p, b.w))
            && (b.n == 0 && b.g == 140 ==> f == Ball(b.m - 1, 1, 120, b.p, b.w))
  {
  }

  /** The ceiling turns the row direction, and a diagonal sets w. In the right corner the column turns
      too; in the left corner a ball that comes from the right goes down the wall. */
  lemma CeilingTurns(b: Ball, a: int, coin: bool)
    requires b.InField() && 0 <= a <= 29 && b.m == 0
    ensures var f := Moved(b, a, coin, map[]);
            && (b.g == 120 && b.n <= 30 ==> f == Ball(1, b.n + 1, 100, b.p, 1))
            && (b.g == 120 && b.n == 31 ==> f == Ball(1, 30, 160, b.p, 1))
            && (b.g == 140 && b.n >= 1 ==> f == Ball(1, b.n - 1, 160, b.p, 1))
            && (b.g == 140 && b.n == 0 ==> f == Ball(1, 0, 160, b.p, 1))
            && (b.g == 180 ==> f == Ball(1, b.n, 200, b.p, b.w))
  {
  }

  /** The paddle covers the columns a to a + 2. A ball that comes down on it, or beside it from outside,
      goes up again: on which side it falls decides whether left, straight or right; a ball that falls
      straight on the middle goes as the coin says. Any other ball is lost. */
  lemma PaddleTurns(b: Ball, a: int, coin: bool)
    requires b.InField() && 0 <= a <= 29 && b.m == 20 && 1 <= b.n <= 30
    ensures var f := Moved(b, a, coin, map[]);
            && (b.g == 100 ==> f == if b.n == a - 1 then Ball(19, b.n - 1, 140, 0, 0)
                                    else if b.n == a then Ball(19, b.n, 180, 0, 0)
                                    else if b.n == a + 1 || b.n == a + 2 then Ball(19, b.n + 1, 120, 0, 0)
                                    else Ball(21, b.n + 1, 100, 0, 0))
            && (b.g == 160 ==> f == if b.n == a || b.n == a + 1 then Ball(19, b.n - 1, 140, 0, 0)
                                    else if b.n == a + 2 then Ball(19, b.n, 180, 0, 0)
                                    else if b.n == a + 3 then Ball(19, b.n + 1, 120, 0, 0)
                                    else Ball(21, b.n - 1, 160, 0, 0))
            && (b.g == 200 ==> f == if b.n == a || (b.n == a + 1 && !coin) then Ball(19, b.n - 1, 140, 0, 0)
                                    else if b.n == a + 2 || (b.n == a + 1 && coin) then Ball(19, b.n + 1, 120, 0, 0)
                                    else Ball(21, b.n, 200, 0, 0))
  {
  }

  /** In the bottom corners the wall turns the ball as well, and a ball that the paddle misses on its way
      into the corner is offered to it once more. */
  lemma PaddleInRightCorner(b: Ball, a: int, coin: bool)
    requires b.InField() && 0 <= a <= 29 && b.m == 20 && b.n == 31
    ensures var f := Moved(b, a, coin, map[]);
            && (b.g == 100 ==> f == if a >= 28 then Ball(19, 30, 140, 0, 0) else Ball(21, 30, 160, 0, 0))
            && (b.g == 160 ==> f == if a == 28 then Ball(19, 30, 140, 0, 0)
                                    else if a == 29 then Ball(19, 31, 180, 0, 0) else Ball(21, 30, 160, 0, 0))
            && (b.g == 200 ==> f == if a == 29 then Ball(19, 30, 140, 0, 0) else Ball(21, 31, 200, 0, 0))
  {
  }

  lemma PaddleInLeftCorner(b: Ball, a: int, coin: bool)
    requires b.InField() && 0 <= a <= 29 && b.m == 20 && b.n == 0
    ensures var f := Moved(b, a, coin, map[]);
            && (b.g == 100 ==> f == if a == 0 then Ball(19, 0, 180, 0, 0)
                                    else if a == 1 then Ball(19, 1, 120, 0, 0) else Ball(21, 1, 100, 0, 0))
            && (b.g == 160 ==> f == if a <= 1 then Ball(19, 1, 120, 0, 0) else Ball(21, 1, 100, 0, 0))
            && (b.g == 200 ==> f == if a == 0 then Ball(19, 1, 120, 0, 0) else Ball(21, 0, 200, 0, 0))
  {
    LeftCornerState(b, a, coin);
    hide AfterSides;
  }

  /** The state in which a ball that falls into the left corner leaves it. */
  lemma LeftCornerState(b: Ball, a: int, coin: bool)
    requires b.InField() && 0 <= a <= 29 && b.m == 20 && b.n == 0
    ensures b.g == 100 ==> AfterSides(b, a, coin) == if a == 0 then 180 else if a == 1 then 120 else 100
    ensures b.g == 160 ==> AfterSides(b, a, coin) == if a <= 1 then 120 else 100
    ensures b.g == 200 ==> AfterSides(b, a, coin) == if a == 0 then 120 else 200
  {
  }

  /** The wall of bricks: the ball goes where it would without it. A brick there, unless the ball falls
      straight, goes with its other half and scores 13 less its row, and turns the ball: a falling
      diagonal goes up again, but not if p is set and w is not; a rising diagonal turns its row
      direction, or with w its column direction; a straight ball falls. */
  lemma BrickTurns(b: Ball, a: int, coin: bool, bricks: Bricks)
    requires b.InField() && 0 <= a <= 29 && WellLaid(bricks)
    ensures var f, h := Moved(b, a, coin, map[]), Moved(b, a, coin, bricks);
            if f.g == 200 || (f.m, f.n) !in bricks then
              h == f && BricksAfter(b, a, coin, bricks) == bricks && Gain(b, a, coin, bricks) == 0
            else
              && h.m == f.m && h.n == f.n && h.w == f.w
              && BricksAfter(b, a, coin, bricks) == bricks - ({(f.m, f.n)} + Partner(f.m, f.n))
              && Gain(b, a, coin, bricks) == 13 - f.m
              && (f.g == 100 ==> h.p == f.p && h.g == if f.p == 1 && f.w == 0 then 100 else 120)
              && (f.g == 160 ==> h.p == f.p && h.g == if f.p == 1 && f.w == 0 then 160 else 140)
              && (f.g == 120 ==> h.p == 1 && h.g == if f.w == 0 then 100 else 140)
              && (f.g == 140 ==> h.p == 1 && h.g == if f.w == 0 then 160 else 120)
              && (f.g == 180 ==> h.p == f.p && h.g == 200)
  {
    var f := Moved(b, a, coin, map[]);
    assert f == Stepped(Route(b, a, coin));
    RouteCode(b, a, coin);
    RouteFlags(b, a, coin);
    if (f.m, f.n) in bricks { BlankedIsPartner(f.m, f.n); }
    hide Route, Partner, Blanked;
  }

  lemma RouteFlags(b: Ball, a: int, coin: bool)
    requires b.InField() && 0 <= a <= 29
    ensures 0 <= Route(b, a, coin).p <= 1 && 0 <= Route(b, a, coin).w <= 1
  {
  }

  /** The rows and columns that a call takes a ball in state g, in free field. */
  predicate Heading(g: int, dm: int, dn: int) {
    || (g == 100 && dm == 1 && dn == 1) || (g == 120 && dm == -1 && dn == 1)
    || (g == 140 && dm == -1 && dn == -1) || (g == 160 && dm == 1 && dn == -1)
    || (g == 180 && dm == -1 && dn == 0) || (g == 200 && dm == 1 && dn == 0)
  }

  /** After j steps the ball is in free field, and no brick is in the cell that the next one leads to. */
  ghost predicate Clear(b: Ball, bricks: Bricks, dm: int, dn: int, j: nat) {
    && 1 <= b.m + j * dm <= 19 && 1 <= b.n + j * dn <= 30
    && (b.m + (j + 1) * dm, b.n + (j + 1) * dn) !in bricks
  }

  lemma OneStraightStep(s: State, a: int, coin: bool, dm: int, dn: int)
    requires s.ball.InField() && WellLaid(s.bricks) && 0 <= a <= 29 && Heading(s.ball.g, dm, dn)
    requires 1 <= s.ball.m <= 19 && 1 <= s.ball.n <= 30 && (s.ball.m + dm, s.ball.n + dn) !in s.bricks
    ensures Next(s, a, coin) == s.(ball := s.ball.(m := s.ball.m + dm, n := s.ball.n + dn))
  {
    FreeFlight(s.ball, a, coin);
    BrickTurns(s.ball, a, coin, s.bricks);
    hide Moved, BricksAfter, Gain, WellLaid;
  }

  lemma OneMoreStep(j: nat, d: int)
    ensures (j + 1) * d == j * d + d
  {
  }

  /** A ball in free field flies straight on: k calls take it k steps in its state's direction, wherever
      the paddle is. */
  lemma {:induction false} StraightFlight(s: State, moves: seq<(int, bool)>, dm: int, dn: int)
    requires s.ball.InField() && WellLaid(s.bricks) && Heading(s.ball.g, dm, dn)
    requires forall k :: 0 <= k < |moves| ==> 0 <= moves[k].0 <= 29
    requires forall j :: 0 <= j < |moves| ==> Clear(s.ball, s.bricks, dm, dn, j)
    ensures Reached(s, moves)
            == s.(ball := s.ball.(m := s.ball.m + |moves| * dm, n := s.ball.n + |moves| * dn))
  {
    hide Next, WellLaid, Heading;
    if moves != [] {
      var k := |moves| - 1;
      StraightFlight(s, moves[..k], dm, dn);
      assert Clear(s.ball, s.bricks, dm, dn, k);
      OneMoreStep(k, dm);
      OneMoreStep(k, dn);
      OneStraightStep(Reached(s, moves[..k]), moves[k].0, moves[k].1, dm, dn);
    }
  }
}
