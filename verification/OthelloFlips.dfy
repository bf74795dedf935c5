/** Playing a move: putmv1 and putmov of examples/othello.c flip eight rays one after another on
    the board they are changing. They are proved to flip, at once, every run that was flanked on
    the board before the move. */
module OthelloFlips {
  import opened OthelloRays

  function Sign(v: int): int { if v < 0 then -1 else if v > 0 then 1 else 0 }

  function Abs(v: int): nat { if v < 0 then -v else v }

  /** The square (dx,dy) away lies on one of the eight rays. */
  predicate Aligned(dx: int, dy: int) {
    (dx != 0 || dy != 0) && (dx == 0 || dy == 0 || dx == dy || dx == -dy)
  }

  function Dist(dx: int, dy: int): nat { if dx == 0 then Abs(dy) else Abs(dx) }

  /** (r,c) belongs to a run that p flanks from (x,y). */
  predicate Flipped(b: Board, p: int, x: int, y: int, r: int, c: int)
    requires OnBoard(x, y)
  {
    Aligned(r - x, c - y) && Dist(r - x, c - y) <= RunLen(b, p, x, y, Sign(r - x), Sign(c - y))
  }

  /** The reference definition of a move: the new piece, and every flanked run flipped at once. */
  function After(b: Board, p: int, x: int, y: int): Board
    requires OnBoard(x, y)
  {
    seq(64, k requires 0 <= k < 64 => if k == Sq(x, y) || Flipped(b, p, x, y, k / 8, k % 8) then p else b[k])
  }

  /** A square on ray (m,n) determines the ray and the step, so the eight rays are disjoint and
      none of them contains its origin. */
  lemma RayOf(x: int, y: int, m: int, n: int, t: int)
    requires OnBoard(x, y) && IsDir(m, n) && t >= 1
    ensures var dx, dy := Along(x, m, t) - x, Along(y, n, t) - y;
            Aligned(dx, dy) && Sign(dx) == m && Sign(dy) == n && Dist(dx, dy) == t
  {
  }

  lemma RayTo(x: int, y: int, r: int, c: int)
    requires OnBoard(x, y) && OnBoard(r, c) && Aligned(r - x, c - y)
    ensures var m, n, t := Sign(r - x), Sign(c - y), Dist(r - x, c - y);
            IsDir(m, n) && 1 <= t <= 7 && Along(x, m, t) == r && Along(y, n, t) == c
  {
  }

  /** Flipped says: the square is one of the captured squares of one of the eight rays. */
  lemma FlippedIsCaptured(b: Board, p: int, x: int, y: int, r: int, c: int)
    requires OnBoard(x, y) && OnBoard(r, c)
    ensures Flipped(b, p, x, y, r, c) <==>
            exists m, n, L: nat, t :: IsDir(m, n) && Flanks(b, p, x, y, m, n, L) && 1 <= t <= L
                                      && r == Along(x, m, t) && c == Along(y, n, t)
  {
    hide RunLen, Flanks, Along, Aligned, Sign, Dist;
    if Flipped(b, p, x, y, r, c) {
      var m, n, t := Sign(r - x), Sign(c - y), Dist(r - x, c - y);
      RayTo(x, y, r, c);
      RunLenIsFlanked(b, p, x, y, m, n, RunLen(b, p, x, y, m, n));
    } else if exists m, n, L: nat, t :: IsDir(m, n) && Flanks(b, p, x, y, m, n, L) && 1 <= t <= L
                                        && r == Along(x, m, t) && c == Along(y, n, t) {
      var m, n, L: nat, t :| IsDir(m, n) && Flanks(b, p, x, y, m, n, L) && 1 <= t <= L
                             && r == Along(x, m, t) && c == Along(y, n, t);
      RayOf(x, y, m, n, t);
      RunLenIsFlanked(b, p, x, y, m, n, L);
    }
  }

  /** The direction (m,n) holds the square k at a distance below e. */
  predicate OnRay(x: int, y: int, m: int, n: int, e: int, k: int) {
    var dx, dy := k / 8 - x, k % 8 - y;
    Aligned(dx, dy) && Sign(dx) == m && Sign(dy) == n && Dist(dx, dy) < e
  }

  /** One ray painted with p up to its first square that is no enemy. */
  function Painted(b: Board, p: int, x: int, y: int, m: int, n: int): Board
    requires OnBoard(x, y) && IsDir(m, n)
  {
    var e := RayEnd(b, p, x, y, m, n, 1);
    seq(64, k requires 0 <= k < 64 => if OnRay(x, y, m, n, e, k) then p else b[k])
  }

  method PutMv1(b: array<int>, p: int, x0: int, y0: int, m: int, n: int)
    requires b.Length == 64 && OnBoard(x0, y0) && IsDir(m, n)
    modifies b
    ensures b[..] == Painted(old(b[..]), p, x0, y0, m, n)
  {
    hide RayEnd, OnRay;
    var x, y := x0, y0;
    ghost var b0: Board := b[..];
    ghost var t := 0;
    PaintNone(x, y, m, n);
    while true
      invariant 0 <= t <= 7 && x == Along(x0, m, t) && y == Along(y0, n, t) && OnBoard(x, y)
      invariant RayEnd(b0, p, x0, y0, m, n, 1) == RayEnd(b0, p, x0, y0, m, n, t + 1)
      invariant forall k :: 0 <= k < 64 ==> b[k] == if OnRay(x0, y0, m, n, t + 1, k) then p else b0[k]
      decreases 8 - t
    {
      t := t + 1;
      RayEndStep(b0, p, x0, y0, m, n, t);
      x := x + m;
      if !(0 <= x < 8) { return; }
      y := y + n;
      if !(0 <= y < 8) { return; }
      PaintFresh(x0, y0, m, n, t);
      if b[x * 8 + y] == EMPTY || b[x * 8 + y] == p { return; }
      PaintStep(x0, y0, m, n, t);
      b[x * 8 + y] := p;
    }
  }

  lemma RayEndStep(b: Board, p: int, x: int, y: int, m: int, n: int, t: nat)
    requires OnBoard(x, y) && IsDir(m, n) && 1 <= t <= 8
    ensures RayEnd(b, p, x, y, m, n, t) ==
            if Enemy(b, p, x, y, m, n, t) then RayEnd(b, p, x, y, m, n, t + 1) else t
    ensures Enemy(b, p, x, y, m, n, t) ==> t < 8
  {
  }

  lemma PaintFresh(x: int, y: int, m: int, n: int, t: nat)
    requires OnBoard(x, y) && IsDir(m, n) && t >= 1 && On(x, y, m, n, t)
    ensures !OnRay(x, y, m, n, t, Sq(Along(x, m, t), Along(y, n, t)))
  {
    RayOf(x, y, m, n, t);
  }

  lemma PaintNone(x: int, y: int, m: int, n: int)
    requires OnBoard(x, y)
    ensures forall k :: 0 <= k < 64 ==> !OnRay(x, y, m, n, 1, k)
  {
  }

  /** Step t of a ray is the one square that its first t+1 steps add to its first t. */
  lemma PaintStep(x: int, y: int, m: int, n: int, t: nat)
    requires OnBoard(x, y) && IsDir(m, n) && t >= 1 && On(x, y, m, n, t)
    ensures forall k :: 0 <= k < 64 ==>
              (OnRay(x, y, m, n, t + 1, k) <==> OnRay(x, y, m, n, t, k) || k == Sq(Along(x, m, t), Along(y, n, t)))
  {
    hide Aligned, Sign, Dist, Along;
    var q := Sq(Along(x, m, t), Along(y, n, t));
    RayOf(x, y, m, n, t);
    assert OnRay(x, y, m, n, t + 1, q);
    forall k | 0 <= k < 64 && OnRay(x, y, m, n, t + 1, k) && !OnRay(x, y, m, n, t, k)
      ensures k == q
    {
      RayTo(x, y, k / 8, k % 8);
      assert k == Sq(k / 8, k % 8);
    }
  }

  /** Place of a direction in putmov's double loop. */
  function Rank(m: int, n: int): int { (m + 1) * 3 + n + 1 }

  /** The move with only the directions before rank carried out. */
  function Partial(b: Board, p: int, x: int, y: int, rank: int): Board
    requires OnBoard(x, y)
  {
    seq(64, k requires 0 <= k < 64 =>
      if k == Sq(x, y) || (Flipped(b, p, x, y, k / 8, k % 8) && Rank(Sign(k / 8 - x), Sign(k % 8 - y)) < rank)
      then p else b[k])
  }

  /** Earlier flips never change what a later ray sees. */
  lemma LaterRayUnchanged(b: Board, p: int, x: int, y: int, m: int, n: int)
    requires OnBoard(x, y) && IsDir(m, n)
    ensures RayEnd(Partial(b, p, x, y, Rank(m, n)), p, x, y, m, n, 1) == RayEnd(b, p, x, y, m, n, 1)
    ensures RunLen(Partial(b, p, x, y, Rank(m, n)), p, x, y, m, n) == RunLen(b, p, x, y, m, n)
  {
    hide RayEnd, RunLen, Flipped;
    var b' := Partial(b, p, x, y, Rank(m, n));
    forall s | 1 <= s && On(x, y, m, n, s)
      ensures Cell(b, x, y, m, n, s) == Cell(b', x, y, m, n, s)
    {
      RayOf(x, y, m, n, s);
      assert Sq(Along(x, m, s), Along(y, n, s)) != Sq(x, y);
    }
    RayEndFrame(b, b', p, x, y, m, n, 1);
    RunLenFrame(b, b', p, x, y, m, n);
  }

  /** Painting a flanked ray, or leaving an unflanked one, carries out one more direction. */
  lemma OneMoreRay(b: Board, p: int, x: int, y: int, m: int, n: int)
    requires OnBoard(x, y) && IsDir(m, n)
    ensures var cur := Partial(b, p, x, y, Rank(m, n));
            Partial(b, p, x, y, Rank(m, n) + 1) ==
            if RunLen(b, p, x, y, m, n) > 0 then Painted(cur, p, x, y, m, n) else cur
  {
    hide RayEnd, RunLen, Flipped, OnRay, Rank;
    LaterRayUnchanged(b, p, x, y, m, n);
    var cur := Partial(b, p, x, y, Rank(m, n));
    var L := RunLen(b, p, x, y, m, n);
    RunLenEnd(cur, p, x, y, m, n);
    var next := Partial(b, p, x, y, Rank(m, n) + 1);
    var painted := Painted(cur, p, x, y, m, n);
    forall k | 0 <= k < 64
      ensures next[k] == if L > 0 then painted[k] else cur[k]
    {
      OneMoreSquare(b, p, x, y, m, n, k);
    }
  }

  lemma OneMoreSquare(b: Board, p: int, x: int, y: int, m: int, n: int, k: int)
    requires OnBoard(x, y) && IsDir(m, n) && 0 <= k < 64
    ensures var dx, dy, L := k / 8 - x, k % 8 - y, RunLen(b, p, x, y, m, n);
            Flipped(b, p, x, y, k / 8, k % 8) && Rank(Sign(dx), Sign(dy)) < Rank(m, n) + 1 <==>
            (Flipped(b, p, x, y, k / 8, k % 8) && Rank(Sign(dx), Sign(dy)) < Rank(m, n))
            || (L > 0 && OnRay(x, y, m, n, L + 1, k))
  {
    hide RayEnd, RunLen, Aligned, Sign, Dist, Rank;
    var r, c := k / 8, k % 8;
    if Aligned(r - x, c - y) {
      RayTo(x, y, r, c);
      RankUnique(m, n, Sign(r - x), Sign(c - y));
    }
  }

  lemma RankUnique(m: int, n: int, m': int, n': int)
    requires IsDir(m, n) && IsDir(m', n')
    ensures Rank(m', n') < Rank(m, n) + 1 <==> Rank(m', n') < Rank(m, n) || (m' == m && n' == n)
  {
  }

  lemma RunLenEnd(b: Board, p: int, x: int, y: int, m: int, n: int)
    requires OnBoard(x, y) && IsDir(m, n)
    ensures RunLen(b, p, x, y, m, n) > 0 ==>
              RayEnd(b, p, x, y, m, n, 1) == RunLen(b, p, x, y, m, n) + 1
  {
  }

  lemma PartialStart(b: Board, p: int, x: int, y: int)
    requires OnBoard(x, y)
    ensures Partial(b, p, x, y, 0) == b[Sq(x, y) := p]
  {
    hide RunLen;
    forall k | 0 <= k < 64
      ensures Rank(Sign(k / 8 - x), Sign(k % 8 - y)) >= 0
    {
    }
  }

  lemma PartialEnd(b: Board, p: int, x: int, y: int)
    requires OnBoard(x, y)
    ensures Partial(b, p, x, y, 9) == After(b, p, x, y)
  {
    hide RunLen;
    forall k | 0 <= k < 64
      ensures Rank(Sign(k / 8 - x), Sign(k % 8 - y)) < 9
    {
    }
  }

  /** No square lies in direction (0,0), which the loop skips. */
  lemma PartialMiddle(b: Board, p: int, x: int, y: int)
    requires OnBoard(x, y)
    ensures Partial(b, p, x, y, Rank(0, 0)) == Partial(b, p, x, y, Rank(0, 1))
  {
    hide RunLen;
    forall k | 0 <= k < 64 && Aligned(k / 8 - x, k % 8 - y)
      ensures Rank(Sign(k / 8 - x), Sign(k % 8 - y)) != Rank(0, 0)
    {
      RayTo(x, y, k / 8, k % 8);
    }
  }

  method PutMov(b: array<int>, p: int, x: int, y: int)
    requires b.Length == 64 && OnBoard(x, y)
    modifies b
    ensures b[..] == After(old(b[..]), p, x, y)
  {
    hide RayScore, RunLen, Painted, Partial, After;
    ghost var b0: Board := b[..];
    b[x * 8 + y] := p;
    PartialStart(b0, p, x, y);
    PartialEnd(b0, p, x, y);
    PartialMiddle(b0, p, x, y);
    assert b[..] == Partial(b0, p, x, y, 0);
    for i := -1 to 2
      invariant b[..] == Partial(b0, p, x, y, Rank(i, -1))
    {
      for j := -1 to 2
        invariant b[..] == Partial(b0, p, x, y, Rank(i, j))
      {
        if i != 0 || j != 0 {
          LaterRayUnchanged(b0, p, x, y, i, j);
          OneMoreRay(b0, p, x, y, i, j);
          ScoreIffRun(b[..], p, x, y, i, j);
          var k := ChkMv1(b, p, x, y, i, j);
          if k > 0 {
            PutMv1(b, p, x, y, i, j);
          }
        }
      }
    }
  }

  lemma ScoreIffRun(b: Board, p: int, x: int, y: int, m: int, n: int)
    requires OnBoard(x, y) && IsDir(m, n)
    ensures RayScore(b, p, x, y, m, n) > 0 <==> RunLen(b, p, x, y, m, n) > 0
  {
  }
}
