/** What a move does to the piece counts, and how chkmov's score bounds the number of pieces
    flipped. */
module OthelloCounts {
  import opened OthelloRays
  import opened OthelloFlips

  /** The pieces a move turns over. */
  function FlipSet(b: Board, p: int, x: int, y: int): set<nat>
    requires OnBoard(x, y)
  {
    set k: nat | k < 64 && Flipped(b, p, x, y, k / 8, k % 8)
  }

  /** The squares of a ray before step e. */
  function RaySquares(x: int, y: int, m: int, n: int, e: nat): set<nat> {
    set k: nat | k < 64 && OnRay(x, y, m, n, e, k)
  }

  lemma RaySquaresStep(x: int, y: int, m: int, n: int, L: nat)
    requires OnBoard(x, y) && IsDir(m, n) && L > 0 && On(x, y, m, n, L)
    ensures var q := Sq(Along(x, m, L), Along(y, n, L));
            q !in RaySquares(x, y, m, n, L) && RaySquares(x, y, m, n, L + 1) == RaySquares(x, y, m, n, L) + {q}
  {
    hide OnRay, Along;
    PaintStep(x, y, m, n, L);
    PaintFresh(x, y, m, n, L);
  }

  lemma {:induction false} RayCount(x: int, y: int, m: int, n: int, L: nat)
    requires OnBoard(x, y) && IsDir(m, n) && (L > 0 ==> On(x, y, m, n, L))
    ensures |RaySquares(x, y, m, n, L + 1)| == L
  {
    hide OnRay, Along, On;
    if L == 0 {
      PaintNone(x, y, m, n);
      assert RaySquares(x, y, m, n, 1) == {};
    } else {
      OnConvex(x, y, m, n, L);
      RayCount(x, y, m, n, L - 1);
      RaySquaresStep(x, y, m, n, L);
    }
  }

  lemma OnConvex(x: int, y: int, m: int, n: int, L: nat)
    requires OnBoard(x, y) && IsDir(m, n) && L > 0 && On(x, y, m, n, L)
    ensures On(x, y, m, n, L - 1)
  {
  }

  function Run(b: Board, p: int, x: int, y: int, m: int, n: int): set<nat>
    requires OnBoard(x, y) && IsDir(m, n)
  {
    RaySquares(x, y, m, n, RunLen(b, p, x, y, m, n) + 1)
  }

  lemma RunCount(b: Board, p: int, x: int, y: int, m: int, n: int)
    requires OnBoard(x, y) && IsDir(m, n)
    ensures |Run(b, p, x, y, m, n)| == RunLen(b, p, x, y, m, n)
  {
    RunOn(b, p, x, y, m, n);
    RayCount(x, y, m, n, RunLen(b, p, x, y, m, n));
  }

  lemma RunOn(b: Board, p: int, x: int, y: int, m: int, n: int)
    requires OnBoard(x, y) && IsDir(m, n)
    ensures var L := RunLen(b, p, x, y, m, n);
            L > 0 ==> On(x, y, m, n, L)
  {
    hide RunLen;
    var L := RunLen(b, p, x, y, m, n);
    if L > 0 {
      RunLenIsFlanked(b, p, x, y, m, n, L);
      assert Enemy(b, p, x, y, m, n, L);
    }
  }

  lemma RunsDisjoint(b: Board, p: int, x: int, y: int, m: int, n: int, m': int, n': int)
    requires OnBoard(x, y) && IsDir(m, n) && IsDir(m', n') && (m != m' || n != n')
    ensures Run(b, p, x, y, m, n) !! Run(b, p, x, y, m', n')
  {
    hide RunLen, Aligned, Sign, Dist;
  }

  lemma InSomeRun(b: Board, p: int, x: int, y: int, k: nat)
    requires OnBoard(x, y) && k < 64
    ensures k in FlipSet(b, p, x, y) <==> exists m, n :: IsDir(m, n) && k in Run(b, p, x, y, m, n)
  {
    hide RunLen, Aligned, Sign, Dist;
    if k in FlipSet(b, p, x, y) {
      RayTo(x, y, k / 8, k % 8);
      assert k in Run(b, p, x, y, Sign(k / 8 - x), Sign(k % 8 - y));
    }
  }

  function TotalRun(b: Board, p: int, x: int, y: int): nat
    requires OnBoard(x, y)
  {
    RunLen(b, p, x, y, 0, 1) + RunLen(b, p, x, y, 1, 0) +
    RunLen(b, p, x, y, 0, -1) + RunLen(b, p, x, y, -1, 0) +
    RunLen(b, p, x, y, 1, 1) + RunLen(b, p, x, y, 1, -1) +
    RunLen(b, p, x, y, -1, 1) + RunLen(b, p, x, y, -1, -1)
  }

  function Half1(b: Board, p: int, x: int, y: int): set<nat>
    requires OnBoard(x, y)
  {
    Run(b, p, x, y, 0, 1) + Run(b, p, x, y, 1, 0) + Run(b, p, x, y, 0, -1) + Run(b, p, x, y, -1, 0)
  }

  function Half2(b: Board, p: int, x: int, y: int): set<nat>
    requires OnBoard(x, y)
  {
    Run(b, p, x, y, 1, 1) + Run(b, p, x, y, 1, -1) + Run(b, p, x, y, -1, 1) + Run(b, p, x, y, -1, -1)
  }

  lemma CardOf4(a: set<nat>, b: set<nat>, c: set<nat>, d: set<nat>)
    requires a !! b !! c !! d
    ensures |a + b + c + d| == |a| + |b| + |c| + |d|
  {
    assert |a + b| == |a| + |b|;
    assert |a + b + c| == |a + b| + |c|;
  }

  /** The number of pieces flipped is the sum of the eight run lengths. */
  lemma FlipCount(b: Board, p: int, x: int, y: int)
    requires OnBoard(x, y)
    ensures |FlipSet(b, p, x, y)| == TotalRun(b, p, x, y)
  {
    hide Run, RunLen, FlipSet;
    forall m, n, m', n' | IsDir(m, n) && IsDir(m', n') && (m != m' || n != n')
      ensures Run(b, p, x, y, m, n) !! Run(b, p, x, y, m', n')
    {
      RunsDisjoint(b, p, x, y, m, n, m', n');
    }
    forall m, n | IsDir(m, n)
      ensures |Run(b, p, x, y, m, n)| == RunLen(b, p, x, y, m, n)
    {
      RunCount(b, p, x, y, m, n);
    }
    var h1, h2 := Half1(b, p, x, y), Half2(b, p, x, y);
    CardOf4(Run(b, p, x, y, 0, 1), Run(b, p, x, y, 1, 0), Run(b, p, x, y, 0, -1), Run(b, p, x, y, -1, 0));
    CardOf4(Run(b, p, x, y, 1, 1), Run(b, p, x, y, 1, -1), Run(b, p, x, y, -1, 1), Run(b, p, x, y, -1, -1));
    FlipSetIsUnion(b, p, x, y);
    assert h1 !! h2;
    assert |h1 + h2| == |h1| + |h2|;
  }

  lemma FlipSetIsUnion(b: Board, p: int, x: int, y: int)
    requires OnBoard(x, y)
    ensures FlipSet(b, p, x, y) == Half1(b, p, x, y) + Half2(b, p, x, y)
  {
    hide Flipped, RunLen, OnRay;
    forall k: nat | k < 64
      ensures k in FlipSet(b, p, x, y) <==> k in Half1(b, p, x, y) + Half2(b, p, x, y)
    {
      InSomeRun(b, p, x, y, k);
    }
  }

  /** chkmov scores an empty square above 0 exactly when the move flips F >= 1 pieces, and then
      F <= score <= 10 * F. */
  lemma ScoreBoundsFlips(b: Board, p: int, x: int, y: int)
    requires OnBoard(x, y) && b[Sq(x, y)] == EMPTY
    ensures var F := |FlipSet(b, p, x, y)|;
            F <= MoveScore(b, p, x, y) <= 10 * F && (F >= 1 <==> Legal(b, p, x, y))
  {
    hide RunLen, Weight, FlipSet, Legal;
    FlipCount(b, p, x, y);
    LegalIffScored(b, p, x, y);
  }

  // ----- what a score is made of

  /** The squares of a set that lie on the rim of the board. */
  function RimOf(s: set<nat>): set<nat> {
    set k | k in s && (k / 8 == 0 || k / 8 == 7 || k % 8 == 0 || k % 8 == 7)
  }

  /** A square of a ray weighs 1, and 9 more on the rim. */
  lemma {:induction false} RayWeight(x: int, y: int, m: int, n: int, L: nat)
    requires OnBoard(x, y) && IsDir(m, n) && (L > 0 ==> On(x, y, m, n, L))
    ensures Weight(x, y, m, n, L) == L + 9 * |RimOf(RaySquares(x, y, m, n, L + 1))|
  {
    hide OnRay, Along, On;
    if L == 0 {
      PaintNone(x, y, m, n);
      assert RaySquares(x, y, m, n, 1) == {};
      assert RimOf({}) == {};
    } else {
      OnConvex(x, y, m, n, L);
      RayWeight(x, y, m, n, L - 1);
      RaySquaresStep(x, y, m, n, L);
      LastOnRim(x, y, m, n, L);
    }
  }

  lemma LastOnRim(x: int, y: int, m: int, n: int, L: nat)
    requires OnBoard(x, y) && IsDir(m, n) && L > 0 && On(x, y, m, n, L)
    requires var q := Sq(Along(x, m, L), Along(y, n, L));
             q !in RaySquares(x, y, m, n, L) && RaySquares(x, y, m, n, L + 1) == RaySquares(x, y, m, n, L) + {q}
    ensures |RimOf(RaySquares(x, y, m, n, L + 1))| == |RimOf(RaySquares(x, y, m, n, L))|
              + if Edge(Along(x, m, L), Along(y, n, L)) then 1 else 0
  {
    hide RaySquares, Along;
    var q := Sq(Along(x, m, L), Along(y, n, L));
    var before, after := RimOf(RaySquares(x, y, m, n, L)), RimOf(RaySquares(x, y, m, n, L + 1));
    if Edge(Along(x, m, L), Along(y, n, L)) {
      assert after == before + {q};
    } else {
      assert after == before;
    }
  }

  /** A ray scores 1 for each piece that it captures, and 9 more for each of them on the rim. */
  lemma RayScoreCounts(b: Board, p: int, x: int, y: int, m: int, n: int)
    requires OnBoard(x, y) && IsDir(m, n)
    ensures RayScore(b, p, x, y, m, n) == |Run(b, p, x, y, m, n)| + 9 * |RimOf(Run(b, p, x, y, m, n))|
  {
    hide RunLen, Weight;
    RunOn(b, p, x, y, m, n);
    RunCount(b, p, x, y, m, n);
    RayWeight(x, y, m, n, RunLen(b, p, x, y, m, n));
  }

  lemma RimOf4(a: set<nat>, b: set<nat>, c: set<nat>, d: set<nat>)
    requires a !! b !! c !! d
    ensures |RimOf(a + b + c + d)| == |RimOf(a)| + |RimOf(b)| + |RimOf(c)| + |RimOf(d)|
  {
    CardOf4(RimOf(a), RimOf(b), RimOf(c), RimOf(d));
    assert RimOf(a + b + c + d) == RimOf(a) + RimOf(b) + RimOf(c) + RimOf(d);
  }

  lemma RimOf2(a: set<nat>, b: set<nat>)
    requires a !! b
    ensures |RimOf(a + b)| == |RimOf(a)| + |RimOf(b)|
  {
    assert RimOf(a + b) == RimOf(a) + RimOf(b);
  }

  lemma RimCount(b: Board, p: int, x: int, y: int)
    requires OnBoard(x, y)
    ensures |RimOf(FlipSet(b, p, x, y))| ==
            |RimOf(Run(b, p, x, y, 0, 1))| + |RimOf(Run(b, p, x, y, 1, 0))| +
            |RimOf(Run(b, p, x, y, 0, -1))| + |RimOf(Run(b, p, x, y, -1, 0))| +
            |RimOf(Run(b, p, x, y, 1, 1))| + |RimOf(Run(b, p, x, y, 1, -1))| +
            |RimOf(Run(b, p, x, y, -1, 1))| + |RimOf(Run(b, p, x, y, -1, -1))|
  {
    hide Run, RunLen, FlipSet, RimOf;
    forall m, n, m', n' | IsDir(m, n) && IsDir(m', n') && (m != m' || n != n')
      ensures Run(b, p, x, y, m, n) !! Run(b, p, x, y, m', n')
    {
      RunsDisjoint(b, p, x, y, m, n, m', n');
    }
    RimOf4(Run(b, p, x, y, 0, 1), Run(b, p, x, y, 1, 0), Run(b, p, x, y, 0, -1), Run(b, p, x, y, -1, 0));
    RimOf4(Run(b, p, x, y, 1, 1), Run(b, p, x, y, 1, -1), Run(b, p, x, y, -1, 1), Run(b, p, x, y, -1, -1));
    FlipSetIsUnion(b, p, x, y);
    RimOf2(Half1(b, p, x, y), Half2(b, p, x, y));
  }

  lemma ScoreByRim(b: Board, p: int, x: int, y: int)
    requires OnBoard(x, y) && b[Sq(x, y)] == EMPTY
    ensures MoveScore(b, p, x, y) == |FlipSet(b, p, x, y)| + 9 * |RimOf(FlipSet(b, p, x, y))|
  {
    hide Run, RunLen, RayScore, FlipSet, Weight;
    FlipCount(b, p, x, y);
    RimCount(b, p, x, y);
    forall m, n | IsDir(m, n)
      ensures RayScore(b, p, x, y, m, n) == RunLen(b, p, x, y, m, n) + 9 * |RimOf(Run(b, p, x, y, m, n))|
    {
      RunCount(b, p, x, y, m, n);
      RayScoreCounts(b, p, x, y, m, n);
    }
    hide RimOf;
  }

  /** The score of a move is the number of pieces it flips, and 9 more for each of them on the rim. */
  lemma ScoreIsFlips(b: Board, p: int, x: int, y: int)
    requires OnBoard(x, y) && b[Sq(x, y)] == EMPTY
    ensures var F := FlipSet(b, p, x, y);
            MoveScore(b, p, x, y) ==
            |F| + 9 * |set k | k in F && (k / 8 == 0 || k / 8 == 7 || k % 8 == 0 || k % 8 == 7)|
  {
    hide MoveScore, FlipSet;
    ScoreByRim(b, p, x, y);
    var F := FlipSet(b, p, x, y);
    assert RimOf(F) == set k | k in F && (k / 8 == 0 || k / 8 == 7 || k % 8 == 0 || k % 8 == 7);
  }

  /** A legal move scores 10 or more exactly if it flips a piece on the rim, or at least ten pieces. */
  lemma HeavyScore(b: Board, p: int, x: int, y: int)
    requires Legal(b, p, x, y)
    ensures var F := FlipSet(b, p, x, y);
            MoveScore(b, p, x, y) >= 10 <==>
            |F| >= 10 || exists k :: k in F && (k / 8 == 0 || k / 8 == 7 || k % 8 == 0 || k % 8 == 7)
  {
    hide MoveScore, FlipSet, Legal;
    LegalSquareEmpty(b, p, x, y);
    var F := FlipSet(b, p, x, y);
    ScoreByRim(b, p, x, y);
    ScoreBoundsFlips(b, p, x, y);
    var rim := RimOf(F);
    if |rim| > 0 {
      var k :| k in rim;
      assert k in F && (k / 8 == 0 || k / 8 == 7 || k % 8 == 0 || k % 8 == 7);
    } else {
      forall k | k in F
        ensures !(k / 8 == 0 || k / 8 == 7 || k % 8 == 0 || k % 8 == 7)
      {
        assert k !in rim;
      }
    }
  }

  lemma LegalSquareEmpty(b: Board, p: int, x: int, y: int)
    requires Legal(b, p, x, y)
    ensures OnBoard(x, y) && b[Sq(x, y)] == EMPTY
  {
  }

  lemma FlipsAreEnemies(b: Board, p: int, x: int, y: int, k: nat)
    requires OnBoard(x, y) && k in FlipSet(b, p, x, y)
    ensures k < 64 && k != Sq(x, y) && b[k] != EMPTY && b[k] != p
  {
    FlippedIsCaptured(b, p, x, y, k / 8, k % 8);
    var m, n, L: nat, t :| IsDir(m, n) && Flanks(b, p, x, y, m, n, L) && 1 <= t <= L
                           && k / 8 == Along(x, m, t) && k % 8 == Along(y, n, t);
    assert Enemy(b, p, x, y, m, n, t);
    assert k == Sq(k / 8, k % 8);
    RayOf(x, y, m, n, t);
  }

  /** Conservation: a move on an empty square gives the mover the new piece and every flipped
      one, takes the flipped ones from the opponent, and uses up one empty square. */
  lemma MoveCounts(b: Board, p: int, x: int, y: int)
    requires OnBoard(x, y) && b[Sq(x, y)] == EMPTY && IsSide(p) && ThreeColour(b)
    ensures var b' := After(b, p, x, y); var F := |FlipSet(b, p, x, y)|;
            && ThreeColour(b')
            && Count(b', p) == Count(b, p) + F + 1
            && Count(b', Opponent(p)) == Count(b, Opponent(p)) - F
            && Count(b', EMPTY) == Count(b, EMPTY) - 1
  {
    hide Flipped;
    var b', flips, q := After(b, p, x, y), FlipSet(b, p, x, y), Sq(x, y);
    var o := Opponent(p);
    forall k | k in flips
      ensures b[k] == o && k != q
    {
      FlipsAreEnemies(b, p, x, y, k);
    }
    assert forall k: nat :: k < 64 ==> (k in flips <==> Flipped(b, p, x, y, k / 8, k % 8));
    assert Squares(b', p) == Squares(b, p) + flips + {q};
    assert Squares(b, o) == Squares(b', o) + flips;
    assert Squares(b, EMPTY) == Squares(b', EMPTY) + {q};
  }

  lemma CountsAddUp(b: Board)
    requires ThreeColour(b)
    ensures Count(b, BLACK) + Count(b, WHITE) + Count(b, EMPTY) == 64
  {
    assert Below(64) == Squares(b, BLACK) + Squares(b, WHITE) + Squares(b, EMPTY);
  }

  function Below(n: nat): (s: set<nat>)
    ensures |s| == n && forall k: nat :: k in s <==> k < n
  {
    if n == 0 then {} else Below(n - 1) + {n - 1}
  }
}
