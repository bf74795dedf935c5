/** Squares, rays and runs of the Othello board, and the scanning routines of examples/othello.c
    that only read the board: chkmv1, chkmov, chkmvs, cntbrd and clrbrd. */
module OthelloRays {

  // The piece codes of the default build: '*', 'O' and '-'.
  const BLACK: int := 42
  const WHITE: int := 79
  const EMPTY: int := 45

  type Board = b: seq<int> | |b| == 64 witness seq(64, _ => 45)

  predicate IsSide(p: int) { p == BLACK || p == WHITE }

  function Opponent(p: int): int { if p == BLACK then WHITE else BLACK }

  /** Only the three colours occur. */
  predicate ThreeColour(b: Board) {
    forall k :: 0 <= k < 64 ==> b[k] == BLACK || b[k] == WHITE || b[k] == EMPTY
  }

  predicate OnBoard(x: int, y: int) { 0 <= x < 8 && 0 <= y < 8 }

  function Sq(x: int, y: int): (k: nat)
    requires OnBoard(x, y)
    ensures k < 64 && k / 8 == x && k % 8 == y
  {
    x * 8 + y
  }

  predicate IsDir(m: int, n: int) { -1 <= m <= 1 && -1 <= n <= 1 && (m != 0 || n != 0) }

  /** Coordinate x after t steps of m, for m in -1..1. */
  function Along(x: int, m: int, t: int): int {
    if m == 0 then x else if m < 0 then x - t else x + t
  }

  lemma AlongStep(x: int, m: int, t: nat)
    requires -1 <= m <= 1
    ensures Along(x, m, 0) == x && Along(x, m, t + 1) == Along(x, m, t) + m
  {
  }

  predicate On(x: int, y: int, m: int, n: int, t: int) { OnBoard(Along(x, m, t), Along(y, n, t)) }

  function Cell(b: Board, x: int, y: int, m: int, n: int, t: int): int
    requires On(x, y, m, n, t)
  {
    b[Sq(Along(x, m, t), Along(y, n, t))]
  }

  /** Step t of the ray holds a piece that p could capture. */
  predicate Enemy(b: Board, p: int, x: int, y: int, m: int, n: int, t: int) {
    On(x, y, m, n, t) && Cell(b, x, y, m, n, t) != EMPTY && Cell(b, x, y, m, n, t) != p
  }

  /** The reference notion: exactly the L pieces next to (x,y) in direction (m,n) stand between
      (x,y) and a piece of p. */
  ghost predicate Flanks(b: Board, p: int, x: int, y: int, m: int, n: int, L: nat) {
    && (forall t :: 1 <= t <= L ==> Enemy(b, p, x, y, m, n, t))
    && On(x, y, m, n, L + 1)
    && Cell(b, x, y, m, n, L + 1) == p
    && p != EMPTY
  }

  /** First step from t on that does not hold an enemy piece. */
  function RayEnd(b: Board, p: int, x: int, y: int, m: int, n: int, t: nat): (e: nat)
    requires OnBoard(x, y) && IsDir(m, n) && 1 <= t <= 8
    ensures t <= e <= 8
    decreases 8 - t
  {
    if Enemy(b, p, x, y, m, n, t) then RayEnd(b, p, x, y, m, n, t + 1) else t
  }

  lemma {:induction false} RayEndMeaning(b: Board, p: int, x: int, y: int, m: int, n: int, t: nat)
    requires OnBoard(x, y) && IsDir(m, n) && 1 <= t <= 8
    ensures var e := RayEnd(b, p, x, y, m, n, t);
            !Enemy(b, p, x, y, m, n, e) && forall s :: t <= s < e ==> Enemy(b, p, x, y, m, n, s)
    decreases 8 - t
  {
    if Enemy(b, p, x, y, m, n, t) {
      RayEndMeaning(b, p, x, y, m, n, t + 1);
    }
  }

  /** How many pieces p would capture in one direction: 0 when the run is not flanked. */
  function RunLen(b: Board, p: int, x: int, y: int, m: int, n: int): (L: nat)
    requires OnBoard(x, y) && IsDir(m, n)
    ensures L <= 7
  {
    var e := RayEnd(b, p, x, y, m, n, 1);
    if p != EMPTY && On(x, y, m, n, e) && Cell(b, x, y, m, n, e) == p then e - 1 else 0
  }

  /** RunLen computes the reference notion, in both directions. */
  lemma RunLenIsFlanked(b: Board, p: int, x: int, y: int, m: int, n: int, L: nat)
    requires OnBoard(x, y) && IsDir(m, n) && L > 0
    ensures Flanks(b, p, x, y, m, n, L) <==> RunLen(b, p, x, y, m, n) == L
  {
    RayEndMeaning(b, p, x, y, m, n, 1);
    var e := RayEnd(b, p, x, y, m, n, 1);
    if Flanks(b, p, x, y, m, n, L) {
      assert !Enemy(b, p, x, y, m, n, L + 1);
      assert e <= L ==> Enemy(b, p, x, y, m, n, e);
      assert e == L + 1;
    }
  }

  /** A ray is judged by its own squares only. */
  lemma {:induction false} RayEndFrame(b: Board, b': Board, p: int, x: int, y: int, m: int, n: int, t: nat)
    requires OnBoard(x, y) && IsDir(m, n) && 1 <= t <= 8
    requires forall s :: t <= s && On(x, y, m, n, s) ==> Cell(b, x, y, m, n, s) == Cell(b', x, y, m, n, s)
    ensures RayEnd(b, p, x, y, m, n, t) == RayEnd(b', p, x, y, m, n, t)
    decreases 8 - t
  {
    if Enemy(b, p, x, y, m, n, t) {
      RayEndFrame(b, b', p, x, y, m, n, t + 1);
    }
  }

  lemma RunLenFrame(b: Board, b': Board, p: int, x: int, y: int, m: int, n: int)
    requires OnBoard(x, y) && IsDir(m, n)
    requires forall s :: 1 <= s && On(x, y, m, n, s) ==> Cell(b, x, y, m, n, s) == Cell(b', x, y, m, n, s)
    ensures RunLen(b, p, x, y, m, n) == RunLen(b', p, x, y, m, n)
  {
    RayEndFrame(b, b', p, x, y, m, n, 1);
  }

  predicate Edge(x: int, y: int) { x == 0 || x == 7 || y == 0 || y == 7 }

  /** Weight of the first L squares of a ray: 10 on the rim, 1 inside. */
  function Weight(x: int, y: int, m: int, n: int, L: nat): (w: nat)
    ensures L <= w <= 10 * L
  {
    if L == 0 then 0
    else Weight(x, y, m, n, L - 1) + (if Edge(Along(x, m, L), Along(y, n, L)) then 10 else 1)
  }

  /** The steps of a ray, from 1 to L, that lie on the rim. */
  function RimSteps(x: int, y: int, m: int, n: int, L: nat): set<nat> {
    set t: nat | 1 <= t <= L
                 && (Along(x, m, t) == 0 || Along(x, m, t) == 7 || Along(y, n, t) == 0 || Along(y, n, t) == 7)
  }

  lemma {:induction false} WeightOfSteps(x: int, y: int, m: int, n: int, L: nat)
    ensures Weight(x, y, m, n, L) == L + 9 * |RimSteps(x, y, m, n, L)|
  {
    hide Along;
    if L == 0 {
      assert RimSteps(x, y, m, n, 0) == {};
    } else {
      WeightOfSteps(x, y, m, n, L - 1);
      if Edge(Along(x, m, L), Along(y, n, L)) {
        assert RimSteps(x, y, m, n, L) == RimSteps(x, y, m, n, L - 1) + {L};
      } else {
        assert RimSteps(x, y, m, n, L) == RimSteps(x, y, m, n, L - 1);
      }
    }
  }

  /** A ray scores 1 for every piece of its flanked run, and 9 more for each of them on the rim. */
  lemma RayScoreOfRun(b: Board, p: int, x: int, y: int, m: int, n: int)
    requires OnBoard(x, y) && IsDir(m, n)
    ensures forall L: nat :: L > 0 && Flanks(b, p, x, y, m, n, L) ==>
              RayScore(b, p, x, y, m, n) == L + 9 * |RimSteps(x, y, m, n, L)|
    ensures !Captures(b, p, x, y, m, n) ==> RayScore(b, p, x, y, m, n) == 0
  {
    hide Flanks, RunLen, Weight, RimSteps;
    RayScorePositive(b, p, x, y, m, n);
    forall L: nat | L > 0 && Flanks(b, p, x, y, m, n, L)
      ensures RayScore(b, p, x, y, m, n) == L + 9 * |RimSteps(x, y, m, n, L)|
    {
      RunLenIsFlanked(b, p, x, y, m, n, L);
      WeightOfSteps(x, y, m, n, L);
    }
  }

  function RayScore(b: Board, p: int, x: int, y: int, m: int, n: int): nat
    requires OnBoard(x, y) && IsDir(m, n)
  {
    Weight(x, y, m, n, RunLen(b, p, x, y, m, n))
  }

  function MoveScore(b: Board, p: int, x: int, y: int): nat
    requires OnBoard(x, y)
  {
    if b[Sq(x, y)] != EMPTY then 0
    else RayScore(b, p, x, y, 0, 1) + RayScore(b, p, x, y, 1, 0) +
         RayScore(b, p, x, y, 0, -1) + RayScore(b, p, x, y, -1, 0) +
         RayScore(b, p, x, y, 1, 1) + RayScore(b, p, x, y, 1, -1) +
         RayScore(b, p, x, y, -1, 1) + RayScore(b, p, x, y, -1, -1)
  }

  /** p captures at least one piece in one direction. */
  ghost predicate Captures(b: Board, p: int, x: int, y: int, m: int, n: int) {
    exists L: nat :: L > 0 && Flanks(b, p, x, y, m, n, L)
  }

  /** The rules: a move is legal on an empty square from which some run is flanked. */
  ghost predicate Legal(b: Board, p: int, x: int, y: int) {
    && OnBoard(x, y)
    && b[Sq(x, y)] == EMPTY
    && exists m, n :: IsDir(m, n) && Captures(b, p, x, y, m, n)
  }

  lemma RayScorePositive(b: Board, p: int, x: int, y: int, m: int, n: int)
    requires OnBoard(x, y) && IsDir(m, n)
    ensures RayScore(b, p, x, y, m, n) > 0 <==> Captures(b, p, x, y, m, n)
    ensures RayScore(b, p, x, y, m, n) <= 60
  {
    var L := RunLen(b, p, x, y, m, n);
    if L > 0 {
      RunLenIsFlanked(b, p, x, y, m, n, L);
    } else if Captures(b, p, x, y, m, n) {
      var L: nat :| L > 0 && Flanks(b, p, x, y, m, n, L);
      RunLenIsFlanked(b, p, x, y, m, n, L);
    }
  }

  lemma LegalIffScored(b: Board, p: int, x: int, y: int)
    requires OnBoard(x, y)
    ensures Legal(b, p, x, y) <==> MoveScore(b, p, x, y) > 0
    ensures MoveScore(b, p, x, y) <= 480
  {
    hide Captures, RayScore;
    RayScorePositive(b, p, x, y, 0, 1);
    RayScorePositive(b, p, x, y, 1, 0);
    RayScorePositive(b, p, x, y, 0, -1);
    RayScorePositive(b, p, x, y, -1, 0);
    RayScorePositive(b, p, x, y, 1, 1);
    RayScorePositive(b, p, x, y, 1, -1);
    RayScorePositive(b, p, x, y, -1, 1);
    RayScorePositive(b, p, x, y, -1, -1);
  }

  /** Sum of the move scores of the first k squares, row by row. */
  function ScoreSum(b: Board, p: int, k: nat): nat
    requires k <= 64
  {
    if k == 0 then 0 else ScoreSum(b, p, k - 1) + MoveScore(b, p, (k - 1) / 8, (k - 1) % 8)
  }

  lemma {:induction false} ScoreSumZero(b: Board, p: int, k: nat)
    requires k <= 64
    ensures ScoreSum(b, p, k) == 0 <==> forall x, y :: OnBoard(x, y) && Sq(x, y) < k ==> !Legal(b, p, x, y)
    ensures ScoreSum(b, p, k) <= 480 * k
  {
    hide Legal, MoveScore;
    if k > 0 {
      ScoreSumZero(b, p, k - 1);
      var x, y := (k - 1) / 8, (k - 1) % 8;
      LegalIffScored(b, p, x, y);
      assert forall x', y' :: OnBoard(x', y') && Sq(x', y') == k - 1 ==> x' == x && y' == y;
    }
  }

  /** Some legal move exists. */
  ghost predicate CanMove(b: Board, p: int) {
    exists x, y :: OnBoard(x, y) && Legal(b, p, x, y)
  }

  lemma CanMoveIffScored(b: Board, p: int)
    ensures CanMove(b, p) <==> ScoreSum(b, p, 64) > 0
  {
    ScoreSumZero(b, p, 64);
  }

  function Squares(b: seq<int>, c: int): set<nat> { set k: nat | k < |b| && b[k] == c }

  function Count(b: Board, c: int): nat { |Squares(b, c)| }

  /** What a scan learns at step t, having met only enemy pieces before. */
  lemma RunLenAt(b: Board, p: int, x: int, y: int, m: int, n: int, t: nat)
    requires OnBoard(x, y) && IsDir(m, n) && 1 <= t <= 8
    requires RayEnd(b, p, x, y, m, n, 1) == RayEnd(b, p, x, y, m, n, t)
    ensures if !On(x, y, m, n, t) || Cell(b, x, y, m, n, t) == EMPTY then RunLen(b, p, x, y, m, n) == 0
            else if Cell(b, x, y, m, n, t) == p then RunLen(b, p, x, y, m, n) == t - 1
            else t < 8 && RayEnd(b, p, x, y, m, n, 1) == RayEnd(b, p, x, y, m, n, t + 1)
  {
  }

  // ----- the scanning routines

  method ChkMv1(b: array<int>, p: int, x0: int, y0: int, m: int, n: int) returns (k: int)
    requires b.Length == 64 && OnBoard(x0, y0) && IsDir(m, n)
    ensures k == RayScore(b[..], p, x0, y0, m, n)
    ensures forall L: nat :: L > 0 && Flanks(b[..], p, x0, y0, m, n, L) ==> k == L + 9 * |RimSteps(x0, y0, m, n, L)|
    ensures !Captures(b[..], p, x0, y0, m, n) ==> k == 0
  {
    hide RayEnd, RunLen, Along, Flanks, Captures, RimSteps;
    RayScoreOfRun(b[..], p, x0, y0, m, n);
    AlongStep(x0, m, 0);
    AlongStep(y0, n, 0);
    var x, y := x0, y0;
    ghost var t := 0;
    k := 0;
    while true
      invariant 0 <= t <= 7 && x == Along(x0, m, t) && y == Along(y0, n, t) && OnBoard(x, y)
      invariant RayEnd(b[..], p, x0, y0, m, n, 1) == RayEnd(b[..], p, x0, y0, m, n, t + 1)
      invariant k == Weight(x0, y0, m, n, t)
      decreases 8 - t
    {
      t := t + 1;
      RunLenAt(b[..], p, x0, y0, m, n, t);
      AlongStep(x0, m, t - 1);
      AlongStep(y0, n, t - 1);
      x := x + m;
      if !(0 <= x < 8) { return 0; }
      y := y + n;
      if !(0 <= y < 8) { return 0; }
      if b[x * 8 + y] == EMPTY { return 0; }
      if b[x * 8 + y] == p { return; }
      if x == 0 || x == 7 || y == 0 || y == 7 {
        k := k + 10;
      } else {
        k := k + 1;
      }
    }
  }

  method ChkMov(b: array<int>, p: int, x: int, y: int) returns (k: int)
    requires b.Length == 64 && OnBoard(x, y)
    ensures k == MoveScore(b[..], p, x, y)
  {
    hide RayScore, Flanks, Captures, RimSteps;
    if b[x * 8 + y] != EMPTY { return 0; }
    var e := ChkMv1(b, p, x, y, 0, 1);
    var s := ChkMv1(b, p, x, y, 1, 0);
    var w := ChkMv1(b, p, x, y, 0, -1);
    var nn := ChkMv1(b, p, x, y, -1, 0);
    var se := ChkMv1(b, p, x, y, 1, 1);
    var sw := ChkMv1(b, p, x, y, 1, -1);
    var ne := ChkMv1(b, p, x, y, -1, 1);
    var nw := ChkMv1(b, p, x, y, -1, -1);
    k := e + s + w + nn + se + sw + ne + nw;
  }

  /** The total fits the machine's 16-bit int. */
  method ChkMvs(b: array<int>, p: int) returns (k: int)
    requires b.Length == 64
    ensures k == ScoreSum(b[..], p, 64)
    ensures k > 0 <==> CanMove(b[..], p)
    ensures 0 <= k <= 30720
  {
    hide MoveScore, CanMove;
    k := 0;
    for i := 0 to 8
      invariant k == ScoreSum(b[..], p, i * 8)
    {
      for j := 0 to 8
        invariant k == ScoreSum(b[..], p, i * 8 + j)
      {
        var c := ChkMov(b, p, i, j);
        k := k + c;
      }
    }
    CanMoveIffScored(b[..], p);
    ScoreSumZero(b[..], p, 64);
  }

  method CntBrd(b: array<int>, p: int) returns (k: int)
    requires b.Length == 64
    ensures k == Count(b[..], p)
  {
    var i := 64;
    k := 0;
    ghost var seen: set<nat> := {};
    while i > 0
      invariant 0 <= i <= 64
      invariant seen == set q: nat | i <= q < 64 && b[q] == p
      invariant k == |seen|
    {
      i := i - 1;
      if b[i] == p {
        seen := seen + {i};
        k := k + 1;
      }
    }
    assert seen == Squares(b[..], p);
  }

  function Opening(): Board {
    seq(64, k => if k == 27 || k == 36 then BLACK else if k == 28 || k == 35 then WHITE else EMPTY)
  }

  /** At the opening Black has exactly his four moves. */
  lemma OpeningMoves(x: int, y: int)
    ensures Legal(Opening(), BLACK, x, y) <==>
            (x == 2 && y == 4) || (x == 3 && y == 5) || (x == 4 && y == 2) || (x == 5 && y == 3)
  {
    if Legal(Opening(), BLACK, x, y) {
      var m, n :| IsDir(m, n) && Captures(Opening(), BLACK, x, y, m, n);
      var L: nat :| L > 0 && Flanks(Opening(), BLACK, x, y, m, n, L);
      OpeningRun(x, y, m, n, L);
    }
    OpeningFlank(2, 4, 1, 0);
    OpeningFlank(3, 5, 0, -1);
    OpeningFlank(4, 2, 0, 1);
    OpeningFlank(5, 3, -1, 0);
  }

  lemma OpeningFlank(x: int, y: int, m: int, n: int)
    requires OnBoard(x, y) && Opening()[Sq(x, y)] == EMPTY && IsDir(m, n)
    requires On(x, y, m, n, 1) && Cell(Opening(), x, y, m, n, 1) == WHITE
    requires On(x, y, m, n, 2) && Cell(Opening(), x, y, m, n, 2) == BLACK
    ensures Legal(Opening(), BLACK, x, y)
  {
    assert Enemy(Opening(), BLACK, x, y, m, n, 1);
    assert Flanks(Opening(), BLACK, x, y, m, n, 1);
    assert Captures(Opening(), BLACK, x, y, m, n);
  }

  /** The white pieces stand at (3,4) and (4,3), the black ones at (3,3) and (4,4). */
  lemma OpeningRun(x: int, y: int, m: int, n: int, L: nat)
    requires OnBoard(x, y) && IsDir(m, n) && L > 0 && Flanks(Opening(), BLACK, x, y, m, n, L)
    ensures (x == 2 && y == 4) || (x == 3 && y == 5) || (x == 4 && y == 2) || (x == 5 && y == 3)
  {
    OpeningStep(x, y, m, n, 1);
    OpeningRunsShort(x, y, m, n, L);
    assert On(x, y, m, n, 2) && Cell(Opening(), x, y, m, n, 2) == BLACK;
  }

  lemma OpeningStep(x: int, y: int, m: int, n: int, t: nat)
    requires OnBoard(x, y) && IsDir(m, n)
    ensures var r, c := Along(x, m, t), Along(y, n, t);
            Enemy(Opening(), BLACK, x, y, m, n, t) <==> (r == 3 && c == 4) || (r == 4 && c == 3)
  {
  }

  lemma OpeningRunsShort(x: int, y: int, m: int, n: int, L: nat)
    requires OnBoard(x, y) && IsDir(m, n) && L > 0 && Flanks(Opening(), BLACK, x, y, m, n, L)
    ensures L == 1
  {
    OpeningStep(x, y, m, n, 1);
    OpeningStep(x, y, m, n, 2);
    OpeningStep(x, y, m, n, 3);
    hide Enemy, Opening;
    OpeningBeyond(x, y, m, n);
  }

  /** On the line through both white pieces there is no black one. */
  lemma OpeningBeyond(x: int, y: int, m: int, n: int)
    requires OnBoard(x, y) && IsDir(m, n)
    ensures Enemy(Opening(), BLACK, x, y, m, n, 1) && Enemy(Opening(), BLACK, x, y, m, n, 2) && On(x, y, m, n, 3) ==>
              Cell(Opening(), x, y, m, n, 3) == EMPTY
  {
    OpeningStep(x, y, m, n, 1);
    OpeningStep(x, y, m, n, 2);
    hide Enemy;
  }

  method ClrBrd(b: array<int>)
    requires b.Length == 64
    modifies b
    ensures b[..] == Opening()
    ensures b[3 * 8 + 3] == b[4 * 8 + 4] == BLACK && b[3 * 8 + 4] == b[4 * 8 + 3] == WHITE
    ensures forall k :: 0 <= k < 64 && k != 27 && k != 28 && k != 35 && k != 36 ==> b[k] == EMPTY
  {
    for i := 0 to 8
      invariant forall k :: 0 <= k < i * 8 ==> b[k] == EMPTY
    {
      for j := 0 to 8
        invariant forall k :: 0 <= k < i * 8 + j ==> b[k] == EMPTY
      {
        b[i * 8 + j] := EMPTY;
      }
    }
    b[36] := BLACK;
    b[27] := BLACK;
    b[35] := WHITE;
    b[28] := WHITE;
  }
}
