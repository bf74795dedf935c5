/** The retake test of examples/othello.c: notak2, notak1 and notake decide, from the board before
    a move, whether the new piece could be flipped back at once. */
module OthelloRetake {
  import opened OthelloRays

  /** The first square from step t on that is not p, or p itself when the ray runs off the board. */
  function Beyond(b: Board, p: int, x: int, y: int, m: int, n: int, t: nat): int
    requires OnBoard(x, y) && IsDir(m, n) && 1 <= t <= 8
    decreases 8 - t
  {
    if !On(x, y, m, n, t) then p
    else if Cell(b, x, y, m, n, t) == p then Beyond(b, p, x, y, m, n, t + 1)
    else Cell(b, x, y, m, n, t)
  }

  /** The whole of notak2 from an on-board step t, with its passage over squares holding 0. */
  function OverZeros(b: Board, p: int, o: int, e: int, x: int, y: int, m: int, n: int, t: nat): int
    requires OnBoard(x, y) && IsDir(m, n) && 1 <= t <= 8 && On(x, y, m, n, t)
    decreases 8 - t
  {
    if Cell(b, x, y, m, n, t) != 0 then Beyond(b, p, x, y, m, n, t)
    else if !On(x, y, m, n, t + 1) || Cell(b, x, y, m, n, t + 1) == e then o
    else OverZeros(b, p, o, e, x, y, m, n, t + 1)
  }

  function RayVerdict(b: Board, p: int, o: int, e: int, x: int, y: int, m: int, n: int): int
    requires OnBoard(x, y) && IsDir(m, n)
  {
    if On(x, y, m, n, 1) then OverZeros(b, p, o, e, x, y, m, n, 1) else p
  }

  lemma BeyondStep(b: Board, p: int, x: int, y: int, m: int, n: int, t: nat)
    requires OnBoard(x, y) && IsDir(m, n) && 1 <= t <= 8
    ensures !On(x, y, m, n, t) ==> Beyond(b, p, x, y, m, n, t) == p
    ensures On(x, y, m, n, t) ==>
              t < 8 && Beyond(b, p, x, y, m, n, t) ==
              if Cell(b, x, y, m, n, t) == p then Beyond(b, p, x, y, m, n, t + 1) else Cell(b, x, y, m, n, t)
  {
  }

  lemma OverZerosStep(b: Board, p: int, o: int, e: int, x: int, y: int, m: int, n: int, t: nat)
    requires OnBoard(x, y) && IsDir(m, n) && 1 <= t <= 8 && On(x, y, m, n, t)
    ensures t < 8 && OverZeros(b, p, o, e, x, y, m, n, t) ==
              if Cell(b, x, y, m, n, t) != 0 then Beyond(b, p, x, y, m, n, t)
              else if !On(x, y, m, n, t + 1) || Cell(b, x, y, m, n, t + 1) == e then o
              else OverZeros(b, p, o, e, x, y, m, n, t + 1)
  {
  }

  lemma {:induction false} ZerosPassed(b: Board, p: int, o: int, e: int, x: int, y: int, m: int, n: int, s: nat, t: nat)
    requires OnBoard(x, y) && IsDir(m, n) && 1 <= t <= s <= 8 && e != 0
    requires forall r :: 1 <= r < s ==> On(x, y, m, n, r) && Cell(b, x, y, m, n, r) == 0
    requires On(x, y, m, n, t)
    ensures s > t && (!On(x, y, m, n, s) || Cell(b, x, y, m, n, s) == e) ==>
              OverZeros(b, p, o, e, x, y, m, n, t) == o
    ensures On(x, y, m, n, s) && Cell(b, x, y, m, n, s) != 0 && (s > t ==> Cell(b, x, y, m, n, s) != e) ==>
              OverZeros(b, p, o, e, x, y, m, n, t) == Beyond(b, p, x, y, m, n, s)
    decreases s - t
  {
    hide Beyond;
    if t < s {
      OverZerosStep(b, p, o, e, x, y, m, n, t);
      if t + 1 < s {
        ZerosPassed(b, p, o, e, x, y, m, n, s, t + 1);
      } else if On(x, y, m, n, s) {
        OverZerosStep(b, p, o, e, x, y, m, n, s);
      }
    } else {
      OverZerosStep(b, p, o, e, x, y, m, n, t);
    }
  }

  lemma {:induction false} OwnPassed(b: Board, p: int, x: int, y: int, m: int, n: int, s: nat, u: nat)
    requires OnBoard(x, y) && IsDir(m, n) && 1 <= s <= u <= 8
    requires forall r :: s <= r < u ==> On(x, y, m, n, r) && Cell(b, x, y, m, n, r) == p
    requires On(x, y, m, n, u) ==> Cell(b, x, y, m, n, u) != p
    ensures Beyond(b, p, x, y, m, n, s) == if On(x, y, m, n, u) then Cell(b, x, y, m, n, u) else p
    decreases u - s
  {
    BeyondStep(b, p, x, y, m, n, s);
    if s < u { OwnPassed(b, p, x, y, m, n, s + 1, u); }
  }

  /** What a look along one ray returns: p at once at the border; otherwise it passes over squares that
      hold 0, up to step s, and returns o if this took it to the border or to a square that holds e; from
      there it passes over the squares of p, up to step u, and returns what stands there, or p at the
      border. */
  lemma LookResult(b: Board, p: int, o: int, e: int, x: int, y: int, m: int, n: int, s: nat, u: nat)
    requires OnBoard(x, y) && IsDir(m, n) && 1 <= s <= u <= 8 && e != 0
    requires forall r :: 1 <= r < s ==> On(x, y, m, n, r) && Cell(b, x, y, m, n, r) == 0
    ensures !On(x, y, m, n, 1) ==> RayVerdict(b, p, o, e, x, y, m, n) == p
    ensures s > 1 && (!On(x, y, m, n, s) || Cell(b, x, y, m, n, s) == e) ==>
              RayVerdict(b, p, o, e, x, y, m, n) == o
    ensures On(x, y, m, n, s) && Cell(b, x, y, m, n, s) != 0 && (s > 1 ==> Cell(b, x, y, m, n, s) != e)
            && (forall r :: s <= r < u ==> On(x, y, m, n, r) && Cell(b, x, y, m, n, r) == p)
            && (On(x, y, m, n, u) ==> Cell(b, x, y, m, n, u) != p) ==>
              RayVerdict(b, p, o, e, x, y, m, n) == if On(x, y, m, n, u) then Cell(b, x, y, m, n, u) else p
  {
    hide Beyond, OverZeros, Along;
    if On(x, y, m, n, 1) {
      ZerosPassed(b, p, o, e, x, y, m, n, s, 1);
      if (forall r :: s <= r < u ==> On(x, y, m, n, r) && Cell(b, x, y, m, n, r) == p)
         && (On(x, y, m, n, u) ==> Cell(b, x, y, m, n, u) != p) {
        OwnPassed(b, p, x, y, m, n, s, u);
      }
    }
  }

  /** The first loop, from an on-board step to the square where it stops. */
  method SkipZeros(b: array<int>, p: int, o: int, e: int, x0: int, y0: int, m: int, n: int)
    returns (stopped: bool, x: int, y: int, ghost t: nat)
    requires b.Length == 64 && OnBoard(x0, y0) && IsDir(m, n) && On(x0, y0, m, n, 1)
    ensures stopped ==> RayVerdict(b[..], p, o, e, x0, y0, m, n) == o
    ensures !stopped ==> 1 <= t <= 7 && x == Along(x0, m, t) && y == Along(y0, n, t)
                         && RayVerdict(b[..], p, o, e, x0, y0, m, n) == Beyond(b[..], p, x0, y0, m, n, t)
  {
    hide Beyond, OverZeros, Along;
    x, y, t := x0 + m, y0 + n, 1;
    AlongStep(x0, m, 0);
    AlongStep(y0, n, 0);
    OverZerosStep(b[..], p, o, e, x0, y0, m, n, t);
    ghost var v := RayVerdict(b[..], p, o, e, x0, y0, m, n);
    hide RayVerdict;
    while b[x * 8 + y] == 0
      invariant 1 <= t <= 7 && x == Along(x0, m, t) && y == Along(y0, n, t) && OnBoard(x, y)
      invariant v == OverZeros(b[..], p, o, e, x0, y0, m, n, t)
      decreases 8 - t
    {
      OverZerosStep(b[..], p, o, e, x0, y0, m, n, t);
      AlongStep(x0, m, t);
      AlongStep(y0, n, t);
      assert Cell(b[..], x0, y0, m, n, t) == b[x * 8 + y] == 0;
      x, y, t := x + m, y + n, t + 1;
      assert On(x0, y0, m, n, t) <==> OnBoard(x, y);
      if x < 0 || x > 7 || y < 0 || y > 7 || b[x * 8 + y] == e { return true, x, y, t; }
      assert Cell(b[..], x0, y0, m, n, t) == b[x * 8 + y];
      OverZerosStep(b[..], p, o, e, x0, y0, m, n, t);
    }
    OverZerosStep(b[..], p, o, e, x0, y0, m, n, t);
    stopped := false;
  }

  method NoTak2(b: array<int>, p: int, o: int, e: int, x0: int, y0: int, m: int, n: int) returns (r: int)
    requires b.Length == 64 && OnBoard(x0, y0) && IsDir(m, n)
    ensures r == RayVerdict(b[..], p, o, e, x0, y0, m, n)
  {
    hide Beyond, OverZeros;
    var x, y := x0 + m, y0 + n;
    ghost var t := 1;
    BeyondStep(b[..], p, x0, y0, m, n, 1);
    if 0 <= x <= 7 && 0 <= y <= 7 {
      var stopped;
      stopped, x, y, t := SkipZeros(b, p, o, e, x0, y0, m, n);
      if stopped { return o; }
    }
    ghost var v := RayVerdict(b[..], p, o, e, x0, y0, m, n);
    hide RayVerdict;
    while 0 <= x <= 7 && 0 <= y <= 7 && b[x * 8 + y] == p
      invariant 1 <= t <= 8 && x == Along(x0, m, t) && y == Along(y0, n, t)
      invariant v == Beyond(b[..], p, x0, y0, m, n, t)
      decreases 8 - t
    {
      BeyondStep(b[..], p, x0, y0, m, n, t);
      x, y, t := x + m, y + n, t + 1;
    }
    BeyondStep(b[..], p, x0, y0, m, n, t);
    if x < 0 || x > 7 || y < 0 || y > 7 { return p; }
    return b[x * 8 + y];
  }

  /** notak1: the two ends of a line through the new piece are not one of o and one of e. */
  predicate LineSafe(b: Board, p: int, o: int, e: int, x: int, y: int, m: int, n: int)
    requires OnBoard(x, y) && IsDir(m, n)
  {
    var c1, c2 := RayVerdict(b, p, o, e, x, y, m, n), RayVerdict(b, p, o, e, x, y, -m, -n);
    !((c1 == o && c2 == e) || (c1 == e && c2 == o))
  }

  predicate SafeFromRetake(b: Board, p: int, o: int, e: int, x: int, y: int)
    requires OnBoard(x, y)
  {
    LineSafe(b, p, o, e, x, y, 0, 1) && LineSafe(b, p, o, e, x, y, 1, 1) &&
    LineSafe(b, p, o, e, x, y, 1, 0) && LineSafe(b, p, o, e, x, y, 1, -1)
  }

  method NoTak1(b: array<int>, p: int, o: int, e: int, x: int, y: int, m: int, n: int) returns (r: bool)
    requires b.Length == 64 && OnBoard(x, y) && IsDir(m, n)
    ensures r == LineSafe(b[..], p, o, e, x, y, m, n)
  {
    hide RayVerdict;
    var c1 := NoTak2(b, p, o, e, x, y, m, n);
    var c2 := NoTak2(b, p, o, e, x, y, -m, -n);
    return !((c1 == o && c2 == e) || (c1 == e && c2 == o));
  }

  method NoTake(b: array<int>, p: int, o: int, e: int, x: int, y: int) returns (r: bool)
    requires b.Length == 64 && OnBoard(x, y)
    ensures r == SafeFromRetake(b[..], p, o, e, x, y)
  {
    hide LineSafe;
    r := NoTak1(b, p, o, e, x, y, 0, 1);
    if r { r := NoTak1(b, p, o, e, x, y, 1, 1); }
    if r { r := NoTak1(b, p, o, e, x, y, 1, 0); }
    if r { r := NoTak1(b, p, o, e, x, y, 1, -1); }
  }

  // ----- what the test decides

  /** The rules' notion of a retake: from some empty square, o flanks a run that contains (x,y). */
  ghost predicate Retakable(b: Board, o: int, x: int, y: int) {
    exists ex, ey, m, n :: OnBoard(ex, ey) && IsDir(m, n) && RetakenBy(b, o, x, y, ex, ey, m, n)
  }

  ghost predicate RetakenBy(b: Board, o: int, x: int, y: int, ex: int, ey: int, m: int, n: int)
    requires OnBoard(ex, ey)
  {
    b[Sq(ex, ey)] == EMPTY && exists L: nat, t :: 1 <= t <= L && Flanks(b, o, ex, ey, m, n, L)
                                                  && Along(ex, m, t) == x && Along(ey, n, t) == y
  }

  /** s steps away stands c, and everything between is p. */
  ghost predicate Seen(b: Board, p: int, x: int, y: int, m: int, n: int, s: int, c: int) {
    && s >= 1 && On(x, y, m, n, s) && Cell(b, x, y, m, n, s) == c
    && forall r :: 1 <= r < s ==> On(x, y, m, n, r) && Cell(b, x, y, m, n, r) == p
  }

  lemma {:induction false} BeyondSees(b: Board, p: int, x: int, y: int, m: int, n: int, t: nat, c: int)
    requires OnBoard(x, y) && IsDir(m, n) && 1 <= t <= 8 && c != p
    requires forall r :: 1 <= r < t ==> On(x, y, m, n, r) && Cell(b, x, y, m, n, r) == p
    ensures Beyond(b, p, x, y, m, n, t) == c <==> Sees(b, p, x, y, m, n, c)
    decreases 8 - t
  {
    if On(x, y, m, n, t) && Cell(b, x, y, m, n, t) == p {
      BeyondSees(b, p, x, y, m, n, t + 1, c);
    } else if On(x, y, m, n, t) {
      SeenOnce(b, p, x, y, m, n, t, c);
      assert Cell(b, x, y, m, n, t) == c ==> Seen(b, p, x, y, m, n, t, c);
    } else {
      SeenNever(b, p, x, y, m, n, t, c);
    }
  }

  /** Looking from (x,y) over pieces of p, the first other square holds c. */
  ghost predicate Sees(b: Board, p: int, x: int, y: int, m: int, n: int, c: int) {
    exists s :: Seen(b, p, x, y, m, n, s, c)
  }

  lemma SeenNever(b: Board, p: int, x: int, y: int, m: int, n: int, t: nat, c: int)
    requires OnBoard(x, y) && IsDir(m, n) && 1 <= t && !On(x, y, m, n, t) && c != p
    requires forall r :: 1 <= r < t ==> On(x, y, m, n, r) && Cell(b, x, y, m, n, r) == p
    ensures forall s :: !Seen(b, p, x, y, m, n, s, c)
  {
    forall s
      ensures !Seen(b, p, x, y, m, n, s, c)
    {
      if s == t {
      } else if 1 <= s < t {
        assert On(x, y, m, n, s);
      }
    }
  }

  lemma SeenOnce(b: Board, p: int, x: int, y: int, m: int, n: int, t: nat, c: int)
    requires On(x, y, m, n, t) && 1 <= t && Cell(b, x, y, m, n, t) != p && c != p
    requires forall r :: 1 <= r < t ==> On(x, y, m, n, r) && Cell(b, x, y, m, n, r) == p
    ensures forall s :: Seen(b, p, x, y, m, n, s, c) ==> s == t
  {
  }

  /** On a board without zeros notak2's first loop never runs. */
  lemma NoZeros(b: Board, p: int, o: int, e: int, x: int, y: int, m: int, n: int)
    requires OnBoard(x, y) && IsDir(m, n) && ThreeColour(b)
    ensures RayVerdict(b, p, o, e, x, y, m, n) == Beyond(b, p, x, y, m, n, 1)
  {
  }

  /** o closes the run on one side, an empty square lies open on the other. */
  ghost predicate TakenAlong(b: Board, p: int, o: int, x: int, y: int, m: int, n: int) {
    Sees(b, p, x, y, m, n, o) && Sees(b, p, x, y, -m, -n, EMPTY)
  }

  lemma LineSafeIff(b: Board, p: int, o: int, x: int, y: int, m: int, n: int)
    requires OnBoard(x, y) && IsDir(m, n) && ThreeColour(b) && IsSide(p) && o == Opponent(p)
    ensures LineSafe(b, p, o, EMPTY, x, y, m, n) <==>
            !TakenAlong(b, p, o, x, y, m, n) && !TakenAlong(b, p, o, x, y, -m, -n)
  {
    hide RayVerdict, Beyond, Seen;
    assert --m == m && --n == n;
    NoZeros(b, p, o, EMPTY, x, y, m, n);
    NoZeros(b, p, o, EMPTY, x, y, -m, -n);
    BeyondSees(b, p, x, y, m, n, 1, o);
    BeyondSees(b, p, x, y, m, n, 1, EMPTY);
    BeyondSees(b, p, x, y, -m, -n, 1, o);
    BeyondSees(b, p, x, y, -m, -n, 1, EMPTY);
  }

  /** Walking u steps back and then t steps forth. */
  lemma BackAndForth(x: int, m: int, u: int, t: int)
    requires -1 <= m <= 1
    ensures Along(Along(x, -m, u), m, t) == Along(x, m, t - u) == Along(x, -m, u - t)
  {
  }

  lemma TakenIsRetaken(b: Board, p: int, o: int, x: int, y: int, m: int, n: int, s: int, u: int)
    requires OnBoard(x, y) && IsDir(m, n) && IsSide(p) && o == Opponent(p)
    requires Seen(b, p, x, y, m, n, s, o) && Seen(b, p, x, y, -m, -n, u, EMPTY)
    ensures Retakable(b[Sq(x, y) := p], o, x, y)
  {
    var b' := b[Sq(x, y) := p];
    var ex, ey, L := Along(x, -m, u), Along(y, -n, u), u + s - 1;
    hide Along, Enemy, On, Cell;
    forall t | 1 <= t <= L
      ensures Enemy(b', o, ex, ey, m, n, t)
    {
      Between(b, p, o, x, y, m, n, s, u, t);
    }
    assert Flanks(b', o, ex, ey, m, n, L) by { FarEnd(b, p, o, x, y, m, n, s, u); }
    OffOrigin(x, y, -m, -n, u);
    BackAndForth(x, m, u, u);
    BackAndForth(y, n, u, u);
    AlongZero(x, m);
    AlongZero(y, n);
    assert RetakenBy(b', o, x, y, ex, ey, m, n) by { EmptyEnd(b, p, x, y, m, n, u); }
  }

  lemma EmptyEnd(b: Board, p: int, x: int, y: int, m: int, n: int, u: int)
    requires OnBoard(x, y) && IsDir(m, n) && Seen(b, p, x, y, -m, -n, u, EMPTY)
    ensures var ex, ey := Along(x, -m, u), Along(y, -n, u);
            OnBoard(ex, ey) && b[Sq(x, y) := p][Sq(ex, ey)] == EMPTY
  {
    hide Along;
    OffOrigin(x, y, -m, -n, u);
  }

  lemma FarEnd(b: Board, p: int, o: int, x: int, y: int, m: int, n: int, s: int, u: int)
    requires OnBoard(x, y) && IsDir(m, n) && u >= 1 && Seen(b, p, x, y, m, n, s, o)
    ensures var ex, ey := Along(x, -m, u), Along(y, -n, u);
            On(ex, ey, m, n, u + s) && Cell(b[Sq(x, y) := p], ex, ey, m, n, u + s) == o
  {
    hide Along;
    BackAndForth(x, m, u, u + s);
    BackAndForth(y, n, u, u + s);
    OffOrigin(x, y, m, n, s);
  }

  /** Everything strictly between the two ends is p, the new piece included. */
  lemma Between(b: Board, p: int, o: int, x: int, y: int, m: int, n: int, s: int, u: int, t: int)
    requires OnBoard(x, y) && IsDir(m, n) && IsSide(p) && o == Opponent(p)
    requires Seen(b, p, x, y, m, n, s, o) && Seen(b, p, x, y, -m, -n, u, EMPTY)
    requires 1 <= t < u + s
    ensures Enemy(b[Sq(x, y) := p], o, Along(x, -m, u), Along(y, -n, u), m, n, t)
  {
    hide Along;
    BackAndForth(x, m, u, t);
    BackAndForth(y, n, u, t);
    AlongZero(x, m);
    AlongZero(y, n);
    assert t < u ==> On(x, y, -m, -n, u - t) && Cell(b, x, y, -m, -n, u - t) == p;
    assert t > u ==> On(x, y, m, n, t - u) && Cell(b, x, y, m, n, t - u) == p;
  }

  lemma AlongZero(x: int, m: int)
    ensures Along(x, m, 0) == x
  {
  }

  lemma OffOrigin(x: int, y: int, m: int, n: int, s: int)
    requires OnBoard(x, y) && IsDir(m, n) && s >= 1 && On(x, y, m, n, s)
    ensures Sq(Along(x, m, s), Along(y, n, s)) != Sq(x, y)
  {
  }

  lemma RetakenIsTaken(b: Board, p: int, o: int, x: int, y: int, m: int, n: int, ex: int, ey: int, L: nat, t: int)
    requires OnBoard(x, y) && OnBoard(ex, ey) && IsDir(m, n) && IsSide(p) && o == Opponent(p) && ThreeColour(b)
    requires b[Sq(x, y)] == EMPTY
    requires b[Sq(x, y) := p][Sq(ex, ey)] == EMPTY && Flanks(b[Sq(x, y) := p], o, ex, ey, m, n, L)
    requires 1 <= t <= L && Along(ex, m, t) == x && Along(ey, n, t) == y
    ensures TakenAlong(b, p, o, x, y, m, n)
  {
    hide Along, Flanks, Seen, ThreeColour;
    RetakenAhead(b, p, o, x, y, m, n, ex, ey, L, t);
    RetakenBehind(b, p, o, x, y, m, n, ex, ey, L, t);
  }

  lemma MiddleIsMine(b: Board, p: int, o: int, ex: int, ey: int, m: int, n: int, L: nat, t: int)
    requires IsSide(p) && o == Opponent(p) && ThreeColour(b) && Flanks(b, o, ex, ey, m, n, L) && 1 <= t <= L
    ensures On(ex, ey, m, n, t) && Cell(b, ex, ey, m, n, t) == p
  {
    hide Along;
    assert Enemy(b, o, ex, ey, m, n, t);
  }

  lemma RetakenAhead(b: Board, p: int, o: int, x: int, y: int, m: int, n: int, ex: int, ey: int, L: nat, t: int)
    requires OnBoard(x, y) && OnBoard(ex, ey) && IsDir(m, n) && IsSide(p) && o == Opponent(p) && ThreeColour(b)
    requires b[Sq(x, y)] == EMPTY
    requires b[Sq(x, y) := p][Sq(ex, ey)] == EMPTY && Flanks(b[Sq(x, y) := p], o, ex, ey, m, n, L)
    requires 1 <= t <= L && Along(ex, m, t) == x && Along(ey, n, t) == y
    ensures Seen(b, p, x, y, m, n, L + 1 - t, o)
  {
    hide Along, Flanks, ThreeColour, On, Cell;
    forall r | 1 <= r <= L + 1 - t
      ensures On(x, y, m, n, r) && Cell(b, x, y, m, n, r) == if r == L + 1 - t then o else p
    {
      AheadAt(b, p, o, x, y, m, n, ex, ey, L, t, r);
    }
  }

  lemma AheadAt(b: Board, p: int, o: int, x: int, y: int, m: int, n: int, ex: int, ey: int, L: nat, t: int, r: int)
    requires OnBoard(x, y) && OnBoard(ex, ey) && IsDir(m, n) && IsSide(p) && o == Opponent(p) && ThreeColour(b)
    requires b[Sq(x, y)] == EMPTY
    requires b[Sq(x, y) := p][Sq(ex, ey)] == EMPTY && Flanks(b[Sq(x, y) := p], o, ex, ey, m, n, L)
    requires 1 <= t <= L && Along(ex, m, t) == x && Along(ey, n, t) == y
    requires 1 <= r <= L + 1 - t
    ensures On(x, y, m, n, r) && Cell(b, x, y, m, n, r) == if r == L + 1 - t then o else p
  {
    var b' := b[Sq(x, y) := p];
    hide Along, Enemy;
    Forward(ex, m, t, r);
    Forward(ey, n, t, r);
    if r < L + 1 - t { MiddleIsMine(b', p, o, ex, ey, m, n, L, t + r); }
    OffOrigin(x, y, m, n, r);
  }

  lemma RetakenBehind(b: Board, p: int, o: int, x: int, y: int, m: int, n: int, ex: int, ey: int, L: nat, t: int)
    requires OnBoard(x, y) && OnBoard(ex, ey) && IsDir(m, n) && IsSide(p) && o == Opponent(p) && ThreeColour(b)
    requires b[Sq(x, y)] == EMPTY
    requires b[Sq(x, y) := p][Sq(ex, ey)] == EMPTY && Flanks(b[Sq(x, y) := p], o, ex, ey, m, n, L)
    requires 1 <= t <= L && Along(ex, m, t) == x && Along(ey, n, t) == y
    ensures Seen(b, p, x, y, -m, -n, t, EMPTY)
  {
    hide Along, Flanks, ThreeColour, On, Cell;
    var back := (-m, -n);
    forall r | 1 <= r <= t
      ensures On(x, y, back.0, back.1, r) && Cell(b, x, y, back.0, back.1, r) == if r == t then EMPTY else p
    {
      BehindAt(b, p, o, x, y, m, n, ex, ey, L, t, r);
    }
  }

  lemma BehindAt(b: Board, p: int, o: int, x: int, y: int, m: int, n: int, ex: int, ey: int, L: nat, t: int, r: int)
    requires OnBoard(x, y) && OnBoard(ex, ey) && IsDir(m, n) && IsSide(p) && o == Opponent(p) && ThreeColour(b)
    requires b[Sq(x, y)] == EMPTY
    requires b[Sq(x, y) := p][Sq(ex, ey)] == EMPTY && Flanks(b[Sq(x, y) := p], o, ex, ey, m, n, L)
    requires 1 <= t <= L && Along(ex, m, t) == x && Along(ey, n, t) == y
    requires 1 <= r <= t
    ensures On(x, y, -m, -n, r) && Cell(b, x, y, -m, -n, r) == if r == t then EMPTY else p
  {
    var b' := b[Sq(x, y) := p];
    hide Along, Enemy, Flanks;
    AlongZero(ex, m);
    AlongZero(ey, n);
    Backward(ex, m, t, r);
    Backward(ey, n, t, r);
    if r < t { MiddleIsMine(b', p, o, ex, ey, m, n, L, t - r); }
    OffOrigin(x, y, -m, -n, r);
  }

  lemma Forward(ex: int, m: int, t: int, r: int)
    requires -1 <= m <= 1
    ensures Along(Along(ex, m, t), m, r) == Along(ex, m, t + r)
  {
  }

  lemma Backward(ex: int, m: int, t: int, r: int)
    requires -1 <= m <= 1
    ensures Along(Along(ex, m, t), -m, r) == Along(ex, m, t - r)
  {
  }

  lemma RetakenFromSomewhere(b: Board, p: int, o: int, x: int, y: int)
    requires OnBoard(x, y) && ThreeColour(b) && IsSide(p) && o == Opponent(p) && b[Sq(x, y)] == EMPTY
    requires Retakable(b[Sq(x, y) := p], o, x, y)
    ensures exists m, n :: IsDir(m, n) && TakenAlong(b, p, o, x, y, m, n)
  {
    hide TakenAlong, Flanks, Along, ThreeColour;
    var b' := b[Sq(x, y) := p];
    var ex, ey, m, n :| OnBoard(ex, ey) && IsDir(m, n) && RetakenBy(b', o, x, y, ex, ey, m, n);
    var L: nat, t :| 1 <= t <= L && Flanks(b', o, ex, ey, m, n, L)
                     && Along(ex, m, t) == x && Along(ey, n, t) == y;
    RetakenIsTaken(b, p, o, x, y, m, n, ex, ey, L, t);
  }

  lemma TakenAlongIsRetaken(b: Board, p: int, o: int, x: int, y: int, m: int, n: int)
    requires OnBoard(x, y) && IsDir(m, n) && IsSide(p) && o == Opponent(p)
    requires TakenAlong(b, p, o, x, y, m, n)
    ensures Retakable(b[Sq(x, y) := p], o, x, y)
  {
    hide Seen, Retakable;
    var s :| Seen(b, p, x, y, m, n, s, o);
    var u :| Seen(b, p, x, y, -m, -n, u, EMPTY);
    TakenIsRetaken(b, p, o, x, y, m, n, s, u);
  }

  /** notake is exact: on a three-colour board with (x,y) empty it answers true precisely when,
      once only p stands on (x,y), no empty square lets the opponent flank a run through it. */
  lemma NoTakeIsExact(b: Board, p: int, o: int, x: int, y: int)
    requires OnBoard(x, y) && ThreeColour(b) && IsSide(p) && o == Opponent(p) && b[Sq(x, y)] == EMPTY
    ensures SafeFromRetake(b, p, o, EMPTY, x, y) <==> !Retakable(b[Sq(x, y) := p], o, x, y)
  {
    hide LineSafe, TakenAlong, Retakable, ThreeColour;
    LineSafeIff(b, p, o, x, y, 0, 1);
    LineSafeIff(b, p, o, x, y, 1, 1);
    LineSafeIff(b, p, o, x, y, 1, 0);
    LineSafeIff(b, p, o, x, y, 1, -1);
    if Retakable(b[Sq(x, y) := p], o, x, y) {
      RetakenFromSomewhere(b, p, o, x, y);
    }
    forall m, n | IsDir(m, n) && TakenAlong(b, p, o, x, y, m, n)
      ensures Retakable(b[Sq(x, y) := p], o, x, y)
    {
      TakenAlongIsRetaken(b, p, o, x, y, m, n);
    }
  }
}
