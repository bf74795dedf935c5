/** The state of examples/wall.c and its main program: levels, balls, the paddle and the score. */
module WallGame {
  import opened WallBricks
  import opened WallBall

  /** What the player presses in one round of the ball loop; fast keys move the paddle twice. */
  datatype Key = FastLeft | SlowLeft | SlowRight | FastRight | NoKey

  /** One round of the ball loop: the bit drawn by rand() & 1 and the key. */
  datatype Tick = Tick(coin: bool, key: Key)

  datatype LevelEnd = Cleared | Lost | Waiting

  /** The column is free of bricks from row m down to the paddle's row. */
  ghost predicate ColumnFree(bricks: Bricks, m: int, n: int) {
    forall r :: m <= r <= 20 ==> (r, n) !in bricks
  }

  /** What holds of ball, wall and score between any two moves of a level. */
  ghost predicate Sound(b: Ball, bricks: Bricks, t: int) {
    && 0 <= b.m <= 21 && 0 <= b.n <= 31 && Code(b.g) && 0 <= b.p <= 1 && 0 <= b.w <= 1
    // bricks are whole, and every point not yet scored is still standing
    && WallSound(bricks, t)
    // the ball does not rest on a brick, and in the two vertical states nothing is below it
    && Landed(b, bricks)
  }

  /** No tunnelling and no lost points: one move keeps all of Sound, although state 200 descends
      without looking for a brick. */
  lemma MoveKeepsSound(b: Ball, a: int, coin: bool, bricks: Bricks, t: int)
    requires Sound(b, bricks, t) && b.m <= 20 && 0 <= a <= 29
    ensures Sound(Moved(b, a, coin, bricks), BricksAfter(b, a, coin, bricks), t + Gain(b, a, coin, bricks))
  {
    OneStep(b, a, coin, bricks);
    VerticalFree(b, a, coin, bricks, t);
    hide Route, WellLaid, Whole, Worth, Destroyed, ColumnFree;
    Landing(Route(b, a, coin), bricks, t);
  }

  ghost predicate WallSound(bricks: Bricks, t: int) {
    WellLaid(bricks) && Whole(bricks) && t + Worth(bricks) == 574
  }

  /** The end of every case of the switch, for a ball that leaves in state r. */
  lemma Landing(r: Ball, bricks: Bricks, t: int)
    requires WallSound(bricks, t) && 0 <= r.m <= 20 && Code(r.g) && 0 <= r.w <= 1
    requires r.g == 180 || r.g == 200 ==> ColumnFree(bricks, r.m, r.n)
    ensures var s := Stepped(r);
            && (!Hits(s, bricks) ==> Landed(s, bricks) && WallSound(bricks, t))
            && (Hits(s, bricks) ==> Landed(Rebound(s), Destroyed(bricks, s.m, s.n))
                                    && WallSound(Destroyed(bricks, s.m, s.n), t + 13 - s.m))
  {
    var s := Stepped(r);
    LandedAfter(r, bricks);
    hide Whole, WellLaid, Worth, Destroyed, Landed;
    if Hits(s, bricks) {
      DestroyOne(bricks, s.m, s.n);
    }
  }

  lemma LandedAfter(r: Ball, bricks: Bricks)
    requires WellLaid(bricks) && 0 <= r.m <= 20 && Code(r.g) && 0 <= r.w <= 1
    requires r.g == 180 || r.g == 200 ==> ColumnFree(bricks, r.m, r.n)
    ensures var s := Stepped(r);
            if Hits(s, bricks) then Landed(Rebound(s), Destroyed(bricks, s.m, s.n)) else Landed(s, bricks)
  {
    hide Destroyed, WellLaid, Whole;
    var s := Stepped(r);
    FewerBricks(bricks, s.m, s.n);
    RowLimit(bricks, 21, s.n);
  }

  lemma RowLimit(bricks: Bricks, r: int, c: int)
    requires WellLaid(bricks) && r > 8
    ensures (r, c) !in bricks
  {
  }

  ghost predicate Landed(s: Ball, bricks: Bricks) {
    (s.m, s.n) !in bricks && (s.g == 180 || s.g == 200 ==> ColumnFree(bricks, s.m, s.n))
  }

  lemma FewerBricks(bricks: Bricks, m: int, n: int)
    ensures (m, n) !in Destroyed(bricks, m, n)
    ensures forall r', c' :: (r', c') !in bricks ==> (r', c') !in Destroyed(bricks, m, n)
  {
  }

  /** A ball that leaves in a vertical state has a free column below it, its new cell aside. */
  lemma VerticalFree(b: Ball, a: int, coin: bool, bricks: Bricks, t: int)
    requires Sound(b, bricks, t) && b.m <= 20 && 0 <= a <= 29
    ensures var r := Route(b, a, coin);
            && r.m == b.m && Code(r.g) && 0 <= r.w <= 1
            && (r.g == 180 || r.g == 200 ==> r.n == b.n && ColumnFree(bricks, b.m, b.n))
  {
  }

  /** Ball, wall and score, as pure values. */
  datatype State = State(ball: Ball, bricks: Bricks, t: int)

  /** A move with the paddle at column a; a lost ball moves no more. */
  function Next(s: State, a: int, coin: bool): State {
    if s.ball.m > 20 then s
    else State(Moved(s.ball, a, coin, s.bricks), BricksAfter(s.ball, a, coin, s.bricks),
               s.t + Gain(s.ball, a, coin, s.bricks))
  }

  /** The state after some moves, each with the paddle wherever it then is. */
  function Reached(s: State, moves: seq<(int, bool)>): State {
    if moves == [] then s
    else
      var last := moves[|moves| - 1];
      Next(Reached(s, moves[..|moves| - 1]), last.0, last.1)
  }

  /** Every state that a sound one reaches, whatever the paddle does, is sound: the ball is never on
      a brick, all bricks are whole, no points are lost, and the score passes 572 exactly when the
      wall is gone. */
  lemma {:induction false} ReachedIsSound(s: State, moves: seq<(int, bool)>)
    requires Sound(s.ball, s.bricks, s.t)
    requires forall k :: 0 <= k < |moves| ==> 0 <= moves[k].0 <= 29
    ensures var r := Reached(s, moves);
            Sound(r.ball, r.bricks, r.t) && (r.t >= 573 <==> r.bricks == map[])
  {
    hide Sound, Moved, BricksAfter, Gain;
    if moves != [] {
      var last := moves[|moves| - 1];
      ReachedIsSound(s, moves[..|moves| - 1]);
      var r := Reached(s, moves[..|moves| - 1]);
      if r.ball.m <= 20 { MoveKeepsSound(r.ball, last.0, last.1, r.bricks, r.t); }
    }
    var r := Reached(s, moves);
    ClearedFacts(r.ball, r.bricks, r.t);
  }

  function Max(x: int, y: int): int { if x > y then x else y }

  function Min(x: int, y: int): int { if x < y then x else y }

  /** The paddle's column after a key. */
  function PaddleAfter(a: int, key: Key): int {
    match key
    case FastLeft => Max(0, a - 2)
    case SlowLeft => Max(0, a - 1)
    case SlowRight => Min(29, a + 1)
    case FastRight => Min(29, a + 2)
    case NoKey => a
  }

  /** The state and the paddle after some rounds of the ball loop; the round that clears the wall
      reads no key. */
  function Rounds(s: State, a: int, ticks: seq<Tick>): (State, int) {
    if ticks == [] then (s, a)
    else
      var last := ticks[|ticks| - 1];
      var (s', a') := Rounds(s, a, ticks[..|ticks| - 1]);
      var next := Next(s', a', last.coin);
      (next, if next.t >= 573 then a' else PaddleAfter(a', last.key))
  }

  lemma NoRounds(s: State, a: int, ticks: seq<Tick>)
    requires ticks == []
    ensures Rounds(s, a, ticks) == (s, a)
  {
  }

  lemma OneMoreRound(s: State, a: int, ticks: seq<Tick>, from: nat, to: nat)
    requires from <= to < |ticks|
    ensures var (s', a') := Rounds(s, a, ticks[from..to]);
            var next := Next(s', a', ticks[to].coin);
            Rounds(s, a, ticks[from..to + 1])
            == (next, if next.t >= 573 then a' else PaddleAfter(a', ticks[to].key))
  {
    hide Next, PaddleAfter;
    assert ticks[from..to + 1][..to - from] == ticks[from..to];
  }

  class Wall {
    var m: int
    var n: int
    var g: int
    var p: int
    var w: int
    var a: int
    var t: int
    var tt: int
    var bricks: Bricks

    constructor ()
      ensures tt == -1
    {
      m, n, g, p, w, a, t, tt, bricks := 10, 8, 200, 0, 0, 13, 0, -1, map[];
    }

    function TheBall(): Ball
      reads this
    {
      Ball(m, n, g, p, w)
    }

    function TheState(): State
      reads this
    {
      State(TheBall(), bricks, t)
    }

    ghost predicate InLevel()
      reads this
    {
      Sound(TheBall(), bricks, t) && 0 <= a <= 29
    }

    method HitBrick() returns (hit: bool)
      ensures hit == ((m, n) in bricks)
    {
      hit := (m, n) in bricks;
    }

    method DestroyBrick()
      modifies `t, `bricks
      ensures t == old(t) + 13 - m && bricks == Destroyed(old(bricks), m, n)
    {
      t := t + 13 - m;
      var b := Abs(m - n);
      bricks := bricks - {(m, n)};
      if b % 2 == 1 && n > 0 {
        bricks := bricks - {(m, n - 1)};
      }
      if b % 2 == 0 && n < 31 {
        bricks := bricks - {(m, n + 1)};
      }
    }

    /** The code from a label to the next one, or to the move. */
    method OneJump(l0: Label, coin: bool) returns (l: Label)
      requires TheBall().InField() && 0 <= a <= 29
      modifies `m, `n, `g, `p, `w
      ensures (l, TheBall()) == Jump(l0, old(TheBall()), a, coin)
    {
      l := l0;
      match l0 {
        case L100 =>
          l := L106;
          if m >= 20 {
            p, w := 0, 0;
            if n == a + 1 || n == a + 2 { g, l := 120, L120; }
            else if n == a { g, l := 180, L180; }
            else if n == a - 1 { g, l := 140, L140; }
          }
        case L106 =>
          if n > 30 { g, l := 160, L160; } else { l := Leave; }
        case L120 =>
          if n > 30 { g, l := 140, L140; }
          else if m < 1 {
            // the source's second test for n > 30 here never succeeds
            assert n <= 30;
            w, g, l := 1, 100, L100;
          } else { l := Leave; }
        case L140 =>
          if m < 1 {
            if n < 1 { n := n + 1; }
            w, g, l := 1, 160, L160;
          }
          else if n < 1 { g, l := 120, L120; }
          else { l := Leave; }
        case L160 =>
          l := L166;
          if m >= 20 {
            p, w := 0, 0;
            if n == a + 3 { g, l := 120, L120; }
            else if n == a + 2 { g, l := 180, L180; }
            else if n == a || n == a + 1 { g, l := 140, L140; }
          }
        case L166 =>
          if n < 1 { g, l := 100, L100; } else { l := Leave; }
        case L180 =>
          if m < 1 { g := 200; }
          l := Leave;
        case Case200 =>
          l := Leave;
          if m >= 20 {
            p, w := 0, 0;
            if n == a + 2 { g, l := 120, L120; }
            else if n == a + 1 {
              if coin { g, l := 120, L120; } else { g, l := 140, L140; }
            }
            else if n == a { g, l := 140, L140; }
          }
        case Leave =>
      }
    }

    /** The jumps: control goes from label to label until a case moves the ball. */
    method Jumps(coin: bool)
      requires TheBall().InField() && 0 <= a <= 29
      modifies `m, `n, `g, `p, `w
      ensures TheBall() == Route(old(TheBall()), a, coin)
    {
      ghost var b0 := TheBall();
      var l := Entry(g);
      ChainIsRoute(b0, a, coin);
      hide Chain, Route, Jump, JumpsFrom;
      while l != Leave
        invariant TheBall().InField()
        invariant Chain(l, TheBall(), a, coin) == Route(b0, a, coin)
        decreases Rank(l, TheBall())
      {
        JumpDescends(l, TheBall(), a, coin);
        ghost var l', b' := Follow(l, TheBall(), a, coin);
        l := OneJump(l, coin);
      }
      ChainEnds(TheBall(), a, coin);
    }

    /** move_ball: the jumps, then the end of the case that they lead to. */
    method MoveBall(coin: bool)
      requires TheBall().InField() && 0 <= a <= 29
      modifies `m, `n, `g, `p, `w, `t, `bricks
      ensures TheBall() == Moved(old(TheBall()), a, coin, old(bricks))
      ensures bricks == BricksAfter(old(TheBall()), a, coin, old(bricks))
      ensures t == old(t) + Gain(old(TheBall()), a, coin, old(bricks))
    {
      hide Route, Destroyed, Stepped, Hits, Rebound;
      RouteCode(TheBall(), a, coin);
      Jumps(coin);
      EndOfCase();
    }

    /** The end of each case moves the ball and, but for state 200, looks for a brick. */
    method EndOfCase()
      requires Code(g)
      modifies `m, `n, `g, `p, `t, `bricks
      ensures var s := Stepped(old(TheBall()));
              if Hits(s, old(bricks))
              then TheBall() == Rebound(s) && bricks == Destroyed(old(bricks), s.m, s.n) && t == old(t) + 13 - s.m
              else TheBall() == s && bricks == old(bricks) && t == old(t)
      // one row down in the states 100, 160 and 200, else up; a column right in 100 and 120, left in 140 and 160
      ensures m == old(m) + (if old(g) == 100 || old(g) == 160 || old(g) == 200 then 1 else -1)
      ensures n == old(n) + (if old(g) == 100 || old(g) == 120 then 1
                             else if old(g) == 140 || old(g) == 160 then -1 else 0)
    {
      hide Destroyed;
      if g == 100 {
        m, n := m + 1, n + 1;
        var hit := HitBrick();
        if hit {
          DestroyBrick();
          if p == 0 || w == 1 { g := 120; }
        }
      } else if g == 120 {
        m, n := m - 1, n + 1;
        var hit := HitBrick();
        if hit {
          DestroyBrick();
          p, g := 1, 100 + 40 * w;
        }
      } else if g == 140 {
        m, n := m - 1, n - 1;
        var hit := HitBrick();
        if hit {
          DestroyBrick();
          p, g := 1, 160 - 40 * w;
        }
      } else if g == 160 {
        m, n := m + 1, n - 1;
        var hit := HitBrick();
        if hit {
          DestroyBrick();
          if p == 0 || w == 1 { g := 140; }
        }
      } else if g == 180 {
        m := m - 1;
        var hit := HitBrick();
        if hit {
          DestroyBrick();
          g := 200;
        }
      } else {
        m := m + 1;
      }
    }

    method MoveLeft()
      modifies `a
      ensures a == if old(a) > 0 then old(a) - 1 else old(a)
    {
      if a > 0 { a := a - 1; }
    }

    method MoveRight()
      modifies `a
      ensures a == if old(a) < 29 then old(a) + 1 else old(a)
    {
      if a < 29 { a := a + 1; }
    }

    method MovePaddle(key: Key)
      requires 0 <= a <= 29
      modifies `a
      ensures a == PaddleAfter(old(a), key) && 0 <= a <= 29
      // left keys take it down to 0 at most, right keys up to 29: slow ones by one column, fast ones by two
      ensures key == SlowLeft ==> a == if old(a) >= 1 then old(a) - 1 else 0
      ensures key == FastLeft ==> a == if old(a) >= 2 then old(a) - 2 else 0
      ensures key == SlowRight ==> a == if old(a) <= 28 then old(a) + 1 else 29
      ensures key == FastRight ==> a == if old(a) <= 27 then old(a) + 2 else 29
      ensures key == NoKey ==> a == old(a)
    {
      match key {
        case SlowLeft => MoveLeft();
        case FastLeft => MoveLeft(); MoveLeft();
        case SlowRight => MoveRight();
        case FastRight => MoveRight(); MoveRight();
        case NoKey =>
      }
    }

    /** One round of the ball loop; the score test decides whether the level is over. */
    method Round(tick: Tick) returns (cleared: bool)
      requires InLevel() && m <= 20
      modifies this
      ensures InLevel() && tt == old(tt)
      ensures cleared <==> bricks == map[]
      ensures TheState() == Next(old(TheState()), old(a), tick.coin)
      ensures a == if cleared then old(a) else PaddleAfter(old(a), tick.key)
      ensures cleared <==> t >= 573
    {
      hide Sound, Moved, BricksAfter, Gain;
      MoveKeepsSound(TheBall(), a, tick.coin, bricks, t);
      SoundFacts(TheBall(), bricks, t);
      MoveBall(tick.coin);
      ClearedFacts(TheBall(), bricks, t);
      if t >= 573 { return true; }
      MovePaddle(tick.key);
      cleared := false;
    }

    method Serve(serve: nat)
      requires WallSound(bricks, t) && 0 <= w <= 1
      modifies this
      ensures InLevel() && m == 10 && a == 13 && tt == old(tt)
      ensures TheState() == State(Ball(10, 8 + serve % 15, 200, 0, old(w)), old(bricks), old(t))
    {
      hide WallSound, Sound;
      m, n := 10, 8 + serve % 15;
      p, a, g := 0, 13, 200;
      ServeSound(TheBall(), bricks, t);
    }

    /** One ball: it is served in the middle and plays until it is lost or the wall is gone. */
    method PlayBall(serve: nat, ticks: seq<Tick>, used0: nat) returns (out: LevelEnd, used: nat)
      requires WallSound(bricks, t) && bricks != map[] && 0 <= w <= 1 && used0 <= |ticks|
      modifies this
      ensures InLevel() && tt == old(tt)
      ensures used0 <= used <= |ticks|
      ensures out == Cleared <==> bricks == map[]
      ensures out == Cleared ==> used > used0
      ensures out == Waiting ==> used == |ticks|
      ensures out == Lost ==> m == 21
      // the run is the one that the serve and the inputs determine
      ensures (TheState(), a)
              == Rounds(State(Ball(10, 8 + serve % 15, 200, 0, old(w)), old(bricks), old(t)), 13, ticks[used0..used])
    {
      hide Sound, WallSound, Next, Rounds;
      Serve(serve);
      used := used0;
      ghost var start := TheState();
      assert (TheState(), a) == Rounds(start, 13, ticks[used0..used0]) by { NoRounds(start, 13, ticks[used0..used0]); }
      while m <= 20
        invariant InLevel() && tt == old(tt) && used0 <= used <= |ticks| && bricks != map[]
        invariant (TheState(), a) == Rounds(start, 13, ticks[used0..used])
        decreases |ticks| - used
      {
        if used == |ticks| { return Waiting, used; }
        OneMoreRound(start, 13, ticks, used0, used);
        used := used + 1;
        var cleared := Round(ticks[used - 1]);
        if cleared { return Cleared, used; }
      }
      SoundFacts(TheBall(), bricks, t);
      return Lost, used;
    }

    /** The label start_level. */
    method NewLevel()
      modifies this
      ensures tt == old(tt) + 1 && t == 0 && p == 1 && a == 14 && w == 0
      ensures FullWall(bricks) && WallSound(bricks, t) && bricks != map[]
    {
      tt, t, p := tt + 1, 0, 1;
      bricks, m := BuildWall();
      a, t, w := 14, 0, 0;
      NewWall(bricks);
    }

    /** A level: a new wall and up to seven balls, whose ends are returned in order. */
    method PlayLevel(serves: seq<nat>, ticks: seq<Tick>, used0: nat)
      returns (out: LevelEnd, used: nat, ghost balls: seq<LevelEnd>)
      requires |serves| == 7 && used0 <= |ticks|
      modifies this
      ensures InLevel() && tt == old(tt) + 1
      ensures used0 <= used <= |ticks|
      // every ball but the last was lost, the last ended the level, and losing it takes seven
      ensures EndsWith(balls, Lost, out) && |balls| <= 7 && (out == Lost ==> |balls| == 7)
      ensures out == Cleared <==> bricks == map[]
      ensures out == Cleared ==> t == 574 && used > used0
      ensures out != Cleared ==> t <= 569
      ensures out == Waiting ==> used == |ticks|
    {
      hide Sound, WallSound, Rounds, Worth;
      NewLevel();
      used, out, balls := used0, Lost, [];
      for r := 0 to 7
        invariant tt == old(tt) + 1 && used0 <= used <= |ticks|
        invariant WallSound(bricks, t) && bricks != map[] && 0 <= w <= 1
        invariant r > 0 ==> InLevel()
        invariant |balls| == r && forall k :: 0 <= k < r ==> balls[k] == Lost
      {
        out, used := PlayBall(serves[r], ticks, used);
        balls := balls + [out];
        SoundFacts(TheBall(), bricks, t);
        ClearedFacts(TheBall(), bricks, t);
        if out != Lost { return; }
      }
      ClearedFacts(TheBall(), bricks, t);
      out := Lost;
    }

    /** A whole game: level after level until the seventh ball of one is lost; draws gives the values
        of rand() for the serves of each level. The score shown is tt * 1000 + t. */
    method PlayGame(draws: nat -> seq<nat>, ticks: seq<Tick>)
      returns (over: bool, score: int, used: nat, ghost levels: seq<LevelEnd>)
      requires forall k :: |draws(k)| == 7
      modifies this
      ensures InLevel()
      // every level but the last was cleared
      ensures EndsWith(levels, Cleared, if over then Lost else Waiting)
      // a thousand for each wall cleared and, for the last, what its missing bricks were worth
      ensures score == 1000 * (|levels| - 1) + 574 - Worth(bricks)
      ensures bricks != map[]
      ensures !over ==> used == |ticks|
    {
      tt := -1;
      var out := Cleared;
      levels := [];
      var level: nat := 0;
      used := 0;
      while out == Cleared
        invariant used <= |ticks| && tt == level - 1 && level == |levels|
        invariant level > 0 ==> InLevel()
        invariant if out == Cleared then forall k :: 0 <= k < level ==> levels[k] == Cleared
                  else EndsWith(levels, Cleared, out) && bricks != map[]
        invariant out == Waiting ==> used == |ticks|
        decreases |ticks| - used, if out == Cleared then 1 else 0
      {
        ghost var balls;
        out, used, balls := PlayLevel(draws(level), ticks, used);
        levels := levels + [out];
        level := level + 1;
      }
      over := out == Lost;
      score := tt * 1000 + t;
    }
  }

  /** A sequence of ends that are all e, up to the last, which is last. */
  predicate EndsWith(ends: seq<LevelEnd>, e: LevelEnd, last: LevelEnd) {
    ends != [] && ends[|ends| - 1] == last && forall k :: 0 <= k < |ends| - 1 ==> ends[k] == e
  }

  lemma RouteCode(b: Ball, a: int, coin: bool)
    requires b.InField() && 0 <= a <= 29
    ensures Code(Route(b, a, coin).g)
  {
  }

  lemma SoundFacts(b: Ball, bricks: Bricks, t: int)
    requires Sound(b, bricks, t)
    ensures WallSound(bricks, t) && 0 <= b.w <= 1 && b.m <= 21 && (b.m <= 20 ==> b.InField())
    ensures t == 574 - Worth(bricks)
  {
  }

  /** The test t >= 573 fires exactly when the last brick goes. */
  lemma ClearedFacts(b: Ball, bricks: Bricks, t: int)
    requires Sound(b, bricks, t)
    ensures t >= 573 <==> bricks == map[]
    ensures if bricks == map[] then t == 574 else t <= 569
  {
    WorthZero(bricks);
  }

  lemma NewWall(bricks: Bricks)
    requires FullWall(bricks)
    ensures WallSound(bricks, 0) && bricks != map[]
  {
    FullWallWorth(bricks);
    assert Spot(4, 0);
    assert (4, 0) in bricks;
  }

  /** Below row 8 there are no bricks, so a served ball has a free column. */
  lemma ServeSound(b: Ball, bricks: Bricks, t: int)
    requires WallSound(bricks, t) && b.m == 10 && 0 <= b.n <= 31 && b.g == 200 && b.p == 0 && 0 <= b.w <= 1
    ensures Sound(b, bricks, t)
  {
    hide Whole, Worth;
    forall r | r > 8
      ensures (r, b.n) !in bricks
    {
      RowLimit(bricks, r, b.n);
    }
  }
}
