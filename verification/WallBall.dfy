/** The ball of examples/wall.c. move_ball is a switch over six states whose cases jump into each
    other; it is proved to compute a closed form: the paddle, the side walls and the ceiling each
    turn the direction at most once, then the ball takes one step. */
module WallBall {
  import opened WallBricks

  /** The six states: two diagonals and the vertical, down (100, 160, 200) and up (120, 140, 180). */
  predicate Code(g: int) { g == 100 || g == 120 || g == 140 || g == 160 || g == 180 || g == 200 }

  predicate Down(g: int) { g == 100 || g == 160 || g == 200 }

  function RowStep(g: int): int { if Down(g) then 1 else -1 }

  function ColStep(g: int): int { if g == 100 || g == 120 then 1 else if g == 140 || g == 160 then -1 else 0 }

  datatype Ball = Ball(m: int, n: int, g: int, p: int, w: int) {
    predicate InField() { 0 <= m <= 20 && 0 <= n <= 31 && Code(g) && 0 <= p <= 1 && 0 <= w <= 1 }
  }

  // ----- the closed form

  /** The direction in which the paddle at column a, three cells wide, sends a ball that comes down
      on column n; the direction is kept when the ball misses. */
  function Catch(g: int, n: int, a: int, coin: bool): int {
    if g == 100 then
      (if n == a + 1 || n == a + 2 then 120 else if n == a then 180 else if n == a - 1 then 140 else g)
    else if g == 160 then
      (if n == a + 3 then 120 else if n == a + 2 then 180 else if n == a || n == a + 1 then 140 else g)
    else if g == 200 then
      (if n == a + 2 || (n == a + 1 && coin) then 120 else if n == a + 1 || n == a then 140 else g)
    else g
  }

  function Mirror(g: int): int {
    if g == 100 then 160 else if g == 160 then 100 else if g == 120 then 140 else if g == 140 then 120 else g
  }

  function Ceiling(g: int): int {
    if g == 120 then 100 else if g == 140 then 160 else if g == 180 then 200 else g
  }

  predicate IntoSide(g: int, n: int) { (n > 30 && ColStep(g) == 1) || (n < 1 && ColStep(g) == -1) }

  /** The direction after the paddle and the side walls. A ball that misses the paddle in a bottom
      corner is mirrored and offered to the paddle again. */
  function AfterSides(b: Ball, a: int, coin: bool): int {
    var caught := if b.m == 20 then Catch(b.g, b.n, a, coin) else b.g;
    if IntoSide(caught, b.n) && Down(caught) then
      var again := if b.m == 20 then Catch(Mirror(caught), b.n, a, coin) else Mirror(caught);
      if IntoSide(again, b.n) then Mirror(again) else again
    else if IntoSide(caught, b.n) && !(caught == 140 && b.m < 1) then Mirror(caught)
    else caught
  }

  /** The state in which the ball leaves its cell. At the ceiling both diagonals set w, and a ball in
      the left top corner is first moved to column 1. */
  function Route(b: Ball, a: int, coin: bool): Ball {
    var bottom := b.m == 20 && Down(b.g);
    var p, w := if bottom then 0 else b.p, if bottom then 0 else b.w;
    var g := AfterSides(b, a, coin);
    if b.m < 1 && !Down(g) then
      Ball(b.m, if g == 140 && b.n < 1 then 1 else b.n, Ceiling(g), p, if g == 180 then w else 1)
    else Ball(b.m, b.n, g, p, w)
  }

  function Stepped(b: Ball): Ball { Ball(b.m + RowStep(b.g), b.n + ColStep(b.g), b.g, b.p, b.w) }

  /** What hitting a brick does to the ball. */
  function Rebound(b: Ball): Ball {
    if b.g == 100 then (if b.p == 0 || b.w == 1 then b.(g := 120) else b)
    else if b.g == 160 then (if b.p == 0 || b.w == 1 then b.(g := 140) else b)
    else if b.g == 120 then b.(p := 1, g := 100 + 40 * b.w)
    else if b.g == 140 then b.(p := 1, g := 160 - 40 * b.w)
    else b.(g := 200)
  }

  /** A moved ball looks for a brick in every state but 200. */
  predicate Hits(b: Ball, bricks: Bricks) { b.g != 200 && (b.m, b.n) in bricks }

  function Moved(b: Ball, a: int, coin: bool, bricks: Bricks): Ball {
    var s := Stepped(Route(b, a, coin));
    if Hits(s, bricks) then Rebound(s) else s
  }

  function BricksAfter(b: Ball, a: int, coin: bool, bricks: Bricks): Bricks {
    var s := Stepped(Route(b, a, coin));
    if Hits(s, bricks) then Destroyed(bricks, s.m, s.n) else bricks
  }

  function Gain(b: Ball, a: int, coin: bool, bricks: Bricks): int {
    var s := Stepped(Route(b, a, coin));
    if Hits(s, bricks) then 13 - s.m else 0
  }

  // ----- the jumps

  /** The places of the switch that control can be at; Case200 is the head of the last case, which
      no goto names, and Leave is the point where a case moves the ball. */
  datatype Label = L100 | L106 | L120 | L140 | L160 | L166 | L180 | Case200 | Leave

  function Entry(g: int): Label {
    if g == 100 then L100 else if g == 120 then L120 else if g == 140 then L140
    else if g == 160 then L160 else if g == 180 then L180 else Case200
  }

  /** One stretch of code, from a label to the next jump or to the move. */
  function Jump(l: Label, b: Ball, a: int, coin: bool): (Label, Ball) {
    match l
    case L100 =>
      if b.m < 20 then (L106, b)
      else
        var b := b.(p := 0, w := 0);
        if b.n == a + 1 || b.n == a + 2 then (L120, b.(g := 120))
        else if b.n == a then (L180, b.(g := 180))
        else if b.n == a - 1 then (L140, b.(g := 140))
        else (L106, b)
    case L106 => if b.n > 30 then (L160, b.(g := 160)) else (Leave, b)
    case L120 =>
      if b.n > 30 then (L140, b.(g := 140))
      else if b.m < 1 then (L100, b.(w := 1, g := 100))
      else (Leave, b)
    case L140 =>
      if b.m < 1 then (L160, b.(n := if b.n < 1 then b.n + 1 else b.n, w := 1, g := 160))
      else if b.n < 1 then (L120, b.(g := 120))
      else (Leave, b)
    case L160 =>
      if b.m < 20 then (L166, b)
      else
        var b := b.(p := 0, w := 0);
        if b.n == a + 3 then (L120, b.(g := 120))
        else if b.n == a + 2 then (L180, b.(g := 180))
        else if b.n == a || b.n == a + 1 then (L140, b.(g := 140))
        else (L166, b)
    case L166 => if b.n < 1 then (L100, b.(g := 100)) else (Leave, b)
    case L180 => if b.m < 1 then (Leave, b.(g := 200)) else (Leave, b)
    case Case200 =>
      if b.m < 20 then (Leave, b)
      else
        var b := b.(p := 0, w := 0);
        if b.n == a + 2 then (L120, b.(g := 120))
        else if b.n == a + 1 then (if coin then (L120, b.(g := 120)) else (L140, b.(g := 140)))
        else if b.n == a then (L140, b.(g := 140))
        else (Leave, b)
    case Leave => (Leave, b)
  }

  /** The termination measure of the jumps: which label can follow which depends on whether the ball
      is at a side wall or at the ceiling. */
  function Rank(l: Label, b: Ball): nat {
    if l == Leave then 0
    else if l == Case200 then 9
    else if l == L180 then 1
    else if b.n > 30 then
      (if l == L100 then 8 else if l == L106 then 7 else if l == L160 then 6 else if l == L166 then 5
       else if l == L120 then (if b.m < 1 then 8 else 3) else if b.m < 1 then 7 else 2)
    else if b.n < 1 then
      (if l == L160 then 8 else if l == L166 then 7 else if l == L100 then 6 else if l == L106 then 5
       else if l == L120 then (if b.m < 1 then 7 else 2) else if b.m < 1 then 8 else 3)
    else
      (if l == L100 || l == L160 then 6 else if l == L106 || l == L166 then 5
       else if b.m < 1 then 7 else 2)
  }

  lemma JumpDescends(l: Label, b: Ball, a: int, coin: bool)
    requires b.InField() && l != Leave
    ensures var (l', b') := Jump(l, b, a, coin);
            b'.InField() && b'.m == b.m && Rank(l', b') < Rank(l, b)
  {
  }

  /** Where the jumps lead. */
  function Chain(l: Label, b: Ball, a: int, coin: bool): Ball
    requires b.InField()
    decreases Rank(l, b)
  {
    if l == Leave then b
    else
      JumpDescends(l, b, a, coin);
      var (l', b') := Jump(l, b, a, coin);
      Chain(l', b', a, coin)
  }

  /** How many jumps that takes. */
  function JumpsFrom(l: Label, b: Ball, a: int, coin: bool): nat
    requires b.InField()
    decreases Rank(l, b)
  {
    if l == Leave then 0
    else
      JumpDescends(l, b, a, coin);
      var (l', b') := Jump(l, b, a, coin);
      if l' == Leave then 0 else 1 + JumpsFrom(l', b', a, coin)
  }

  lemma Follow(l: Label, b: Ball, a: int, coin: bool) returns (l': Label, b': Ball)
    requires b.InField()
    ensures (l', b') == Jump(l, b, a, coin) && b'.InField()
    ensures Chain(l, b, a, coin) == Chain(l', b', a, coin)
    ensures JumpsFrom(l, b, a, coin) == if l' == Leave then 0 else 1 + JumpsFrom(l', b', a, coin)
  {
    if l != Leave { JumpDescends(l, b, a, coin); }
    l', b' := Jump(l, b, a, coin).0, Jump(l, b, a, coin).1;
  }

  lemma VerticalRoute(b: Ball, a: int, coin: bool)
    requires b.InField() && 0 <= a <= 29 && (b.g == 180 || b.g == 200)
    ensures Chain(Entry(b.g), b, a, coin) == Route(b, a, coin)
    ensures JumpsFrom(Entry(b.g), b, a, coin) <= 2
  {
    hide Chain, JumpsFrom;
    var l1, b1 := Follow(Entry(b.g), b, a, coin);
    var l2, b2 := Follow(l1, b1, a, coin);
    var l3, b3 := Follow(l2, b2, a, coin);
    ChainEnds(b3, a, coin);
  }

  lemma RightUpRoute(b: Ball, a: int, coin: bool)
    requires b.InField() && 0 <= a <= 29 && b.g == 120
    ensures Chain(Entry(b.g), b, a, coin) == Route(b, a, coin)
    ensures JumpsFrom(Entry(b.g), b, a, coin) <= 3
  {
    hide Chain, JumpsFrom;
    var l1, b1 := Follow(Entry(b.g), b, a, coin);
    var l2, b2 := Follow(l1, b1, a, coin);
    var l3, b3 := Follow(l2, b2, a, coin);
    var l4, b4 := Follow(l3, b3, a, coin);
    ChainEnds(b4, a, coin);
  }

  lemma LeftUpRoute(b: Ball, a: int, coin: bool)
    requires b.InField() && 0 <= a <= 29 && b.g == 140
    ensures Chain(Entry(b.g), b, a, coin) == Route(b, a, coin)
    ensures JumpsFrom(Entry(b.g), b, a, coin) <= 2
  {
    hide Chain, JumpsFrom;
    var l1, b1 := Follow(Entry(b.g), b, a, coin);
    var l2, b2 := Follow(l1, b1, a, coin);
    var l3, b3 := Follow(l2, b2, a, coin);
    ChainEnds(b3, a, coin);
  }

  lemma RightDownRoute(b: Ball, a: int, coin: bool)
    requires b.InField() && 0 <= a <= 29 && b.g == 100
    ensures Chain(Entry(b.g), b, a, coin) == Route(b, a, coin)
    ensures JumpsFrom(Entry(b.g), b, a, coin) <= 4
  {
    hide Chain, JumpsFrom;
    var l1, b1 := Follow(Entry(b.g), b, a, coin);
    var l2, b2 := Follow(l1, b1, a, coin);
    var l3, b3 := Follow(l2, b2, a, coin);
    var l4, b4 := Follow(l3, b3, a, coin);
    var l5, b5 := Follow(l4, b4, a, coin);
    ChainEnds(b5, a, coin);
  }

  lemma LeftDownRoute(b: Ball, a: int, coin: bool)
    requires b.InField() && 0 <= a <= 29 && b.g == 160
    ensures Chain(Entry(b.g), b, a, coin) == Route(b, a, coin)
    ensures JumpsFrom(Entry(b.g), b, a, coin) <= 5
  {
    hide Chain, JumpsFrom;
    var l1, b1 := Follow(L160, b, a, coin);
    if l1 == L166 {
      var l2, b2 := Follow(l1, b1, a, coin);
      var l3, b3 := Follow(l2, b2, a, coin);
      var l4, b4 := Follow(l3, b3, a, coin);
      var l5, b5 := Follow(l4, b4, a, coin);
      ChainEnds(b5, a, coin);
    } else {
      var l2, b2 := Follow(l1, b1, a, coin);
      var l3, b3 := Follow(l2, b2, a, coin);
      ChainEnds(b3, a, coin);
    }
  }

  /** The goto chain computes the closed form: for every state in the field it ends after at most
      five jumps, in the state that paddle, sides and ceiling determine. */
  lemma ChainIsRoute(b: Ball, a: int, coin: bool)
    requires b.InField() && 0 <= a <= 29
    ensures Chain(Entry(b.g), b, a, coin) == Route(b, a, coin)
    ensures JumpsFrom(Entry(b.g), b, a, coin) <= 5
  {
    hide Chain, Route, JumpsFrom;
    match b.g
    case 100 => RightDownRoute(b, a, coin);
    case 120 => RightUpRoute(b, a, coin);
    case 140 => LeftUpRoute(b, a, coin);
    case 160 => LeftDownRoute(b, a, coin);
    case _ => VerticalRoute(b, a, coin);
  }

  lemma ChainEnds(b: Ball, a: int, coin: bool)
    requires b.InField()
    ensures Chain(Leave, b, a, coin) == b && JumpsFrom(Leave, b, a, coin) == 0
  {
  }

  /** One call of move_ball moves the ball exactly one row and at most one column, inside the walls,
      and leaves its state and its flags in their sets. */
  lemma OneStep(b: Ball, a: int, coin: bool, bricks: Bricks)
    requires b.InField() && 0 <= a <= 29 && WellLaid(bricks)
    ensures var b' := Moved(b, a, coin, bricks);
            && (b'.m == b.m + 1 || b'.m == b.m - 1)
            && b.n - 1 <= b'.n <= b.n + 1
            && 0 <= b'.m <= 21 && 0 <= b'.n <= 31
            && Code(b'.g) && 0 <= b'.p <= 1 && 0 <= b'.w <= 1
  {
  }
}
