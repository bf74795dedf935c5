/** Sliding a piece in examples/dstar.c: what one key press does to the board. */
module DStarSlide {
  import opened DStarLevel

  /** The four values of temp2: one column or one row of sixteen cells. */
  predicate IsStep(d: int) { d == 1 || d == -1 || d == 16 || d == -16 }

  function At(pos: int, d: int, i: int): int {
    if d == 1 then pos + i else if d == -1 then pos - i else if d == 16 then pos + 16 * i else pos - 16 * i
  }

  predicate OnBoard(c: int) { 0 <= c < 144 }

  /** The ball (0) rolls over bubbles; everything else but an empty cell stops both pieces. */
  function TestNextPosIsStop(pieceIsBox: int, next: int): int {
    if pieceIsBox == 0 && next == BUBB then 0 else next
  }

  predicate Stops(b: Board, pieceIsBox: int, c: int) { OnBoard(c) ==> TestNextPosIsStop(pieceIsBox, b[c]) != 0 }

  /** How many cells a piece at pos slides in direction d, the first i being free. */
  function SlideFrom(b: Board, pieceIsBox: int, pos: int, d: int, i: nat): (k: nat)
    requires OnBoard(pos) && IsStep(d) && OnBoard(At(pos, d, i))
    ensures k >= i && OnBoard(At(pos, d, k))
    ensures Stops(b, pieceIsBox, At(pos, d, k + 1))
    ensures forall j :: i < j <= k ==> OnBoard(At(pos, d, j)) && !Stops(b, pieceIsBox, At(pos, d, j))
    decreases 144 - i
  {
    if Stops(b, pieceIsBox, At(pos, d, i + 1)) then i else SlideFrom(b, pieceIsBox, pos, d, i + 1)
  }

  /** The slide ends on the last free cell before the first stopper, and nowhere else. */
  function SlideLen(b: Board, pieceIsBox: int, pos: int, d: int): (k: nat)
    requires OnBoard(pos) && IsStep(d)
    ensures OnBoard(At(pos, d, k)) && Stops(b, pieceIsBox, At(pos, d, k + 1))
    ensures forall j :: 0 < j <= k ==> OnBoard(At(pos, d, j)) && !Stops(b, pieceIsBox, At(pos, d, j))
  {
    SlideFrom(b, pieceIsBox, pos, d, 0)
  }

  /** c is one of the first k cells of the path. */
  ghost predicate OnPath(pos: int, d: int, k: nat, c: int) { exists i :: 0 <= i < k && c == At(pos, d, i) }

  /** The board after a slide of k cells: the piece stands k cells on, the cells it left and crossed
      are empty, and no other cell has changed. */
  ghost function Slid(b: Board, pos: int, d: int, k: nat): Board
    requires OnBoard(pos)
  {
    seq(144, c requires 0 <= c < 144 =>
      if c == At(pos, d, k) then b[pos] else if OnPath(pos, d, k, c) then EMPTY else b[c])
  }

  lemma AtInjective(pos: int, d: int, i: int, j: int)
    requires IsStep(d)
    ensures At(pos, d, i) == At(pos, d, j) <==> i == j
    ensures At(pos, d, i + 1) == At(pos, d, i) + d && At(pos, d, 0) == pos
  {
  }

  /** One round of MovePiece's loop. */
  lemma SlidStep(b: Board, pos: int, d: int, k: nat)
    requires OnBoard(pos) && IsStep(d) && OnBoard(At(pos, d, k)) && OnBoard(At(pos, d, k + 1))
    ensures var cur := Slid(b, pos, d, k);
            && cur[At(pos, d, k + 1)] == b[At(pos, d, k + 1)]
            && Slid(b, pos, d, k + 1) == cur[At(pos, d, k + 1) := cur[At(pos, d, k)]][At(pos, d, k) := EMPTY]
  {
    hide At;
    forall i, j
      ensures At(pos, d, i) == At(pos, d, j) <==> i == j
    {
      AtInjective(pos, d, i, j);
    }
    forall c
      ensures OnPath(pos, d, k + 1, c) <==> OnPath(pos, d, k, c) || c == At(pos, d, k)
    {
      if OnPath(pos, d, k, c) {
        var i :| 0 <= i < k && c == At(pos, d, i);
        assert 0 <= i < k + 1;
      }
    }
  }

  // ----- what a move keeps

  /** One ball and one box, on their offsets, which fit a signed char; walls as loaded; no bubble that
      was not loaded; nothing changed where such offsets do not reach. */
  ghost predicate Tidy(b: Board, loaded: Board, ball: int, box: int) {
    && 0 <= ball < 128 && 0 <= box < 128 && ball != box
    && b[ball] == BALL && b[box] == BOX
    && (forall c :: 0 <= c < 144 ==> CellTidy(b, loaded, ball, box, c))
  }

  ghost predicate CellTidy(b: Board, loaded: Board, ball: int, box: int, c: int)
    requires 0 <= c < 144
  {
    && 0 <= b[c] <= 4
    && (b[c] == BALL ==> c == ball)
    && (b[c] == BOX ==> c == box)
    && (b[c] == WALL <==> loaded[c] == WALL)
    && (b[c] == BUBB ==> loaded[c] == BUBB)
    && (c >= 128 ==> b[c] == loaded[c])
  }

  function Piece(ball: int, box: int, pieceIsBox: int): int { if pieceIsBox == 0 then ball else box }

  /** The slide ends at an offset that a signed char holds, and the cell where it stops looking is on
      the board: MovePiece then never indexes outside Board. */
  predicate FitsChar(b: Board, pieceIsBox: int, pos: int, d: int)
    requires OnBoard(pos) && IsStep(d)
  {
    var k := SlideLen(b, pieceIsBox, pos, d);
    At(pos, d, k) < 128 && OnBoard(At(pos, d, k + 1))
  }

  /** All offsets of such a slide, and all cells it looks at, are in range. */
  lemma FitsThroughout(b: Board, pieceIsBox: int, pos: int, d: int, j: nat)
    requires 0 <= pos < 128 && IsStep(d) && FitsChar(b, pieceIsBox, pos, d)
    requires j <= SlideLen(b, pieceIsBox, pos, d)
    ensures 0 <= At(pos, d, j) < 128 && OnBoard(At(pos, d, j + 1))
  {
  }

  /** c is one of the k cells that a slide enters. */
  ghost predicate Enters(pos: int, d: int, k: nat, c: int) { exists j :: 0 < j <= k && c == At(pos, d, j) }

  /** The cells entered hold no wall and no piece. */
  lemma EnteredIsFree(b: Board, loaded: Board, ball: int, box: int, pieceIsBox: int, d: int, c: int)
    requires Tidy(b, loaded, ball, box) && IsStep(d)
    requires var pos := Piece(ball, box, pieceIsBox); Enters(pos, d, SlideLen(b, pieceIsBox, pos, d), c)
    ensures OnBoard(c) && c != ball && c != box
    ensures b[c] == EMPTY || (b[c] == BUBB && pieceIsBox == 0)
    ensures FitsChar(b, pieceIsBox, Piece(ball, box, pieceIsBox), d) ==> c < 128
  {
    var pos := Piece(ball, box, pieceIsBox);
    var k := SlideLen(b, pieceIsBox, pos, d);
    var j :| 0 < j <= k && c == At(pos, d, j);
    if FitsChar(b, pieceIsBox, pos, d) { FitsThroughout(b, pieceIsBox, pos, d, j); }
    hide At, SlideLen, FitsChar;
    assert OnBoard(c) && !Stops(b, pieceIsBox, c);
    assert CellTidy(b, loaded, ball, box, c);
  }

  lemma Destination(b: Board, pieceIsBox: int, pos: int, d: int)
    requires OnBoard(pos) && IsStep(d)
    ensures var k := SlideLen(b, pieceIsBox, pos, d);
            var to := At(pos, d, k);
            (to == pos || Enters(pos, d, k, to)) && OnBoard(to)
  {
    var k := SlideLen(b, pieceIsBox, pos, d);
    AtInjective(pos, d, 0, k);
    hide At, SlideLen;
    assert k > 0 ==> Enters(pos, d, k, At(pos, d, k));
  }

  /** Slid in terms of the cells entered. */
  lemma SlidValue(b: Board, pos: int, d: int, k: nat, c: int)
    requires OnBoard(pos) && IsStep(d) && OnBoard(c)
    ensures Slid(b, pos, d, k)[c] ==
            if c == At(pos, d, k) then b[pos] else if c == pos || Enters(pos, d, k, c) then EMPTY else b[c]
  {
    AtInjective(pos, d, 0, k);
    hide At;
    if OnPath(pos, d, k, c) {
      var i :| 0 <= i < k && c == At(pos, d, i);
      assert i > 0 ==> Enters(pos, d, k, c);
    }
    if Enters(pos, d, k, c) && c != At(pos, d, k) {
      var j :| 0 < j <= k && c == At(pos, d, j);
      assert 0 <= j < k;
    }
    assert k > 0 ==> OnPath(pos, d, k, At(pos, d, 0));
  }

  lemma SlidCell(b: Board, loaded: Board, ball: int, box: int, pieceIsBox: int, d: int, c: int)
    requires Tidy(b, loaded, ball, box) && IsStep(d) && OnBoard(c)
    requires FitsChar(b, pieceIsBox, Piece(ball, box, pieceIsBox), d)
    ensures var pos := Piece(ball, box, pieceIsBox);
            var k := SlideLen(b, pieceIsBox, pos, d);
            var to, b' := At(pos, d, k), Slid(b, pos, d, k);
            && (if pieceIsBox == 0 then CellTidy(b', loaded, to, box, c) else CellTidy(b', loaded, ball, to, c))
            && (b'[c] == WALL <==> b[c] == WALL)
            && (b'[c] == b[c] || c == pos || c == to || Enters(pos, d, k, c))
            && (c == to ==> b'[c] == b[pos] && 0 <= c < 128)
            && (c == Piece(box, ball, pieceIsBox) ==> b'[c] == b[c] && c != to)
  {
    var pos := Piece(ball, box, pieceIsBox);
    var k := SlideLen(b, pieceIsBox, pos, d);
    var to := At(pos, d, k);
    Destination(b, pieceIsBox, pos, d);
    SlidValue(b, pos, d, k, c);
    if Enters(pos, d, k, to) { EnteredIsFree(b, loaded, ball, box, pieceIsBox, d, to); }
    if Enters(pos, d, k, c) { EnteredIsFree(b, loaded, ball, box, pieceIsBox, d, c); }
    hide At, SlideLen, Slid, FitsChar, Enters;
    assert CellTidy(b, loaded, ball, box, c);
    assert CellTidy(b, loaded, ball, box, to);
  }

  /** A move keeps the board tidy: exactly one ball and one box, each at its offset, and the walls
      where they were. */
  lemma SlideKeepsTidy(b: Board, loaded: Board, ball: int, box: int, pieceIsBox: int, d: int)
    requires Tidy(b, loaded, ball, box) && IsStep(d)
    requires FitsChar(b, pieceIsBox, Piece(ball, box, pieceIsBox), d)
    ensures var pos := Piece(ball, box, pieceIsBox);
            var k := SlideLen(b, pieceIsBox, pos, d);
            var to := At(pos, d, k);
            if pieceIsBox == 0 then Tidy(Slid(b, pos, d, k), loaded, to, box)
            else Tidy(Slid(b, pos, d, k), loaded, ball, to)
  {
    var pos := Piece(ball, box, pieceIsBox);
    var k := SlideLen(b, pieceIsBox, pos, d);
    var to, b' := At(pos, d, k), Slid(b, pos, d, k);
    hide At, SlideLen, CellTidy, Slid, FitsChar, Enters;
    forall c | 0 <= c < 144
      ensures if pieceIsBox == 0 then CellTidy(b', loaded, to, box, c) else CellTidy(b', loaded, ball, to, c)
    {
      SlidCell(b, loaded, ball, box, pieceIsBox, d, c);
    }
    SlidCell(b, loaded, ball, box, pieceIsBox, d, to);
    SlidCell(b, loaded, ball, box, pieceIsBox, d, Piece(box, ball, pieceIsBox));
  }

  // ----- sealed boards

  /** A set of cells away from the top and bottom rows that no step from it leaves but into a wall. */
  ghost predicate Seals(b: Board, s: set<int>) {
    forall c :: c in s ==> 16 <= c < 128 && StaysIn(b, s, c, 1) && StaysIn(b, s, c, -1)
                           && StaysIn(b, s, c, 16) && StaysIn(b, s, c, -16)
  }

  ghost predicate StaysIn(b: Board, s: set<int>, c: int, d: int) {
    OnBoard(c + d) && (b[c + d] == WALL || c + d in s)
  }

  /** A tidy board whose pieces are sealed in, and which has changed only there. */
  ghost predicate Sound(b: Board, loaded: Board, ball: int, box: int, s: set<int>) {
    && Tidy(b, loaded, ball, box)
    && ball in s && box in s && Seals(b, s)
    && (forall c :: 0 <= c < 144 && c !in s ==> b[c] == loaded[c])
  }

  lemma {:induction false} SlideStaysIn(b: Board, s: set<int>, pieceIsBox: int, pos: int, d: int, k: nat)
    requires Seals(b, s) && pos in s && IsStep(d) && OnBoard(pos)
    requires forall j :: 0 < j <= k ==> OnBoard(At(pos, d, j)) && !Stops(b, pieceIsBox, At(pos, d, j))
    ensures At(pos, d, k) in s
  {
    if k > 0 {
      SlideStaysIn(b, s, pieceIsBox, pos, d, k - 1);
      AtInjective(pos, d, k - 1, k);
      hide At;
      var c := At(pos, d, k - 1);
      assert StaysIn(b, s, c, 1) && StaysIn(b, s, c, -1) && StaysIn(b, s, c, 16) && StaysIn(b, s, c, -16);
      assert At(pos, d, k) == c + d;
      assert b[c + d] != WALL;
    }
  }

  /** On a sealed board the piece never leaves the region, so every slide fits: its offsets stay in
      16..127 and every cell it looks at lies on the board. */
  lemma SlideInRegion(b: Board, s: set<int>, pieceIsBox: int, pos: int, d: int)
    requires Seals(b, s) && pos in s && IsStep(d) && OnBoard(pos)
    ensures forall j :: 0 <= j <= SlideLen(b, pieceIsBox, pos, d) ==> At(pos, d, j) in s && 16 <= At(pos, d, j) < 128
    ensures FitsChar(b, pieceIsBox, pos, d)
  {
    var k := SlideLen(b, pieceIsBox, pos, d);
    forall j | 0 <= j <= k
      ensures At(pos, d, j) in s && 16 <= At(pos, d, j) < 128
    {
      SlideStaysIn(b, s, pieceIsBox, pos, d, j);
    }
    AtInjective(pos, d, k, k + 1);
    hide At, SlideLen;
    assert 16 <= At(pos, d, k) < 128;
  }

  lemma EntersRegion(b: Board, s: set<int>, pieceIsBox: int, pos: int, d: int, c: int)
    requires Seals(b, s) && pos in s && IsStep(d) && OnBoard(pos)
    requires Enters(pos, d, SlideLen(b, pieceIsBox, pos, d), c)
    ensures c in s
  {
    SlideInRegion(b, s, pieceIsBox, pos, d);
  }

  /** A move keeps a sealed board sealed. */
  lemma SlideKeepsSound(b: Board, loaded: Board, ball: int, box: int, s: set<int>, pieceIsBox: int, d: int)
    requires Sound(b, loaded, ball, box, s) && IsStep(d)
    ensures var pos := Piece(ball, box, pieceIsBox);
            var k := SlideLen(b, pieceIsBox, pos, d);
            var to := At(pos, d, k);
            && FitsChar(b, pieceIsBox, pos, d)
            && if pieceIsBox == 0 then Sound(Slid(b, pos, d, k), loaded, to, box, s)
               else Sound(Slid(b, pos, d, k), loaded, ball, to, s)
  {
    var pos := Piece(ball, box, pieceIsBox);
    var k := SlideLen(b, pieceIsBox, pos, d);
    SlideInRegion(b, s, pieceIsBox, pos, d);
    var to, b' := At(pos, d, k), Slid(b, pos, d, k);
    assert to in s;
    SlideKeepsTidy(b, loaded, ball, box, pieceIsBox, d);
    hide At, SlideLen, Slid, StaysIn, FitsChar, Enters, CellTidy;
    forall c | 0 <= c < 144
      ensures b'[c] == WALL <==> b[c] == WALL
      ensures c !in s ==> b'[c] == loaded[c]
    {
      SlidCell(b, loaded, ball, box, pieceIsBox, d, c);
      if Enters(pos, d, k, c) { EntersRegion(b, s, pieceIsBox, pos, d, c); }
    }
    SealsKept(b, b', s);
  }

  lemma SealsKept(b: Board, b': Board, s: set<int>)
    requires Seals(b, s) && forall c :: 0 <= c < 144 ==> (b'[c] == WALL <==> b[c] == WALL)
    ensures Seals(b', s)
  {
    forall c, d | StaysIn(b, s, c, d)
      ensures StaysIn(b', s, c, d)
    {
    }
  }

  // ----- positions that no slide leaves

  datatype Places = Places(ball: int, box: int)

  function PlacesAfter(b: Board, at: Places, pieceIsBox: int, d: int): Places
    requires OnBoard(at.ball) && OnBoard(at.box) && IsStep(d)
  {
    var pos := Piece(at.ball, at.box, pieceIsBox);
    var to := At(pos, d, SlideLen(b, pieceIsBox, pos, d));
    if pieceIsBox == 0 then at.(ball := to) else at.(box := to)
  }

  /** From this tidy board this slide fits, and leads to positions in ps. */
  ghost predicate Kept(b: Board, loaded: Board, at: Places, pieceIsBox: int, d: int, ps: set<Places>)
    requires IsStep(d)
  {
    Tidy(b, loaded, at.ball, at.box) ==>
      FitsChar(b, pieceIsBox, Piece(at.ball, at.box, pieceIsBox), d) && PlacesAfter(b, at, pieceIsBox, d) in ps
  }

  /** Every slide from positions in ps fits and ends at such positions, whatever bubbles are left. */
  ghost predicate Keeps(loaded: Board, ps: set<Places>) {
    forall b: Board, at, pieceIsBox, d :: at in ps && IsStep(d) ==> Kept(b, loaded, at, pieceIsBox, d, ps)
  }

  function Pairs(s: set<int>): set<Places> { set x, y | x in s && y in s :: Places(x, y) }

  /** The pieces of a sealed board stay in its region. */
  lemma SealedKeeps(loaded: Board, s: set<int>)
    requires Seals(loaded, s)
    ensures Keeps(loaded, Pairs(s))
  {
    forall b: Board, at, pieceIsBox, d | at in Pairs(s) && IsStep(d)
      ensures Kept(b, loaded, at, pieceIsBox, d, Pairs(s))
    {
      if Tidy(b, loaded, at.ball, at.box) {
        WallsKept(b, loaded, at.ball, at.box);
        SealsKept(loaded, b, s);
        var pos := Piece(at.ball, at.box, pieceIsBox);
        SlideInRegion(b, s, pieceIsBox, pos, d);
        hide At, SlideLen, Seals, FitsChar;
        assert At(pos, d, SlideLen(b, pieceIsBox, pos, d)) in s;
      }
    }
  }

  lemma WallsKept(b: Board, loaded: Board, ball: int, box: int)
    requires Tidy(b, loaded, ball, box)
    ensures forall c :: 0 <= c < 144 ==> (b[c] == WALL <==> loaded[c] == WALL)
  {
    forall c | 0 <= c < 144
      ensures b[c] == WALL <==> loaded[c] == WALL
    {
      assert CellTidy(b, loaded, ball, box, c);
    }
  }

  function Bubbles(b: Board): set<int> { set c | 0 <= c < 144 && b[c] == BUBB }

  /** The cells a slide enters. */
  ghost function Entered(pos: int, d: int, k: nat): set<int> { set c | 0 <= c < 144 && Enters(pos, d, k, c) }

  /** The ball takes exactly the bubbles on its way; the box takes none. */
  lemma BubblesTaken(b: Board, loaded: Board, ball: int, box: int, pieceIsBox: int, d: int)
    requires Tidy(b, loaded, ball, box) && IsStep(d)
    ensures var pos := Piece(ball, box, pieceIsBox);
            var k := SlideLen(b, pieceIsBox, pos, d);
            var taken := Bubbles(b) * Entered(pos, d, k);
            && Bubbles(Slid(b, pos, d, k)) == Bubbles(b) - taken
            && |Bubbles(Slid(b, pos, d, k))| == |Bubbles(b)| - |taken|
            && (pieceIsBox != 0 ==> taken == {})
  {
    var pos := Piece(ball, box, pieceIsBox);
    var k := SlideLen(b, pieceIsBox, pos, d);
    var b' := Slid(b, pos, d, k);
    Destination(b, pieceIsBox, pos, d);
    hide At, SlideLen, Slid, Enters;
    forall c | OnBoard(c)
      ensures b'[c] == BUBB <==> b[c] == BUBB && !Enters(pos, d, k, c)
      ensures pieceIsBox != 0 && Enters(pos, d, k, c) ==> b[c] != BUBB
    {
      SlidValue(b, pos, d, k, c);
      if Enters(pos, d, k, c) { EnteredIsFree(b, loaded, ball, box, pieceIsBox, d, c); }
    }
    var taken := Bubbles(b) * Entered(pos, d, k);
    assert Bubbles(b) == Bubbles(b') + taken;
  }

  // ----- a level's run

  /** The board and the two offsets. */
  datatype State = State(b: Board, ball: int, box: int)

  /** One arrow key, with the ball (0) or the box in hand. */
  datatype Press = Press(pieceIsBox: int, d: int)

  ghost function Next(s: State, p: Press): State
    requires OnBoard(s.ball) && OnBoard(s.box) && IsStep(p.d)
  {
    var pos := Piece(s.ball, s.box, p.pieceIsBox);
    var k := SlideLen(s.b, p.pieceIsBox, pos, p.d);
    var to, b' := At(pos, p.d, k), Slid(s.b, pos, p.d, k);
    if p.pieceIsBox == 0 then State(b', to, s.box) else State(b', s.ball, to)
  }

  /** The bubbles that one key press makes the piece roll over. */
  ghost function Taken(s: State, p: Press): set<int>
    requires OnBoard(s.ball) && OnBoard(s.box) && IsStep(p.d)
  {
    var pos := Piece(s.ball, s.box, p.pieceIsBox);
    Bubbles(s.b) * Entered(pos, p.d, SlideLen(s.b, p.pieceIsBox, pos, p.d))
  }

  ghost predicate SoundState(s: State, loaded: Board, region: set<int>) {
    Sound(s.b, loaded, s.ball, s.box, region)
  }

  lemma NextIsSound(s: State, loaded: Board, region: set<int>, p: Press)
    requires SoundState(s, loaded, region) && IsStep(p.d)
    ensures OnBoard(s.ball) && OnBoard(s.box) && SoundState(Next(s, p), loaded, region)
    ensures Bubbles(Next(s, p).b) == Bubbles(s.b) - Taken(s, p)
    ensures |Bubbles(Next(s, p).b)| == |Bubbles(s.b)| - |Taken(s, p)|
  {
    hide At, Slid, SlideLen, Bubbles, Entered, StaysIn, CellTidy, FitsChar;
    SlideKeepsSound(s.b, loaded, s.ball, s.box, region, p.pieceIsBox, p.d);
    BubblesTaken(s.b, loaded, s.ball, s.box, p.pieceIsBox, p.d);
  }

  /** states is a run: each state is what a press makes of the one before. */
  ghost predicate IsRun(states: seq<State>, presses: seq<Press>) {
    && |states| == |presses| + 1
    && forall k :: 0 <= k < |presses| ==>
         IsStep(presses[k].d) && OnBoard(states[k].ball) && OnBoard(states[k].box)
         && states[k + 1] == Next(states[k], presses[k])
  }

  ghost function TotalTaken(states: seq<State>, presses: seq<Press>, n: nat): nat
    requires IsRun(states, presses) && n <= |presses|
  {
    if n == 0 then 0 else TotalTaken(states, presses, n - 1) + |Taken(states[n - 1], presses[n - 1])|
  }

  /** On every run of a level that starts sealed, all states are sound and no bubble is lost or made:
      those on the board and those rolled over always add up to those of the start. */
  lemma {:induction false} RunIsSound(states: seq<State>, presses: seq<Press>, loaded: Board, region: set<int>, n: nat)
    requires IsRun(states, presses) && SoundState(states[0], loaded, region) && n <= |presses|
    ensures SoundState(states[n], loaded, region)
    ensures |Bubbles(states[n].b)| + TotalTaken(states, presses, n) == |Bubbles(states[0].b)|
  {
    hide SoundState, Next, Taken, Bubbles;
    if n > 0 {
      RunIsSound(states, presses, loaded, region, n - 1);
      NextIsSound(states[n - 1], loaded, region, presses[n - 1]);
      assert states[(n - 1) + 1] == Next(states[n - 1], presses[n - 1]);
    }
  }
}
