/** The game state and the key loop of examples/dstar.c, with its globals as fields. */
module DStarGame {
  import opened DStarLevel
  import opened DStarSlide

  const MAXLEVEL := 25

  /** The keys that Gamekeys tells apart. */
  datatype Key = Down | Up | RightKey | LeftKey | Switch | Exit | NextLevel | PrevLevel | Clear | Other

  datatype Outcome = Finished | Left | Waiting | OffBoard

  /** The pieces of a level start inside the board and apart, and no other cell is packed as a ball. */
  ghost predicate WellMade(levels: Levels, level: int)
    requires 0 <= level < 25
  {
    && Placeable(levels, level) && BallAt(levels, level) != BoxAt(levels, level)
    && forall c :: 0 <= c < 144 && Unpacked(Data(levels, level))[c] == BALL ==>
         c == BallAt(levels, level) || c == BoxAt(levels, level)
  }

  predicate AllPlaceable(levels: Levels) { forall k :: 0 <= k < 25 ==> Placeable(levels, k) }

  ghost predicate AllWellMade(levels: Levels) {
    AllPlaceable(levels) && forall k :: 0 <= k < 25 ==> WellMade(levels, k)
  }

  lemma FreshIsTidy(levels: Levels, level: int)
    requires 0 <= level < 25 && WellMade(levels, level)
    ensures Tidy(Loaded(levels, level), Loaded(levels, level), BallAt(levels, level), BoxAt(levels, level))
  {
    hide CellOf;
  }

  /** A level whose pieces start in a sealed region. */
  ghost predicate StartsSealed(levels: Levels, level: int)
    requires 0 <= level < 25
  {
    Placeable(levels, level) &&
    exists s: set<int> ::
      Sound(Loaded(levels, level), Loaded(levels, level), BallAt(levels, level), BoxAt(levels, level), s)
  }

  /** A level whose pieces start at positions that no slide leaves. */
  ghost predicate StaysOn(levels: Levels, level: int)
    requires 0 <= level < 25
  {
    Placeable(levels, level) &&
    exists ps: set<Places> ::
      Keeps(Loaded(levels, level), ps) && Places(BallAt(levels, level), BoxAt(levels, level)) in ps
  }

  lemma SealedStaysOn(levels: Levels, level: int)
    requires 0 <= level < 25 && StartsSealed(levels, level)
    ensures StaysOn(levels, level)
  {
    hide Loaded, Tidy, Seals, Keeps;
    var s: set<int> :|
      Sound(Loaded(levels, level), Loaded(levels, level), BallAt(levels, level), BoxAt(levels, level), s);
    SealedKeeps(Loaded(levels, level), s);
    assert Places(BallAt(levels, level), BoxAt(levels, level)) in Pairs(s);
  }

  /** temp2 of the four arrow keys, and 0 for the other keys. */
  function StepOf(key: Key): int {
    match key
    case Down => 16
    case Up => -16
    case RightKey => 1
    case LeftKey => -1
    case _ => 0
  }

  /** '+' and '-' stop at the ends of the level table. */
  function LevelAfter(level: int, key: Key): int {
    if key == NextLevel && level + 1 < MAXLEVEL then level + 1
    else if key == PrevLevel && level > 0 then level - 1
    else level
  }

  predicate Reloads(level: int, key: Key) {
    key == Clear || LevelAfter(level, key) != level
  }

  /** What CheckNotFinished looks at: the cells 0 to 142. */
  ghost predicate NoneScanned(b: Board) { forall c :: 0 <= c < 143 ==> b[c] != BUBB }

  /** In any tidy state the scan is exact, if the level has no bubble in the last cell: no move ever
      changes that cell. */
  lemma ScanIsExact(b: Board, loaded: Board, ball: int, box: int)
    requires Tidy(b, loaded, ball, box) && loaded[143] != BUBB
    ensures NoneScanned(b) <==> Bubbles(b) == {}
  {
    assert CellTidy(b, loaded, ball, box, 143);
    if !NoneScanned(b) {
      var c :| 0 <= c < 143 && b[c] == BUBB;
      assert c in Bubbles(b);
    }
    if NoneScanned(b) {
      assert Bubbles(b) == {};
    }
  }

  /** No move ever takes a bubble from the last cell. */
  lemma LastBubbleStays(b: Board, loaded: Board, ball: int, box: int)
    requires Tidy(b, loaded, ball, box)
    ensures 143 in Bubbles(b) <==> loaded[143] == BUBB
  {
    assert CellTidy(b, loaded, ball, box, 143);
  }

  /** The scan is exact in all sound states of this level. */
  ghost predicate ScanExactOn(loaded: Board, s: set<int>) {
    forall b, ball, box :: Sound(b, loaded, ball, box, s) ==> (NoneScanned(b) <==> Bubbles(b) == {})
  }

  /** Exactly when the scan is exact in all sound states, as a test of the level alone: the last cell
      holds no bubble, or another bubble lies outside the region, so that the scan never comes up empty. */
  lemma ScanExactIff(loaded: Board, ball: int, box: int, s: set<int>)
    requires Sound(loaded, loaded, ball, box, s)
    ensures ScanExactOn(loaded, s) <==>
            loaded[143] != BUBB || exists c :: 0 <= c < 143 && c !in s && loaded[c] == BUBB
  {
    if loaded[143] != BUBB {
      forall b, ball', box' | Sound(b, loaded, ball', box', s)
        ensures NoneScanned(b) <==> Bubbles(b) == {}
      {
        ScanIsExact(b, loaded, ball', box');
      }
    } else if exists c :: 0 <= c < 143 && c !in s && loaded[c] == BUBB {
      var c :| 0 <= c < 143 && c !in s && loaded[c] == BUBB;
      forall b, ball', box' | Sound(b, loaded, ball', box', s)
        ensures NoneScanned(b) <==> Bubbles(b) == {}
      {
        assert b[c] == BUBB && c in Bubbles(b);
      }
    } else {
      var b: Board := seq(144, c requires 0 <= c < 144 =>
        if c in s && loaded[c] == BUBB then EMPTY else loaded[c]);
      AllReachedCleared(loaded, b, ball, box, s);
      assert 143 !in s;
      assert NoneScanned(b) && 143 in Bubbles(b);
    }
  }

  /** The board with all bubbles of the region taken is sound. */
  lemma AllReachedCleared(loaded: Board, b: Board, ball: int, box: int, s: set<int>)
    requires Sound(loaded, loaded, ball, box, s)
    requires forall c :: 0 <= c < 144 ==> b[c] == if c in s && loaded[c] == BUBB then EMPTY else loaded[c]
    ensures Sound(b, loaded, ball, box, s)
  {
    forall c | 0 <= c < 144
      ensures CellTidy(b, loaded, ball, box, c) && (b[c] == WALL <==> loaded[c] == WALL)
    {
      assert CellTidy(loaded, loaded, ball, box, c);
      assert c in s ==> c < 128;
    }
    hide CellTidy, StaysIn;
    SealsKept(loaded, b, s);
  }

  lemma NoWrap(v: int)
    requires -128 <= v < 128
    ensures ToChar(v) == v
  {
  }

  /** What one round of the loop finds after k rounds. */
  lemma SlideRound(b: Board, pieceIsBox: int, pos: int, d: int, k: nat)
    requires 0 <= pos < 128 && IsStep(d) && FitsChar(b, pieceIsBox, pos, d) && k <= SlideLen(b, pieceIsBox, pos, d)
    ensures var cur, locn := Slid(b, pos, d, k), At(pos, d, k);
            && OnBoard(locn) && OnBoard(locn + d) && At(pos, d, k + 1) == locn + d
            && if TestNextPosIsStop(pieceIsBox, cur[locn + d]) != 0 then k == SlideLen(b, pieceIsBox, pos, d)
               else && k < SlideLen(b, pieceIsBox, pos, d) && 0 <= locn + d < 128 && ToChar(locn + d) == locn + d
                    && Slid(b, pos, d, k + 1) == cur[locn + d := cur[locn]][locn := EMPTY]
  {
    AtInjective(pos, d, k, 0);
    FitsThroughout(b, pieceIsBox, pos, d, k);
    StopsAtEnd(b, pieceIsBox, pos, d, k);
    hide At, FitsChar, SlideLen, TestNextPosIsStop, Slid, ToChar, Stops;
    if k < SlideLen(b, pieceIsBox, pos, d) {
      FitsThroughout(b, pieceIsBox, pos, d, k + 1);
      NoWrap(At(pos, d, k + 1));
    }
    SlidStep(b, pos, d, k);
  }

  lemma StopsAtEnd(b: Board, pieceIsBox: int, pos: int, d: int, k: nat)
    requires OnBoard(pos) && IsStep(d) && k <= SlideLen(b, pieceIsBox, pos, d) && OnBoard(At(pos, d, k + 1))
    ensures TestNextPosIsStop(pieceIsBox, b[At(pos, d, k + 1)]) != 0 <==> k == SlideLen(b, pieceIsBox, pos, d)
  {
    hide At, SlideLen, TestNextPosIsStop;
    var n := SlideLen(b, pieceIsBox, pos, d);
    assert Stops(b, pieceIsBox, At(pos, d, n + 1));
    assert k < n ==> !Stops(b, pieceIsBox, At(pos, d, k + 1));
  }

  /** The board b' and the offset to are what a slide in direction d makes of board b and offset pos:
      with k the number of free cells ahead, the piece stands on the last of them, the cells it left
      and crossed are empty, all others are as before, and the bubbles among the cells entered, and
      no others, are gone. */
  ghost predicate SlideResult(b: Board, pieceIsBox: int, pos: int, d: int, b': Board, to: int) {
    && OnBoard(pos) && IsStep(d)
    && var k := SlideLen(b, pieceIsBox, pos, d);
       && b' == Slid(b, pos, d, k) && to == At(pos, d, k)
       && Bubbles(b') == Bubbles(b) - Entered(pos, d, k)
  }

  // ----- a slide in cells

  /** The ball (0) rolls over empty cells and bubbles, the box over empty cells. */
  predicate Free(b: Board, pieceIsBox: int, c: int) {
    OnBoard(c) && (b[c] == EMPTY || (pieceIsBox == 0 && b[c] == BUBB))
  }

  function StepsOn(from: int, d: int, k: int): int { from + k * d }

  ghost predicate CarriedBy(b: Board, pieceIsBox: int, from: int, to: int, d: int, k: nat) {
    && to == from + k * d
    && (forall j :: 1 <= j <= k ==> Free(b, pieceIsBox, StepsOn(from, d, j)))
    && OnBoard(to + d) && !Free(b, pieceIsBox, to + d)
  }

  /** A piece is carried from one cell to another in steps of d cells: all cells on the way are free, and
      the next one is not. */
  ghost predicate Carried(b: Board, pieceIsBox: int, from: int, to: int, d: int) {
    exists k: nat :: CarriedBy(b, pieceIsBox, from, to, d, k)
  }

  lemma AtSteps(pos: int, d: int, k: int)
    requires IsStep(d)
    ensures At(pos, d, k) == StepsOn(pos, d, k)
    ensures StepsOn(pos, d, k + 1) == StepsOn(pos, d, k) + d
  {
  }

  lemma FreeOrStops(b: Board, pieceIsBox: int, c: int)
    requires OnBoard(c)
    ensures Stops(b, pieceIsBox, c) <==> !Free(b, pieceIsBox, c)
  {
  }

  /** A slide that fits carries the piece to the last free cell. */
  lemma SlideIsCarried(b: Board, pieceIsBox: int, pos: int, d: int)
    requires OnBoard(pos) && IsStep(d) && FitsChar(b, pieceIsBox, pos, d)
    ensures Carried(b, pieceIsBox, pos, At(pos, d, SlideLen(b, pieceIsBox, pos, d)), d)
  {
    var k := SlideLen(b, pieceIsBox, pos, d);
    AtSteps(pos, d, k);
    AtSteps(pos, d, k + 1);
    FreeOrStops(b, pieceIsBox, At(pos, d, k + 1));
    hide At, Free, SlideLen, Stops;
    forall j | 1 <= j <= k
      ensures Free(b, pieceIsBox, StepsOn(pos, d, j))
    {
      AtSteps(pos, d, j);
      FreeOrStops(b, pieceIsBox, At(pos, d, j));
    }
    assert CarriedBy(b, pieceIsBox, pos, At(pos, d, k), d, k);
  }

  /** What MovePiece needs to know of a slide that fits. */
  lemma SlideFacts(b: Board, loaded: Board, ball: int, box: int, s: set<int>, pieceIsBox: int, d: int)
    requires Tidy(b, loaded, ball, box) && IsStep(d)
    requires FitsChar(b, pieceIsBox, Piece(ball, box, pieceIsBox), d)
    ensures var pos := Piece(ball, box, pieceIsBox);
            var k := SlideLen(b, pieceIsBox, pos, d);
            var to, b' := At(pos, d, k), Slid(b, pos, d, k);
            && SlideResult(b, pieceIsBox, pos, d, b', to)
            && (if pieceIsBox == 0 then Tidy(b', loaded, to, box) else Tidy(b', loaded, ball, to))
            && (Sound(b, loaded, ball, box, s) ==>
                  if pieceIsBox == 0 then Sound(b', loaded, to, box, s) else Sound(b', loaded, ball, to, s))
  {
    hide Tidy, Sound, FitsChar, SlideResult, SlideLen, Slid, At;
    PieceResult(b, loaded, ball, box, pieceIsBox, d);
    SlideKeepsTidy(b, loaded, ball, box, pieceIsBox, d);
    if Sound(b, loaded, ball, box, s) {
      SlideKeepsSound(b, loaded, ball, box, s, pieceIsBox, d);
    }
  }

  lemma KeptPlaces(b: Board, loaded: Board, ball: int, box: int, ps: set<Places>, pieceIsBox: int, d: int)
    requires Tidy(b, loaded, ball, box) && IsStep(d) && Keeps(loaded, ps) && Places(ball, box) in ps
    ensures FitsChar(b, pieceIsBox, Piece(ball, box, pieceIsBox), d)
    ensures PlacesAfter(b, Places(ball, box), pieceIsBox, d) in ps
  {
    hide Tidy, FitsChar, PlacesAfter;
    assert Kept(b, loaded, Places(ball, box), pieceIsBox, d, ps);
  }

  lemma PieceResult(b: Board, loaded: Board, ball: int, box: int, pieceIsBox: int, d: int)
    requires Tidy(b, loaded, ball, box) && IsStep(d)
    ensures var pos := Piece(ball, box, pieceIsBox);
            var k := SlideLen(b, pieceIsBox, pos, d);
            SlideResult(b, pieceIsBox, pos, d, Slid(b, pos, d, k), At(pos, d, k))
  {
    hide At, SlideLen, Slid, Bubbles, Entered, CellTidy;
    BubblesTaken(b, loaded, ball, box, pieceIsBox, d);
  }

  // ----- the whole program as a function of its keys

  /** The globals. */
  datatype Globals = Globals(level: int, b: Board, ball: int, box: int, pieceIsBox: int)

  function Load(levels: Levels, level: int): Globals
    requires 0 <= level < 25 && Placeable(levels, level)
  {
    Globals(level, Loaded(levels, level), BallAt(levels, level), BoxAt(levels, level), 0)
  }

  /** What a key does. */
  ghost function AfterKey(levels: Levels, s: Globals, key: Key): Globals
    requires AllPlaceable(levels)
  {
    var next := LevelAfter(s.level, key);
    if StepOf(key) != 0 && OnBoard(s.ball) && OnBoard(s.box) then
      var moved := Next(State(s.b, s.ball, s.box), Press(s.pieceIsBox, StepOf(key)));
      s.(b := moved.b, ball := moved.ball, box := moved.box)
    else if key == Switch then s.(pieceIsBox := 1 - s.pieceIsBox)
    else if Reloads(s.level, key) && 0 <= next < 25 then Load(levels, next)
    else s
  }

  /** What the test at the head of main's loop does. */
  ghost function AfterScan(levels: Levels, s: Globals): Globals
    requires AllPlaceable(levels)
  {
    if !NoneScanned(s.b) then s
    else if 0 <= s.level + 1 < MAXLEVEL then Load(levels, s.level + 1)
    else s.(level := s.level + 1)
  }

  /** The state that main waits in after some keys. */
  ghost function AfterKeys(levels: Levels, keys: seq<Key>): Globals
    requires AllPlaceable(levels)
  {
    if keys == [] then AfterScan(levels, Load(levels, 0))
    else AfterScan(levels, AfterKey(levels, AfterKeys(levels, keys[..|keys| - 1]), keys[|keys| - 1]))
  }

  lemma PiecesOnBoard(b: Board, loaded: Board, ball: int, box: int)
    requires Tidy(b, loaded, ball, box)
    ensures 0 <= ball < 128 && 0 <= box < 128
  {
  }

  class DStar {
    const levels: Levels
    const board: array<int>
    var ballOffset: Char
    var boxOffset: Char
    var pieceIsBox: int
    var level: int
    ghost var region: set<int>
    ghost var places: set<Places>

    constructor (levels: Levels)
      ensures this.levels == levels && board.Length == 144 && fresh(board)
    {
      this.levels := levels;
      board := new int[144](_ => EMPTY);
      ballOffset, boxOffset, pieceIsBox, level, region, places := 0, 0, 0, 0, {}, {};
    }

    ghost function TheState(): Globals
      reads this, board
      requires board.Length == 144
    {
      Globals(level, board[..], ballOffset, boxOffset, pieceIsBox)
    }

    /** A tidy state of the current level; a sound one if the level starts sealed, and one in which no
        slide leaves the board if the level stays on it. */
    ghost predicate InLevel()
      reads this, board
    {
      && board.Length == 144 && 0 <= level < 25 && 0 <= pieceIsBox <= 1
      && Placeable(levels, level)
      && Tidy(board[..], Loaded(levels, level), ballOffset, boxOffset)
      && (StartsSealed(levels, level) ==>
            Sound(board[..], Loaded(levels, level), ballOffset, boxOffset, region))
      && (StaysOn(levels, level) ==>
            Keeps(Loaded(levels, level), places) && Places(ballOffset, boxOffset) in places)
    }

    /** The next arrow key would not take a piece, or MovePiece's look ahead, off the board. */
    predicate Fits(key: Key)
      reads this, board
      requires board.Length == 144
    {
      StepOf(key) != 0 && OnBoard(Offset()) ==> FitsChar(board[..], pieceIsBox, Offset(), StepOf(key))
    }

    /** The current level as SetupLevel leaves it. */
    ghost predicate Fresh()
      reads this, board
      requires 0 <= level < 25 && board.Length == 144
    {
      && Placeable(levels, level)
      && board[..] == Loaded(levels, level) && pieceIsBox == 0
      && ballOffset == BallAt(levels, level) && boxOffset == BoxAt(levels, level)
      && (WellMade(levels, level) ==> InLevel())
    }

    /** The decompression loop of SetupLevel. */
    method Decompress()
      requires board.Length == 144 && 0 <= level < 25
      modifies board
      ensures board[..] == Unpacked(Data(levels, level))
    {
      ghost var data := Data(levels, level);
      var ptr, ptr2 := level * 38 + 2, 0;
      var x := 0;
      hide CellOf;
      while x != 36
        invariant 0 <= x <= 36 && ptr2 == 4 * x && ptr == level * 38 + 2 + x
        invariant forall k :: 0 <= k < ptr2 ==> board[k] == CellOf(data, k)
        decreases 36 - x
      {
        assert levels[ptr] == data[x];
        FourAt(data, x);
        board[ptr2] := levels[ptr] / 64 % 4;
        board[ptr2 + 1] := levels[ptr] / 16 % 4;
        board[ptr2 + 2] := levels[ptr] / 4 % 4;
        board[ptr2 + 3] := levels[ptr] % 4;
        ptr, ptr2, x := ptr + 1, ptr2 + 4, x + 1;
      }
    }

    method SetupLevel()
      requires board.Length == 144 && 0 <= level < 25 && Placeable(levels, level)
      modifies `ballOffset, `boxOffset, `pieceIsBox, `region, `places, board
      ensures Fresh() && TheState() == Load(levels, level)
    {
      hide Tidy, Sound, Unpacked, WellMade, Keeps;
      pieceIsBox := 0;
      ballOffset := levels[level * 38];
      boxOffset := levels[level * 38 + 1];
      Decompress();
      board[ballOffset] := BALL;
      board[boxOffset] := BOX;
      assert board[..] == Loaded(levels, level);
      if WellMade(levels, level) { FreshIsTidy(levels, level); }
      if StartsSealed(levels, level) {
        ghost var s: set<int> :|
          Sound(Loaded(levels, level), Loaded(levels, level), BallAt(levels, level), BoxAt(levels, level), s);
        region := s;
      }
      if StaysOn(levels, level) {
        ghost var ps: set<Places> :|
          Keeps(Loaded(levels, level), ps) && Places(BallAt(levels, level), BoxAt(levels, level)) in ps;
        places := ps;
      }
    }

    /** The offset that MovePiece is given: the box's when PieceIsBall is set, else the ball's. */
    function Offset(): int
      reads this
    {
      if pieceIsBox == 0 then ballOffset else boxOffset
    }

    /** A store through the pointer that MovePiece is given. */
    method SetOffset(v: Char)
      modifies `ballOffset, `boxOffset
      ensures Offset() == v && OtherOffset() == old(OtherOffset())
    {
      if pieceIsBox == 0 { ballOffset := v; } else { boxOffset := v; }
    }

    function OtherOffset(): int
      reads this
    {
      if pieceIsBox == 0 then boxOffset else ballOffset
    }

    /** The loop of MovePiece, for a slide whose cells have offsets that fit a signed char. */
    method Slide(temp2: int)
      requires board.Length == 144 && IsStep(temp2) && 0 <= Offset() < 128
      requires FitsChar(board[..], pieceIsBox, Offset(), temp2)
      modifies `ballOffset, `boxOffset, board
      ensures var b, pos := old(board[..]), old(Offset());
              var k := SlideLen(b, pieceIsBox, pos, temp2);
              board[..] == Slid(b, pos, temp2, k) && Offset() == At(pos, temp2, k)
      ensures OtherOffset() == old(OtherOffset())
    {
      ghost var b: Board := board[..];
      ghost var pos := Offset();
      ghost var n := SlideLen(b, pieceIsBox, pos, temp2);
      ghost var k := 0;
      AtInjective(pos, temp2, 0, 0);
      NotMoved(b, pos, temp2);
      hide At, Slid, SlideLen, FitsChar, TestNextPosIsStop, ToChar;
      while true
        invariant 0 <= k <= n && Offset() == At(pos, temp2, k) && board[..] == Slid(b, pos, temp2, k)
        invariant OtherOffset() == old(OtherOffset())
        decreases n - k
      {
        var locn := Offset();
        SlideRound(b, pieceIsBox, pos, temp2, k);
        if TestNextPosIsStop(pieceIsBox, board[locn + temp2]) != 0 { return; }
        board[locn + temp2] := board[locn];
        board[locn] := 0;
        SetOffset(ToChar(locn + temp2));
        k := k + 1;
      }
    }

    /** The piece slides to the last cell before the first stopper. The offset is a signed char;
        as long as the slide fits, its additions never wrap. */
    method MovePiece(plusx: int, plusy: int)
      requires InLevel() && IsStep(plusx + plusy * 16)
      requires OnBoard(Offset()) ==> FitsChar(board[..], pieceIsBox, Offset(), plusx + plusy * 16)
      modifies `ballOffset, `boxOffset, board
      ensures InLevel()
      ensures SlideResult(old(board[..]), pieceIsBox, old(Offset()), plusx + plusy * 16, board[..], Offset())
      ensures OtherOffset() == old(OtherOffset())
      ensures Carried(old(board[..]), pieceIsBox, old(Offset()), Offset(), plusx + plusy * 16)
    {
      hide Carried, Tidy, Sound, Loaded, SlideResult, FitsChar, ToChar, StartsSealed, StaysOn, At, Slid, SlideLen,
        Placeable, Keeps;
      PiecesOnBoard(board[..], Loaded(levels, level), ballOffset, boxOffset);
      NoWrap(plusx + plusy * 16);
      var temp2 := ToChar(plusx + plusy * 16);
      SlideFacts(board[..], Loaded(levels, level), ballOffset, boxOffset, region, pieceIsBox, temp2);
      SlideIsCarried(board[..], pieceIsBox, Offset(), temp2);
      if StaysOn(levels, level) {
        KeptPlaces(board[..], Loaded(levels, level), ballOffset, boxOffset, places, pieceIsBox, temp2);
      }
      Slide(temp2);
    }

    lemma NotMoved(b: Board, pos: int, d: int)
      requires OnBoard(pos) && IsStep(d)
      ensures Slid(b, pos, d, 0) == b
    {
    }

    /** Nothing of the state changes. */
    twostate predicate Same()
      reads this, board
    {
      board[..] == old(board[..]) && ballOffset == old(ballOffset) && boxOffset == old(boxOffset)
      && pieceIsBox == old(pieceIsBox) && region == old(region) && places == old(places)
    }

    /** One key. The result says whether the program exits. */
    method Gamekeys(key: Key) returns (quit: bool)
      requires InLevel() && AllWellMade(levels) && Fits(key)
      modifies this, board
      ensures quit == (key == Exit)
      ensures level == LevelAfter(old(level), key)
      ensures Reloads(old(level), key) ==> Fresh()
      ensures InLevel()
      ensures StepOf(key) != 0 ==>
                && SlideResult(old(board[..]), pieceIsBox, old(Offset()), StepOf(key), board[..], Offset())
                && OtherOffset() == old(OtherOffset()) && pieceIsBox == old(pieceIsBox)
      ensures key == Switch ==>
                pieceIsBox == 1 - old(pieceIsBox) && board[..] == old(board[..])
                && ballOffset == old(ballOffset) && boxOffset == old(boxOffset)
      ensures StepOf(key) == 0 && key != Switch && !Reloads(old(level), key) ==> Same()
      // the arrow keys in cells, sixteen to a row, and the level keys
      ensures key == Down ==> Carried(old(board[..]), pieceIsBox, old(Offset()), Offset(), 16)
      ensures key == Up ==> Carried(old(board[..]), pieceIsBox, old(Offset()), Offset(), -16)
      ensures key == RightKey ==> Carried(old(board[..]), pieceIsBox, old(Offset()), Offset(), 1)
      ensures key == LeftKey ==> Carried(old(board[..]), pieceIsBox, old(Offset()), Offset(), -1)
      ensures level == if key == NextLevel && old(level) < 24 then old(level) + 1
                       else if key == PrevLevel && old(level) > 0 then old(level) - 1 else old(level)
      ensures key == Clear || (key == NextLevel && old(level) < 24) || (key == PrevLevel && old(level) > 0) ==>
                Fresh()
      ensures TheState() == AfterKey(levels, old(TheState()), key)
    {
      hide Tidy, Sound, Loaded, SlideLen, Slid, At, Bubbles, Entered, FitsChar, WellMade, StartsSealed,
        StaysOn, Keeps, Carried;
      PiecesOnBoard(board[..], Loaded(levels, level), ballOffset, boxOffset);
      quit := false;
      match key {
        case Down => MovePiece(0, 1);
        case Up => MovePiece(0, -1);
        case RightKey => MovePiece(1, 0);
        case LeftKey => MovePiece(-1, 0);
        case Switch => pieceIsBox := 1 - pieceIsBox;
        case Exit => quit := true;
        case NextLevel =>
          level := level + 1;
          if level == MAXLEVEL {
            level := level - 1;
          } else {
            SetupLevel();
          }
        case PrevLevel =>
          level := level - 1;
          if level == -1 {
            level := level + 1;
          } else {
            SetupLevel();
          }
        case Clear => SetupLevel();
        case Other =>
      }
    }

    /** The scan goes over the cells 0 to 142 only; unless the level has a bubble in the last cell,
        advancing means that no bubble is left. */
    method CheckNotFinished() returns (more: bool)
      requires board.Length == 144 && 0 <= level < 25 && AllWellMade(levels)
      modifies this, board
      ensures !NoneScanned(old(board[..])) ==> more && level == old(level) && Same()
      ensures NoneScanned(old(board[..])) ==> level == old(level) + 1 && more == (level < MAXLEVEL)
      ensures NoneScanned(old(board[..])) && more ==> Fresh()
      ensures old(InLevel()) && Loaded(levels, old(level))[143] != BUBB ==>
                (level == old(level) + 1 <==> Bubbles(old(board[..])) == {})
      // an advance is right if and only if the level has no bubble in the last cell
      ensures old(InLevel()) && level == old(level) + 1 ==>
                (Bubbles(old(board[..])) == {} <==> Loaded(levels, old(level))[143] != BUBB)
      ensures old(InLevel()) && more ==> InLevel()
      ensures TheState() == AfterScan(levels, old(TheState()))
    {
      hide Loaded, Tidy, Sound, StartsSealed, StaysOn, Keeps, WellMade, Bubbles;
      if InLevel() && Loaded(levels, level)[143] != BUBB {
        ScanIsExact(board[..], Loaded(levels, level), ballOffset, boxOffset);
      }
      if InLevel() { LastBubbleStays(board[..], Loaded(levels, level), ballOffset, boxOffset); }
      var done := NothingLeft();
      if !done { return true; }
      level := level + 1;
      if level == MAXLEVEL { return false; }
      SetupLevel();
      more := true;
    }

    /** The loop of CheckNotFinished. */
    method NothingLeft() returns (done: bool)
      requires board.Length == 144
      ensures done <==> NoneScanned(board[..])
    {
      var ptr := 0;
      var i := 1;
      while i != 144
        invariant 1 <= i <= 144 && ptr == i - 1
        invariant forall c :: 0 <= c < ptr ==> board[c] != BUBB
        decreases 144 - i
      {
        if board[ptr] == BUBB {
          assert board[..][ptr] == BUBB;
          return false;
        }
        ptr, i := ptr + 1, i + 1;
      }
      done := true;
    }

    /** main, for any keys, on any level table. The run is followed until the game is finished or left,
        the keys are used up, or a key would take a piece off the board. */
    method Play(keys: seq<Key>) returns (r: Outcome, used: nat)
      requires board.Length == 144 && AllWellMade(levels)
      modifies this, board
      ensures used <= |keys|
      ensures if r == Finished then level == MAXLEVEL else InLevel()
      ensures r == Waiting ==> used == |keys|
      ensures r == Left ==> 0 < used && keys[used - 1] == Exit
      // on a level whose pieces start at positions that no slide leaves, no key takes one off the board
      ensures r == OffBoard ==> used < |keys| && !Fits(keys[used]) && !StaysOn(levels, level)
      // the run is the one that the keys determine
      ensures TheState() == AfterKeys(levels, if r == Left then keys[..used - 1] else keys[..used])
    {
      hide Tidy, Sound, Loaded, SlideResult, AfterKey, AfterScan, AfterKeys, Load, WellMade, StartsSealed, FitsChar,
        StaysOn, Keeps;
      level := 0;
      used := 0;
      assert WellMade(levels, 0);
      SetupLevel();
      KeysStart(levels);
      assert keys[..0] == [];
      while true
        invariant used <= |keys| && InLevel()
        invariant AfterScan(levels, TheState()) == AfterKeys(levels, keys[..used])
        decreases |keys| - used
      {
        var more := CheckNotFinished();
        if !more { return Finished, used; }
        if used == |keys| { return Waiting, used; }
        if !Fits(keys[used]) {
          if StaysOn(levels, level) { KeptFits(keys[used]); }
          return OffBoard, used;
        }
        OneMoreKey(levels, keys, used);
        used := used + 1;
        var quit := Gamekeys(keys[used - 1]);
        if quit {
          ExitChangesNothing(levels, AfterKeys(levels, keys[..used - 1]));
          return Left, used;
        }
      }
    }

    lemma KeptFits(key: Key)
      requires InLevel() && StaysOn(levels, level)
      ensures Fits(key)
    {
      if StepOf(key) != 0 {
        KeptPlaces(board[..], Loaded(levels, level), ballOffset, boxOffset, places, pieceIsBox, StepOf(key));
      }
    }
  }

  lemma KeysStart(levels: Levels)
    requires AllPlaceable(levels)
    ensures AfterKeys(levels, []) == AfterScan(levels, Load(levels, 0))
  {
  }

  lemma OneMoreKey(levels: Levels, keys: seq<Key>, n: nat)
    requires AllPlaceable(levels) && n < |keys|
    ensures AfterKeys(levels, keys[..n + 1]) ==
            AfterScan(levels, AfterKey(levels, AfterKeys(levels, keys[..n]), keys[n]))
  {
    hide AfterKey, AfterScan;
    assert keys[..n + 1][..n] == keys[..n];
  }

  lemma ExitChangesNothing(levels: Levels, s: Globals)
    requires AllPlaceable(levels)
    ensures AfterKey(levels, s, Exit) == s
  {
  }
}
