# Verified models of four z88dk programs

This project models the logic of four files of the repository and proves properties of it.

* **Othello** (`examples/othello.c`): ray scanning, in-place flipping, the retake test, the static
  evaluator, move choice and the turn loop. `OthelloRays`, `OthelloFlips`, `OthelloCounts`,
  `OthelloRetake`, `OthelloEval`, `OthelloRating`, `OthelloChoice`, `OthelloGame`.
* **The wall game** (`examples/wall.c`): the six-state ball machine with its `goto` chains, the map of
  brick halves, levels and score. `WallBricks`, `WallBall`, `WallGame`, `WallMotion`.
* **DStar** (`examples/dstar.c`, `examples/dstar.h`): packed levels, sliding pieces, keys and level
  progress. `DStarLevel`, `DStarSlide`, `DStarGame`, `DStarPlan`, `DStarSealed`, `DStarLanes`,
  `DStarRun`, `DStarShipped`.
* **The packed three-colour screen** (`include/zx81lowgfx.h`): clearing, plotting, reading back and
  the sprite walker. `LowGfxScreen`, `LowGfxCharacters`, `LowGfxRoutines`, `LowGfxSprite`.

Code that changes boards, globals or display bytes in place is a method over an `array` or a class with
the source's globals as fields. Each is proved equal to a specification function, and what the
program is for is proved about that function. `dafny verify dfyconfig.toml` checks everything.

## How the main results fit together

* *Othello.* `After` is the simple definition of a move: every run flanked on the board before it,
  flipped at once. `PutMov`, which tests and flips eight rays one after another on the board it is
  changing, computes it; `FlippedIsCaptured` ties it to the rules' notion `Flanks`. `NoTakeIsExact`
  says what the retake test decides, in the same notion. `ScoreIsFlips` gives the score of a move as the
  pieces flipped and nine more for each on the rim, and `RatingMap` and `ThreatOfReplies` the rating as
  a map of the board and a sum over the opponent's legal replies by kind. `LegalGame` states the rules of a whole game
  (sides alternate, Black first, a side passes only when it must) and `Match.Game` plays by them: at
  most 60 placements, and it returns 'D' only when the board is full or neither side can move. `Account`
  relates the run to its inputs: a log gives, for every input read, the ply count at which it was read and
  whether it was played; a played input is the ply made there, an unplayed one was a display command or no
  legal square, and every placement of the human is the play of one input, in order. So sixty inputs that
  are each 'G' or a square legal when read always see the game to its end. The loop carries a real
  measure: in every completed round the number of empty squares falls, or the game ends, or an input is
  read that is answered without a ply. The guard `n > 64` never ends a game: where it is the only reason
  left, the same postcondition holds of the result.
* *Wall.* `Route` is the ball's motion without jumps; `ChainIsRoute` shows that the `goto` chain
  computes it, with `Rank` as its termination measure. `Sound` holds between any two moves:
  the ball does not rest on a brick, nothing lies below it in states 180 and 200, bricks are whole,
  and score plus remaining worth is 574. `WallMotion` says where a call takes the ball, cell by cell and
  state by state: free flight, side walls, ceiling, paddle, corners and bricks.
* *DStar.* `Tidy` (one ball and one box at their offsets, the walls as loaded, no new bubble) is kept by
  every slide that fits on the board, and `MovePiece` computes such a slide. `StaysOn` says that the pieces
  of a level start at positions from which no slide ever leaves the board. Two tests establish it: a
  region that walls seal (`ClosedIsSealed`; then `Sound` holds on all runs, `RunIsSound`), and lanes along
  which the ball rolls from wall to wall while the box cannot move (`LanedStaysOn`). `ShippedStaysOn` puts
  all 25 levels of the source through these tests, all but the second through the first, so the shipped
  game never leaves the board, whatever keys are pressed (`PlayShipped`). Over the keys that `main` reads
  in a level, bubbles left and bubbles taken add up to those loaded (`LevelAccount`), and a shipped level
  is left by the scan exactly when all of them have been taken (`ShippedAccount`).
* *Screen.* `Pixel` reads the packed screen as a grid. Plotting is assignment on that grid
  (`PlotIsAssignment`), so any drawing shows the last colour written (`DrawnShowsLast`), and a sprite
  changes exactly the pixels under its set bits (`CPutSprite`). `LowGfxCharacters` describes the block
  characters themselves, and `PixelIsShown` and `PlotShows` tie the grid and the bytes to what they show.

## Where the code differs from its own words

* `examples/dstar.c:374-376` speaks of the 144 squares of a level; the loop of `CheckNotFinished` looks at
  cells 0 to 142 only. `ScanExactIff` says on which levels the scan is exact in all sound states: those
  where cell 143 holds no bubble, or some other bubble lies outside the region that seals the level. In a
  run, no move takes a bubble from cell 143 (`LastBubbleStays`), so an advance made by the scan is right
  if and only if the level has no bubble there (`CheckNotFinished`). `ScanMissesLastCell` gives a level
  table on which the program advances wrongly. No shipped level has a bubble in cell 143
  (`ShippedLastCell`), so the shipped game advances exactly when no bubble is left
  (`ShippedScanIsExact`).
* `examples/wall.c:366` (`n--` at the ceiling in state 120) is dead: the case has just left for
  state 140 when `n > 30`. `Wall.OneJump` asserts this.
* `include/zx81lowgfx.h:31` declares `cputsprite(x, y, color, sprite)`; line 323 defines
  `(color, x, y, sprite)`. The definition is followed.
* `include/zx81lowgfx.h:87` says that it stores the line-end marker. It stores to the first byte of the next
  line, which the next round overwrites, and in the last round to the byte behind the display.
  `CClg` states this.
* `examples/dstar.h:13` explains `PieceIsBall` as 1 for the box; the field is called `pieceIsBox` here.

## Model

| member | source | states |
|---|---|---|
| OthelloRays.RunLenIsFlanked | examples/othello.c:425-438 | the scan's run length is L > 0 exactly when the L neighbours in that direction are flanked |
| OthelloRays.RayScorePositive | examples/othello.c:425-438 | a ray scores above 0 exactly when it captures, and at most 60 |
| OthelloRays.ChkMv1 | examples/othello.c:425-438 | the ray scan returns 1 for each piece of the flanked run and 9 more for each on the rim, and 0 when none is flanked |
| OthelloRays.RayScoreOfRun | examples/othello.c:425-438 | a flanked run of L pieces scores L, and 9 more for each step of it on the rim; without one the score is 0 |
| OthelloRays.ChkMov | examples/othello.c:440-447 | the score of a square sums its eight rays and is 0 on an occupied square |
| OthelloRays.LegalIffScored | examples/othello.c:440-447 | the score is positive exactly when the rules allow the move; it never exceeds 480 |
| OthelloRays.ChkMvs | examples/othello.c:450-457 | the total over the board is positive exactly when some move is legal, and fits a 16-bit int |
| OthelloRays.ScoreSumZero | examples/othello.c:450-457 | the running total is 0 exactly when no square so far is a legal move |
| OthelloRays.CntBrd | examples/othello.c:466-473 | counts the squares holding a given code |
| OthelloRays.ClrBrd | examples/othello.c:476-484 | sets up the opening position, Black on the diagonal from the top left, White on the other |
| OthelloRays.OpeningMoves | examples/othello.c:476-484 | at the opening Black has exactly the moves (2,4), (3,5), (4,2) and (5,3) |
| OthelloFlips.PutMv1 | examples/othello.c:711-717 | paints one ray up to its first square that is empty, own or off the board, and nothing else |
| OthelloFlips.PutMov | examples/othello.c:720-728 | eight sequential tests and flips give the board with every run flanked at the start flipped at once |
| OthelloFlips.LaterRayUnchanged | examples/othello.c:720-728 | flips on earlier rays never change what the scan sees on a later ray |
| OthelloFlips.OneMoreRay | examples/othello.c:724-727 | one round of the double loop carries out exactly one more direction of the move |
| OthelloFlips.FlippedIsCaptured | examples/othello.c:720-728 | a square is flipped exactly when some direction flanks a run that contains it |
| OthelloFlips.RayOf | examples/othello.c:711-728 | a square determines its ray and step, so the eight rays are disjoint and miss the origin |
| OthelloCounts.FlipCount | examples/othello.c:720-728 | the number of pieces flipped is the sum of the eight run lengths |
| OthelloCounts.ScoreBoundsFlips | examples/othello.c:440-447 | with F pieces flipped, F <= score <= 10 F, and F >= 1 exactly for a legal move |
| OthelloCounts.ScoreIsFlips | examples/othello.c:425-447 | the score of a move is the number of pieces it flips, and 9 more for each of them on the rim |
| OthelloCounts.HeavyScore | examples/othello.c:791 | a legal move scores 10 or more exactly if it flips a piece on the rim, or at least ten pieces |
| OthelloCounts.MoveCounts | examples/othello.c:711-728 | conservation: mover up by F+1, opponent down by F, empty squares down by 1 |
| OthelloCounts.CountsAddUp | examples/othello.c:466-473 | the three counts of a three-colour board add up to 64 |
| OthelloRetake.NoTak2 | examples/othello.c:732-745 | what the look along one ray returns, with its passage over squares holding 0 |
| OthelloRetake.LookResult | examples/othello.c:732-745 | the look passes first zeros, then the mover's pieces, and returns what stands behind; the opponent if zeros lead to the border or an empty square, the mover at the border |
| OthelloRetake.NoTak1 | examples/othello.c:747-753 | true unless one end of the line is the opponent and the other empty |
| OthelloRetake.NoTake | examples/othello.c:756-762 | the four lines together |
| OthelloRetake.NoZeros | examples/othello.c:735-740 | on a three-colour board the first loop never runs |
| OthelloRetake.BeyondSees | examples/othello.c:741-744 | the look returns c exactly when c is the first square beyond the mover's pieces |
| OthelloRetake.TakenIsRetaken | examples/othello.c:747-753 | an opponent at one end and an empty square at the other make a flanking move through the new piece |
| OthelloRetake.RetakenIsTaken | examples/othello.c:747-753 | every flanking move through the new piece shows up as such a pair of ends |
| OthelloRetake.NoTakeIsExact | examples/othello.c:732-762 | the test is true exactly when, with only the new piece placed, no empty square lets the opponent flank a run through it |
| OthelloEval.SMove | examples/othello.c:765-801 | the evaluator returns the rating that `RatingMap` describes, in -35..5, and leaves the caller's board alone |
| OthelloEval.Eval | examples/othello.c:765-801 | the rating lies in -35..5, and a corner never rates below -24 |
| OthelloEval.WeighReplies | examples/othello.c:770-793 | the move is played on a copy and the penalties of all replies summed, cut off at the floor given by the kinds of reply |
| OthelloEval.Replies | examples/othello.c:779-792 | the double loop sums the penalties and finds which kinds of reply exist |
| OthelloEval.CountedMeaning | examples/othello.c:781-788 | a reply counts exactly when it is legal and is a corner or could not be flipped back at once |
| OthelloRating.PenaltyByKind | examples/othello.c:779-792 | a reply costs 10 in a corner, 3 safe on the rim, 1 safe inside, and 4 more if it takes a rim piece or ten pieces |
| OthelloRating.ThreatOfReplies | examples/othello.c:778-793 | the threat is the cost of all counted replies, cut off at 1 if any counts, plus 4 for a legal one on the rim, 8 for one that takes much, 16 for a corner |
| OthelloRating.RatingMap | examples/othello.c:765-801 | beside the threat a move rates 5 in a corner, 4 or -6 on the rim as it is safe or retakable, -1 or -2 next to the rim, 0 to 2 inside |
| OthelloRating.RatingWithoutReply | examples/othello.c:765-801 | where the opponent has no legal reply the rating is this map alone |
| OthelloEval.FillMt | examples/othello.c:804-816 | the first k of the 64 entries list the moves row by row; entries after k are untouched |
| OthelloEval.MoveListExact | examples/othello.c:804-816 | the table holds exactly the legal moves with score and rating, once each |
| OthelloEval.MoveListOrdered | examples/othello.c:804-816 | the table lists the moves row by row, from left to right |
| OthelloEval.TableEmptyIff | examples/othello.c:846-847 | the table is empty exactly when no move is legal |
| OthelloEval.Analyze | examples/othello.c:818-828 | every legal move shows a letter, 'A' for rating 5 and one later for each point below, up to 'Z'; other squares show the board, which is unchanged |
| OthelloChoice.CmpMovIsPreorder | examples/othello.c:831-838 | the comparator is a total preorder: by rating, then by score, both descending |
| OthelloChoice.QSort | examples/othello.c:848 | the library's promise: a sorted permutation of the first k entries, ties in any order |
| OthelloChoice.TiesAreBest | examples/othello.c:848-852 | the entries tying with the first of any such ordering are exactly the best moves, once each |
| OthelloChoice.BestMeans | examples/othello.c:831-838 | a best move is a legal one that no other beats in rating, or in score at equal rating |
| OthelloChoice.MyMov | examples/othello.c:841-856 | 0 exactly when no move is legal; else a legal move maximal in (rating, score), drawn cyclically from all of them by rand |
| OthelloGame.LegalGameKeeps | examples/othello.c:860-940 | in any legal game the board has three colours and empty squares plus placements make 60 |
| OthelloGame.BlackCanOpen | examples/othello.c:881 | Black can move at the opening, so the jump to Istart always leads to a move |
| OthelloGame.Match.HumanMove | examples/othello.c:907-915 | a legal square is played, an illegal one changes nothing |
| OthelloGame.Match.HumanTurn | examples/othello.c:882-923 | the human forfeits exactly when he cannot move; otherwise one input is read, which is played as asked or, if a display command or an illegal square, changes nothing |
| OthelloGame.Match.HumanHalf | examples/othello.c:882-923 | every input read enters the log, played or not, and the log still accounts for the plies |
| OthelloGame.Match.MachineTurn | examples/othello.c:924-935 | the machine passes exactly when it cannot move, else plays a best move |
| OthelloGame.Match.Rounds | examples/othello.c:879-939 | the turn loop ends, by the measure of empty squares and unread inputs; it returns 'D' only at the end of the game, and the log accounts for every input read |
| OthelloGame.AccountRead | examples/othello.c:887-915 | reading one more input, with or without its ply, keeps the account of inputs and placements |
| OthelloGame.LegalInputsPlayed | examples/othello.c:907-915 | inputs that are 'G' or legal when read are all played, none ignored |
| OthelloGame.Match.Game | examples/othello.c:860-940 | every run is a legal game, Black first; each input read was played, in order, or was a display command or no legal square; the machine's placements are best moves; at most 60 placements; 'D' only when the board is full or neither side can move; sixty inputs that are each 'G' or legal when read reach 'D' |
| OthelloGame.Match.PlayOne | examples/othello.c:1014-1026 | one game from a cleared board, the change of who goes first, and the margin |
| WallBricks.BuildWall | examples/wall.c:609-673 | the builder covers rows 4 to 8 with halves, left where row plus column is even |
| WallBricks.RowAnchorCount | examples/wall.c:609-673 | the number of bricks that lie in the first k columns of a row of the wall |
| WallBricks.FullWallWorth | examples/wall.c:609-673 | a new wall consists of whole bricks worth 574 points |
| WallBricks.BlankedIsPartner | examples/wall.c:234-302 | the parity of the distance of row and column finds exactly the partner the builder gave the hit half |
| WallBricks.DestroyOne | examples/wall.c:232-302 | a hit removes one whole brick and nothing else, keeps the rest whole, and scores 13 minus its row |
| WallBricks.WorthZero | examples/wall.c:718-719 | a wall is worth 0 exactly when it is gone, and else at least 5 |
| WallBall.JumpDescends | examples/wall.c:322-472 | every jump lowers the measure and keeps row, flags and state in their ranges |
| WallBall.ChainIsRoute | examples/wall.c:322-472 | from every state in the field the program passes at most five times from label to label, and leaves in the closed form of the motion |
| WallBall.OneStep | examples/wall.c:322-472 | a call moves the ball exactly one row and at most one column, inside the walls |
| WallGame.Landing | examples/wall.c:343-470 | the end of each case keeps the ball off the bricks and the wall whole and fully scored |
| WallGame.VerticalFree | examples/wall.c:433-470 | a ball leaving in a vertical state has no brick between it and the paddle |
| WallGame.MoveKeepsSound | examples/wall.c:322-472 | no tunnelling, whole bricks and score conservation survive every move |
| WallGame.ReachedIsSound | examples/wall.c:711-777 | they hold in every state reachable by any moves and paddle positions, and t >= 573 exactly when no brick is left |
| WallGame.ClearedFacts | examples/wall.c:718-719 | the test t >= 573 fires exactly with the last brick; before that t is at most 569 |
| WallGame.ServeSound | examples/wall.c:678-695 | a served ball starts in a sound state |
| WallGame.Wall.DestroyBrick | examples/wall.c:232-302 | the new score and the cells blanked |
| WallGame.Wall.OneJump | examples/wall.c:322-472 | what the code at one label does to the fields and where it goes next |
| WallGame.Wall.Jumps | examples/wall.c:322-472 | the jumping code leaves the fields in the closed form of the motion |
| WallGame.Wall.EndOfCase | examples/wall.c:343-470 | one row and at most one column in the direction of the state, a look for a brick except in state 200, and the rebound |
| WallGame.Wall.MoveBall | examples/wall.c:322-472 | ball, wall and score after one call, which the next rows describe |
| WallMotion.FreeFlight | examples/wall.c:343-470 | away from paddle, ceiling and walls the six states move the ball (+1,+1), (-1,+1), (-1,-1), (+1,-1), (-1,0) and (+1,0) |
| WallMotion.StraightFlight | examples/wall.c:343-470 | in free field k calls move it k times as far |
| WallMotion.SideWalls | examples/wall.c:337-410 | a side wall turns the column and keeps the row direction |
| WallMotion.CeilingTurns | examples/wall.c:361-433 | the ceiling turns the row direction, sets w for a diagonal, and what happens in the top corners |
| WallMotion.PaddleTurns | examples/wall.c:324-467 | which cells of the paddle send a falling ball left, straight up or right, and which miss it |
| WallMotion.PaddleInRightCorner | examples/wall.c:324-467 | the same in the right bottom corner |
| WallMotion.PaddleInLeftCorner | examples/wall.c:324-467 | the same in the left bottom corner |
| WallMotion.BrickTurns | examples/wall.c:343-448 | where a brick stands the ball takes it and turns: a falling diagonal unless p is set and w is not, a rising one in its row, or with w in its column, a straight one down |
| WallGame.Wall.MovePaddle | examples/wall.c:496-522 | slow keys move one column and fast keys two, left keys down to 0 and right keys up to 29 |
| WallGame.Wall.Round | examples/wall.c:716-775 | one round of the ball loop is one move and, unless the wall is gone, one key; the state stays sound |
| WallGame.Wall.Serve | examples/wall.c:678-695 | a new ball starts in row 10, column 8 to 22, falling, with the paddle in the middle, in a sound state |
| WallGame.Wall.PlayBall | examples/wall.c:678-777 | a ball ends lost below row 20, with the wall gone, or with the inputs used up, in the state that serve and inputs determine |
| WallGame.Wall.NewLevel | examples/wall.c:590-673 | a new level raises the level number, sets score, flags and paddle, and stands before a full wall |
| WallGame.Wall.PlayLevel | examples/wall.c:590-790 | every ball but the last is lost, at most seven are played, and all seven when the level is lost; it is cleared exactly when all 574 points are scored, otherwise the score is at most 569 |
| WallGame.Wall.PlayGame | examples/wall.c:574-790 | every level but the last is cleared; the score is 1000 for each of them plus 574 minus the worth of the bricks still standing |
| DStarLevel.UnpackPacked | examples/dstar.c:321-329 | decoding inverts packing four cells per signed char, high bits first |
| DStarLevel.PackUnpacked | examples/dstar.c:321-329 | packing inverts decoding |
| DStarLevel.FourCells | examples/dstar.c:324-327 | arithmetic shifts of a signed char, masked, give the four cells, sign bit or not |
| DStarSlide.SlideLen | examples/dstar.c:418-422 | the slide covers free cells only and ends before a stopper |
| DStarSlide.SlideKeepsTidy | examples/dstar.c:409-469 | a slide that fits keeps exactly one ball and one box, each at its offset, and the walls |
| DStarSlide.SlideInRegion | examples/dstar.c:418-467 | on a sealed board the piece stays in the region, offsets stay in 16..127 and the slide fits: every cell looked at is on the board |
| DStarSlide.SealedKeeps | examples/dstar.c:409-469 | the positions in a sealed region are ones that no slide leaves, whatever bubbles are gone |
| DStarSlide.SlideKeepsSound | examples/dstar.c:409-469 | a move on a sealed board stays tidy and sealed, and changes nothing outside the region |
| DStarSlide.BubblesTaken | examples/dstar.c:432-449 | on any tidy board the ball takes exactly the bubbles it enters, the box none |
| DStarSlide.NextIsSound | examples/dstar.c:409-469 | one key press keeps the state sound and takes exactly the bubbles crossed |
| DStarSlide.RunIsSound | examples/dstar.c:409-469 | on every run of slides on a sealed level all states are sound, and bubbles left plus bubbles taken is constant |
| DStarGame.FreshIsTidy | examples/dstar.c:306-333 | a well-made level is tidy as loaded |
| DStarGame.ScanIsExact | examples/dstar.c:380-394 | in every tidy state of a level without a bubble in cell 143, cells 0 to 142 hold no bubble exactly when none is left |
| DStarGame.ScanExactIff | examples/dstar.c:380-394 | the scan is exact in all sound states of a sealed level, reached or not, if and only if cell 143 holds no bubble or another bubble lies outside the region |
| DStarGame.LastBubbleStays | examples/dstar.c:409-469 | in every tidy state cell 143 holds a bubble exactly if it was loaded with one |
| DStarGame.SealedStaysOn | examples/dstar.c:409-469 | a level that starts sealed keeps its pieces on the board |
| DStarGame.SlideRound | examples/dstar.c:418-467 | one round of the loop stops exactly at the end of the slide, or carries the piece one cell on without wrapping its offset |
| DStarGame.DStar.Decompress | examples/dstar.c:322-329 | the loop writes the unpacked cells |
| DStarGame.DStar.SetupLevel | examples/dstar.c:306-333 | the board is the level's cells with ball and box placed, and the ball is in hand |
| DStarGame.DStar.Slide | examples/dstar.c:418-468 | the loop leaves the piece on the last cell before the first stopper and clears exactly the path |
| DStarGame.DStar.MovePiece | examples/dstar.c:409-469 | from any tidy state a slide that fits: the piece on the last free cell, exactly the crossed bubbles gone, the other piece in place, and the state tidy, sound where it was sealed |
| DStarGame.DStar.Gamekeys | examples/dstar.c:227-295 | Down, Up, Right and Left carry the piece in steps of 16, -16, 1 and -1 cells to the last free one, '+' and '-' change the level within 0 to 24, and what the other keys do, as long as an arrow key's slide fits |
| DStarGame.SlideIsCarried | examples/dstar.c:418-467 | all cells on the way are empty, or bubbles for the ball, and the next one is not |
| DStarGame.DStar.NothingLeft | examples/dstar.c:385-389 | the loop finds a bubble exactly when cells 0 to 142 hold one |
| DStarGame.DStar.CheckNotFinished | examples/dstar.c:380-394 | advances exactly when no bubble is found; an advance is right, with no bubble left, if and only if the level has none in cell 143; reports the end exactly after level 25 |
| DStarGame.DStar.Play | examples/dstar.c:216-255 | for any level table and keys the state is the one the keys determine, until the game is finished or left or a key would take a piece off the board, which never happens on a level that stays on |
| DStarRun.KeyAccount | examples/dstar.c:227-295 | a key that loads no level keeps the state tidy and the level, and takes exactly the bubbles its slide enters |
| DStarRun.BubbleAccount | examples/dstar.c:216-295 | over any keys that the program reads within one level, switch key included, bubbles left plus bubbles taken is constant |
| DStarRun.ClearedIffAllTaken | examples/dstar.c:216-295 | a level without a bubble in cell 143 is left by the scan exactly when all its bubbles have been taken |
| DStarRun.LevelAccount | examples/dstar.c:216-295 | the same counted from the level as loaded, for every level whose pieces stay on the board |
| DStarPlan.TableHolds | examples/dstar.c:321-329 | decompressing a level of a table written in rows of four bytes yields the cells of its rows |
| DStarSealed.CellsApart | examples/dstar.c:418-467 | neighbouring cells on different sides of the mask include a wall |
| DStarSealed.ClosedIsSealed | examples/dstar.h:672-948 | a level whose pieces are walled off from the masked cells, the top and bottom rows among them, starts sealed |
| DStarSealed.FaultyIsSealed | examples/dstar.c:380-394 | the levels of the failing table are well made and start sealed |
| DStarSealed.ScanMissesLastCell | examples/dstar.c:380-394 | on that table the program leaves the first level before any key, with its only bubble still there |
| DStarLanes.BallStopsAtWall | examples/dstar.c:418-467 | where the lanes go on from wall to wall and the box is shut in, every slide of the ball fits and ends where it may rest |
| DStarLanes.LanesKeep | examples/dstar.c:409-469 | the positions with the ball at rest in its lanes are ones that no slide leaves |
| DStarLanes.LanedStaysOn | examples/dstar.h:683-693 | a level with such lanes and a shut-in box keeps its pieces on the board |
| DStarShipped.ShippedSealed | examples/dstar.h:672-948 | every shipped level but the second starts sealed |
| DStarShipped.Level2IsNotSealed | examples/dstar.h:683-693 | no region that single steps cannot leave seals the second shipped level |
| DStarShipped.ShippedStaysOn | examples/dstar.h:672-948 | on every one of the 25 shipped levels no slide ever leaves the board |
| DStarShipped.ThereIsATable | examples/dstar.h:672-948 | there is a table of 950 signed chars that holds all 25 levels |
| DStarShipped.ShippedLastCell | examples/dstar.h:672-948 | no shipped level has a bubble in cell 143 |
| DStarShipped.ShippedScanIsExact | examples/dstar.c:380-394 | on the shipped levels the scan finds no bubble exactly when none is left |
| DStarShipped.ShippedAccount | examples/dstar.c:216-295 | on every shipped level, whatever keys are pressed, bubbles left and taken add up to those loaded, and the level is left by the scan exactly when all have been taken |
| DStarShipped.PlayShipped | examples/dstar.c:216-255 | with the shipped levels, any keys are followed to the end of the game, the exit key or the end of the keys; no key takes a piece off the board |
| LowGfxScreen.DecodeInverts | include/zx81lowgfx.h:155-158 | the table holds one of nine codes for each pair of colours, and the backward search finds the pair again |
| LowGfxScreen.DecodedIsPair | include/zx81lowgfx.h:190-200 | every byte but the filler decodes to a pair of colours |
| LowGfxScreen.PlotIsAssignment | include/zx81lowgfx.h:116-153 | a plot sets its pixel and leaves every other pixel as it was, if the cell does not hold the filler |
| LowGfxScreen.PlotAssignsIff | include/zx81lowgfx.h:116-153 | a plot is an assignment to the grid unless, and only unless, it writes another colour than 1 to the lower half of a cell with the filler |
| LowGfxScreen.PlotOnFiller | include/zx81lowgfx.h:116-153 | what a plot makes of a cell with the filler, the fetch from behind the table included |
| LowGfxScreen.PlotKeepsCodes | include/zx81lowgfx.h:116-153 | cells keep holding one of the nine codes |
| LowGfxScreen.ClearedShows | include/zx81lowgfx.h:42-91 | a cleared screen shows the colour modulo 3 everywhere |
| LowGfxScreen.DrawnShowsLast | include/zx81lowgfx.h:42-251 | after clearing and any plots each pixel shows the last colour written there modulo 3 |
| LowGfxCharacters.CodeFaces | include/zx81lowgfx.h:155-162 | each of the nine codes shows, in the character set, the pair of shades that it decodes to |
| LowGfxCharacters.PixelIsShown | include/zx81lowgfx.h:212-251 | the colour of a pixel is the shade of its half of the character on the screen |
| LowGfxCharacters.PlotShows | include/zx81lowgfx.h:116-153 | a plot changes one character, whose half then shows the colour, while the other keeps its shade, or turns black over a text character |
| LowGfxCharacters.ClearedLooks | include/zx81lowgfx.h:42-91 | after clearing each of the 24 lines of 32 characters shows the colour in both halves |
| LowGfxRoutines.Mod3 | include/zx81lowgfx.h:51-54 | repeated subtraction leaves the byte modulo 3 |
| LowGfxRoutines.CClg | include/zx81lowgfx.h:42-91 | fills the 24 lines of 32 characters, keeps the line ends, and overwrites the byte behind the display |
| LowGfxRoutines.CAddr | include/zx81lowgfx.h:166-205 | address 33 times the text line plus the column, decoded pair and row parity of a pixel |
| LowGfxRoutines.CPlotPixel | include/zx81lowgfx.h:116-153 | rewrites one half of one character, which then shows the colour there and what it showed before in the other half; nothing out of range |
| LowGfxRoutines.CPlot | include/zx81lowgfx.h:95-153 | the same for the low bytes of the arguments and the colour modulo 3 |
| LowGfxRoutines.CPoint | include/zx81lowgfx.h:212-251 | the colour of a pixel in range; out of range the two low bytes in HL |
| LowGfxRoutines.Draw | include/zx81lowgfx.h:42-153 | clearing and plotting leave the bytes of the drawing |
| LowGfxRoutines.DrawAndLook | include/zx81lowgfx.h:42-251 | clear, plot and look: the last colour plotted comes back |
| LowGfxSprite.CarryIsBit | include/zx81lowgfx.h:365-366 | after k shifts the carry is bit k from the left |
| LowGfxSprite.PixelInBytes | include/zx81lowgfx.h:341-421 | where the bit of a sprite's pixel lies: width and height first, then each row in width/8 bytes, rounded up, leftmost column highest |
| LowGfxSprite.WalkStep | include/zx81lowgfx.h:365-389 | one column adds exactly its own pixel to those done |
| LowGfxSprite.PutRow | include/zx81lowgfx.h:357-421 | one row plots exactly its set bits and moves past width/8 bytes, rounded up |
| LowGfxSprite.WalkDraws | include/zx81lowgfx.h:323-429 | plotting bit by bit changes exactly the pixels in range under a set bit, on screens without the filler |
| LowGfxSprite.Rows | include/zx81lowgfx.h:350-429 | the loop over the rows, with its counters modulo 256, is the walk over the whole sprite |
| LowGfxSprite.CPutSprite | include/zx81lowgfx.h:323-429 | the bytes are those of plotting the set bits one by one, on any screen; without fillers exactly the pixels in range under a set bit change, to the colour modulo 3, for every width and height |

## Left out

- Drawing, sound, keyboard, joystick, paddle hardware and delays of all four programs are not part of the model; inputs and `rand()` values are parameters.
- OthelloChoice.QSort: the library's code is not part of the model; only the promise of section 7.22.5.2 of ISO/IEC 9899:2011 is used, and the body merely shows that it can be kept.
- OthelloGame.Match.Game: console parsing is not modelled; an input is what `getmov` returns, and runs with the inputs 'F' and 'H' are not covered.
- OthelloGame.Match.HumanTurn: the voluntary forfeit 'F' and the handicap command 'H' of its switch are not among the inputs.
- OthelloGame.Match.HumanHalf: the same.
- OthelloGame.Match.Rounds: runs with the inputs 'F' and 'H' are not covered.
- OthelloEval.Replies: the flag word `oside` is four booleans instead of bits 1, 4, 8 and 16 of an int.
- The piece codes are those of the default build; builds whose codes exceed 127 are not modelled.
- WallGame.Wall.HitBrick: the pixel reads are a lookup in the map of brick halves, so a paddle or a score digit drawn near the ball is never taken for a brick.
- WallGame.Wall.PlayGame: the variables that only erase and redraw the ball, and the shrinking delay, are not modelled.
- DStarGame.DStar.MovePiece: a slide that would leave offsets 0 to 127 or look outside `Board` is not modelled; the C code then indexes outside its array.
- DStarGame.DStar.Play: a run stops before such a slide; on the shipped levels there is none.
- LowGfxSprite.CPutSprite: the byte behind the sprite, which the walker loads once and never uses, reads as 0.
- LowGfxSprite.CPutSprite: on a screen with the filler byte 255 the bytes are stated, not the picture.
- Buffered mode and `cdraw`/`cdrawr`, which call a line routine that is not part of this model.
- `examples/ace/dstar.c` and `examples/c128/dstar.c` repeat `examples/dstar.c` with other display code; `include/zxlowgfx.h` is an easier sibling of the screen; the other headers only declare.
