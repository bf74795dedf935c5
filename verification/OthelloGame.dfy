/** The turn loop of examples/othello.c (game, and main's loop body) against the rules of Othello:
    a game is a list of plies by alternating sides, Black first, in which a side passes only when
    it has no legal move. */
module OthelloGame {
  import opened OthelloRays
  import opened OthelloFlips
  import opened OthelloCounts
  import opened OthelloEval
  import opened OthelloChoice

  // ----- the rules

  datatype Ply = Place(side: int, x: int, y: int) | Pass(side: int)

  function SideAt(k: nat): int { if k % 2 == 0 then BLACK else WHITE }

  function Played(b: Board, ply: Ply): Board {
    if ply.Place? && OnBoard(ply.x, ply.y) then After(b, ply.side, ply.x, ply.y) else b
  }

  function BoardAt(plies: seq<Ply>): Board {
    if plies == [] then Opening() else Played(BoardAt(plies[..|plies| - 1]), plies[|plies| - 1])
  }

  ghost predicate LegalPly(b: Board, ply: Ply, side: int) {
    && ply.side == side
    && match ply
       case Place(_, x, y) => Legal(b, side, x, y)
       case Pass(_) => !CanMove(b, side)
  }

  ghost predicate LegalGame(plies: seq<Ply>) {
    plies == [] ||
    var before := plies[..|plies| - 1];
    LegalGame(before) && LegalPly(BoardAt(before), plies[|plies| - 1], SideAt(|plies| - 1))
  }

  function Placements(plies: seq<Ply>, sides: set<int>): nat {
    if plies == [] then 0
    else var last := plies[|plies| - 1];
         Placements(plies[..|plies| - 1], sides) + (if last.Place? && last.side in sides then 1 else 0)
  }

  /** The rules' end of the game. */
  ghost predicate Over(b: Board) {
    Count(b, EMPTY) == 0 || (!CanMove(b, BLACK) && !CanMove(b, WHITE))
  }

  /** Every placement of side p was a best move, by the machine's rating, where it was played. */
  ghost predicate PlaysBest(plies: seq<Ply>, p: int) {
    forall k :: 0 <= k < |plies| && plies[k].Place? && plies[k].side == p ==>
      Best(BoardAt(plies[..k]), p, Opponent(p), EMPTY, plies[k].x, plies[k].y)
  }

  const SIDES := {BLACK, WHITE}

  /** What any legal game keeps: three colours, and every placement uses up one of the 60 squares. */
  lemma {:induction false} LegalGameKeeps(plies: seq<Ply>)
    requires LegalGame(plies)
    ensures ThreeColour(BoardAt(plies))
    ensures Count(BoardAt(plies), EMPTY) + Placements(plies, SIDES) == 60
    ensures Placements(plies, {BLACK}) + Placements(plies, {WHITE}) == Placements(plies, SIDES)
  {
    if plies == [] {
      OpeningCount();
    } else {
      hide Legal, CanMove, After;
      var before, last := plies[..|plies| - 1], plies[|plies| - 1];
      LegalGameKeeps(before);
      if last.Place? {
        LegalSquareEmpty(BoardAt(before), last.side, last.x, last.y);
        MoveCounts(BoardAt(before), last.side, last.x, last.y);
      }
    }
  }

  lemma OpeningCount()
    ensures ThreeColour(Opening()) && Count(Opening(), EMPTY) == 60
  {
    var b := Opening();
    CountsAddUp(b);
    assert Squares(b, BLACK) == {27, 36};
    assert Squares(b, WHITE) == {28, 35};
  }

  /** Black can move at the opening, for one on the square right of the pieces in the fourth row. */
  lemma BlackCanOpen()
    ensures CanMove(Opening(), BLACK)
  {
    hide Legal;
    OpeningMoves(3, 5);
  }

  lemma OneMorePly(plies: seq<Ply>, ply: Ply)
    requires LegalGame(plies) && LegalPly(BoardAt(plies), ply, SideAt(|plies|))
    ensures LegalGame(plies + [ply])
    ensures BoardAt(plies + [ply]) == Played(BoardAt(plies), ply)
    ensures forall s :: Placements(plies + [ply], s) ==
                        Placements(plies, s) + if ply.Place? && ply.side in s then 1 else 0
  {
    assert (plies + [ply])[..|plies|] == plies;
  }

  lemma PlaysBestGrows(plies: seq<Ply>, ply: Ply, p: int)
    requires PlaysBest(plies, p)
    requires ply.Place? && ply.side == p ==> Best(BoardAt(plies), p, Opponent(p), EMPTY, ply.x, ply.y)
    ensures PlaysBest(plies + [ply], p)
  {
    forall k | 0 <= k <= |plies|
      ensures (plies + [ply])[..k] == plies[..k]
    {
    }
    assert plies[..|plies|] == plies;
  }

  // ----- the program

  /** What getmov can return here: a square, 'G', 'B', 'S', 'A' or 'Q'. */
  datatype Input = Move(x: int, y: int) | Auto | ShowBoard | ShowScore | Analysis | Quit

  datatype Outcome = Done | Left | Waiting

  /** The ply is what the input asks for: the named square, or for 'G' a best move. */
  ghost predicate Answers(b: Board, input: Input, ply: Ply) {
    match input
    case Move(x, y) => ply.Place? && ply.x == x && ply.y == y
    case Auto => ply.Place? && IsSide(ply.side) && Best(b, ply.side, Opponent(ply.side), EMPTY, ply.x, ply.y)
    case _ => false
  }

  /** An input that is answered without a ply: a display command, or a square that is no legal move. */
  ghost predicate Passed(b: Board, input: Input, p: int) {
    match input
    case Move(x, y) => !Legal(b, p, x, y)
    case Auto | Quit => false
    case _ => true
  }

  /** An input was read when so many plies had been made, and was or was not played. */
  datatype Reading = Reading(at: nat, played: bool)

  /** What was done with an input: it became the ply made there, or it asked for none. */
  ghost predicate ReadingSound(plies: seq<Ply>, input: Input, rd: Reading, p: int) {
    && rd.at <= |plies|
    && if rd.played then
         rd.at < |plies| && plies[rd.at].side == p && Answers(BoardAt(plies[..rd.at]), input, plies[rd.at])
       else Passed(BoardAt(plies[..rd.at]), input, p)
  }

  /** A played input is used up by its ply. */
  predicate Before(rd: Reading, rd': Reading) { rd.at <= rd'.at && (rd.played ==> rd.at < rd'.at) }

  /** The log accounts for the inputs read: each of them, in order, was played or asked for nothing,
      and every placement of side p is the play of one of them. */
  ghost predicate Account(plies: seq<Ply>, inputs: seq<Input>, log: seq<Reading>, p: int) {
    && |log| <= |inputs|
    && (forall i :: 0 <= i < |log| ==> ReadingSound(plies, inputs[i], log[i], p))
    && (forall i, j :: 0 <= i < j < |log| ==> Before(log[i], log[j]))
    && (forall k :: 0 <= k < |plies| && plies[k].Place? && plies[k].side == p ==> Reading(k, true) in log)
  }

  function Unplayed(log: seq<Reading>): nat {
    if log == [] then 0 else Unplayed(log[..|log| - 1]) + (if log[|log| - 1].played then 0 else 1)
  }

  /** Every input read was 'G' or a square that was legal when it was read. */
  ghost predicate LegalWhenRead(plies: seq<Ply>, inputs: seq<Input>, log: seq<Reading>, p: int) {
    forall i :: 0 <= i < |log| && i < |inputs| && log[i].at <= |plies| ==>
      inputs[i].Auto? ||
      (inputs[i].Move? && Legal(BoardAt(plies[..log[i].at]), p, inputs[i].x, inputs[i].y))
  }

  lemma ReadingKept(plies: seq<Ply>, plies': seq<Ply>, input: Input, rd: Reading, p: int)
    requires ReadingSound(plies, input, rd, p) && |plies| <= |plies'| && plies'[..|plies|] == plies
    ensures ReadingSound(plies', input, rd, p)
  {
    assert plies'[..rd.at] == plies[..rd.at];
    assert rd.at < |plies| ==> plies'[rd.at] == plies[rd.at];
  }

  /** A ply that answers no input: a pass, or one of the other side. */
  lemma AccountPly(plies: seq<Ply>, plies': seq<Ply>, inputs: seq<Input>, log: seq<Reading>, p: int)
    requires Account(plies, inputs, log, p)
    requires |plies'| == |plies| + 1 && plies'[..|plies|] == plies
    requires !(plies'[|plies|].Place? && plies'[|plies|].side == p)
    ensures Account(plies', inputs, log, p)
  {
    hide ReadingSound;
    forall i | 0 <= i < |log|
      ensures ReadingSound(plies', inputs[i], log[i], p)
    {
      ReadingKept(plies, plies', inputs[i], log[i], p);
    }
    forall k | 0 <= k < |plies| && plies'[k].Place? && plies'[k].side == p
      ensures Reading(k, true) in log
    {
      assert plies'[k] == plies[k];
    }
  }

  lemma ReadingMade(plies: seq<Ply>, plies': seq<Ply>, input: Input, played: bool, p: int)
    requires ReadResult(plies, plies', input, played, p)
    ensures plies'[..|plies|] == plies && ReadingSound(plies', input, Reading(|plies|, played), p)
  {
    assert plies'[..|plies|] == plies;
  }

  /** What reading an input makes of the plies. */
  ghost predicate ReadResult(plies: seq<Ply>, plies': seq<Ply>, input: Input, played: bool, p: int) {
    if played then
      && |plies'| == |plies| + 1 && plies'[..|plies|] == plies && plies'[|plies|].side == p
      && Answers(BoardAt(plies), input, plies'[|plies|])
    else plies' == plies && Passed(BoardAt(plies), input, p)
  }

  lemma ReadLength(plies: seq<Ply>, plies': seq<Ply>, input: Input, played: bool, p: int)
    requires ReadResult(plies, plies', input, played, p)
    ensures |plies'| == |plies| + (if played then 1 else 0)
  {
  }

  /** One more input read, with or without its ply. */
  lemma AccountRead(plies: seq<Ply>, plies': seq<Ply>, inputs: seq<Input>, log: seq<Reading>, played: bool, p: int)
    requires Account(plies, inputs, log, p) && |log| < |inputs|
    requires ReadResult(plies, plies', inputs[|log|], played, p)
    ensures Account(plies', inputs, log + [Reading(|plies|, played)], p)
  {
    hide ReadingSound, ReadResult;
    var rd := Reading(|plies|, played);
    var log' := log + [rd];
    ReadLength(plies, plies', inputs[|log|], played, p);
    ReadingMade(plies, plies', inputs[|log|], played, p);
    forall i | 0 <= i < |log|
      ensures ReadingSound(plies', inputs[i], log[i], p) && Before(log[i], rd)
    {
      ReadingKept(plies, plies', inputs[i], log[i], p);
      ReadingBound(plies, inputs[i], log[i], p);
    }
    forall k | 0 <= k < |plies'| && plies'[k].Place? && plies'[k].side == p
      ensures Reading(k, true) in log'
    {
      assert k < |plies| ==> plies'[k] == plies'[..|plies|][k];
      assert k >= |plies| ==> log'[|log|] == Reading(k, true);
    }
  }

  lemma ReadingBound(plies: seq<Ply>, input: Input, rd: Reading, p: int)
    requires ReadingSound(plies, input, rd, p)
    ensures rd.at <= |plies| && (rd.played ==> rd.at < |plies|)
  {
  }

  lemma OneMoreReading(log: seq<Reading>, rd: Reading)
    ensures Unplayed(log + [rd]) == Unplayed(log) + if rd.played then 0 else 1
  {
    assert (log + [rd])[..|log|] == log;
  }

  lemma {:induction false} AllPlayed(log: seq<Reading>)
    requires forall i :: 0 <= i < |log| ==> log[i].played
    ensures Unplayed(log) == 0
  {
    if log != [] { AllPlayed(log[..|log| - 1]); }
  }

  /** Inputs that are legal when read are all played. */
  lemma LegalInputsPlayed(plies: seq<Ply>, inputs: seq<Input>, log: seq<Reading>, p: int)
    requires Account(plies, inputs, log, p) && LegalWhenRead(plies, inputs, log, p)
    ensures Unplayed(log) == 0
  {
    hide Legal, BoardAt, Answers;
    forall i | 0 <= i < |log|
      ensures log[i].played
    {
      assert ReadingSound(plies, inputs[i], log[i], p);
    }
    AllPlayed(log);
  }

  /** How the human's half of a round ends: with a ply, by going round the loop again, or for good. */
  datatype Turn = Moved | Forfeit | Again | Stop(outcome: Outcome)

  class Match {
    const b: array<int>
    var mine: int
    var his: int
    var mefirst: bool

    constructor (mefirst: bool)
      ensures b.Length == 64 && fresh(b) && this.mefirst == mefirst
    {
      b := new int[64](_ => EMPTY);
      this.mefirst := mefirst;
      mine := BLACK;
      his := WHITE;
    }

    /** The machine's half of a round. */
    method MachineTurn(n0: nat, rnd: nat, ghost plies0: seq<Ply>)
      returns (n: nat, passed: bool, drawn: nat, ghost plies: seq<Ply>)
      requires b.Length == 64 && IsSide(mine) && his == Opponent(mine)
      requires InPlay(plies0, b[..], mine, his, n0) && SideAt(|plies0|) == mine
      modifies b
      ensures InPlay(plies, b[..], mine, his, n) && SideAt(|plies|) == his
      ensures |plies| == |plies0| + 1 && plies[..|plies0|] == plies0 && plies[|plies0|].side == mine
      ensures passed <==> !CanMove(old(b[..]), mine)
      ensures passed ==> b[..] == old(b[..])
      ensures Count(b[..], EMPTY) == Count(old(b[..]), EMPTY) - (if passed then 0 else 1)
      ensures Placements(plies, {his}) == Placements(plies0, {his}) && Count(b[..], EMPTY) <= 60
    {
      hide CanMove, Legal, Best, Placements, Count, After, ListsBest, ScoreSum, InPlay, Eval, MoveScore;
      n, passed, drawn := n0, false, 0;
      var moves := ChkMvs(b, mine);
      if moves == 0 {
        passed := true;
        PlyTaken(plies0, b[..], mine, his, n, Pass(mine));
        plies := plies0 + [Pass(mine)];
      } else {
        var found, i, j;
        ghost var ties;
        found, i, j, ties := MyMov(b, mine, his, EMPTY, rnd);
        drawn := 1;
        BestFacts(b[..], mine, his, EMPTY, i, j);
        PlyTaken(plies0, b[..], mine, his, n, Place(mine, i, j));
        PutMov(b, mine, i, j);
        plies := plies0 + [Place(mine, i, j)];
        n := n + 1;
      }
    }

    /** The case 'M' of the human's half of a round: an illegal square leaves everything as it is. */
    method HumanMove(i: int, j: int, ghost n: nat, ghost plies0: seq<Ply>)
      returns (placed: bool, ghost plies: seq<Ply>)
      requires b.Length == 64 && IsSide(mine) && his == Opponent(mine) && OnBoard(i, j)
      requires InPlay(plies0, b[..], mine, his, n) && SideAt(|plies0|) == his
      modifies b
      ensures InPlay(plies, b[..], mine, his, n)
      ensures placed <==> Legal(old(b[..]), his, i, j)
      ensures placed ==> plies == plies0 + [Place(his, i, j)] && Count(b[..], EMPTY) == Count(old(b[..]), EMPTY) - 1
                         && Placements(plies, {his}) == Placements(plies0, {his}) + 1 && Count(b[..], EMPTY) < 60
      ensures !placed ==> plies == plies0 && b[..] == old(b[..])
    {
      hide CanMove, Legal, Best, Placements, Count, After, InPlay;
      plies := plies0;
      LegalIffScored(b[..], his, i, j);
      var score := ChkMov(b, his, i, j);
      placed := score > 0;
      if placed {
        InPlayFacts(plies, b[..], mine, his, n);
        PlyTaken(plies, b[..], mine, his, n, Place(his, i, j));
        PutMov(b, his, i, j);
        plies := plies + [Place(his, i, j)];
      }
    }

    /** The human's half of a round, up to the label Istart. */
    method HumanTurn(inputs: seq<Input>, used0: nat, rnd: nat -> nat, calls0: nat, ghost n: nat, ghost plies0: seq<Ply>)
      returns (t: Turn, used: nat, calls: nat, ghost plies: seq<Ply>)
      requires b.Length == 64 && IsSide(mine) && his == Opponent(mine)
      requires forall i :: 0 <= i < |inputs| && inputs[i].Move? ==> OnBoard(inputs[i].x, inputs[i].y)
      requires InPlay(plies0, b[..], mine, his, n) && SideAt(|plies0|) == his && used0 <= |inputs|
      modifies b
      ensures used0 <= used <= |inputs| && used == used0 + (if t == Forfeit || t == Stop(Waiting) then 0 else 1)
      ensures InPlay(plies, b[..], mine, his, n)
      ensures t != Moved ==> b[..] == old(b[..])
      ensures t == Moved || t == Forfeit ==> SideAt(|plies|) == mine
      ensures t.Again? || t.Stop? ==> plies == plies0
      ensures t == Forfeit ==> plies == plies0 + [Pass(his)]
      ensures t == Moved ==> |plies| == |plies0| + 1 && plies[..|plies0|] == plies0 && plies[|plies0|].side == his
                             && Answers(old(b[..]), inputs[used0], plies[|plies0|])
      ensures t == Again ==> Passed(b[..], inputs[used0], his)
      ensures Placements(plies, {his}) == Placements(plies0, {his}) + (if t == Moved then 1 else 0)
      ensures Count(b[..], EMPTY) == Count(old(b[..]), EMPTY) - (if t == Moved then 1 else 0)
      ensures t == Moved ==> Count(b[..], EMPTY) < 60
      ensures t == Forfeit <==> !CanMove(old(b[..]), his)
      ensures t.Stop? ==> t == Stop(Waiting) || t == Stop(Left)
      ensures t == Stop(Waiting) ==> used == |inputs| && Placements(plies, {his}) < 60
      ensures t == Stop(Left) ==> inputs[used0] == Quit
    {
      hide CanMove, Legal, Best, Placements, Count, After, ListsBest, ScoreSum, InPlay, Eval, Letter, BoardAt,
        MoveScore;
      used, calls, plies := used0, calls0, plies0;
      InPlayFacts(plies, b[..], mine, his, n);
      var moves := ChkMvs(b, his);
      if moves == 0 {
        PlyTaken(plies, b[..], mine, his, n, Pass(his));
        plies := plies + [Pass(his)];
        return Forfeit, used, calls, plies;
      }
      MoverHasRoom(plies, b[..], mine, his);
      if used == |inputs| { return Stop(Waiting), used, calls, plies; }
      var input := inputs[used];
      used := used + 1;
      var i, j := 0, 0;
      match input {
        case Quit => return Stop(Left), used, calls, plies;
        case ShowBoard | ShowScore => return Again, used, calls, plies;
        case Analysis =>
          var _ := Analyze(b, his, mine, EMPTY);
          return Again, used, calls, plies;
        case Auto =>
          var found;
          ghost var ties;
          found, i, j, ties := MyMov(b, his, mine, EMPTY, rnd(calls));
          calls := calls + 1;
          BestFacts(b[..], his, mine, EMPTY, i, j);
        case Move(x, y) => i, j := x, y;
      }
      var placed;
      placed, plies := HumanMove(i, j, n, plies);
      t := if placed then Moved else Again;
    }

    /** The human's half of a round with its entry in the log. */
    method HumanHalf(inputs: seq<Input>, used0: nat, rnd: nat -> nat, calls0: nat, ghost n: nat,
                     ghost plies0: seq<Ply>, ghost log0: seq<Reading>)
      returns (t: Turn, used: nat, calls: nat, ghost plies: seq<Ply>, ghost log: seq<Reading>)
      requires b.Length == 64 && IsSide(mine) && his == Opponent(mine)
      requires forall i :: 0 <= i < |inputs| && inputs[i].Move? ==> OnBoard(inputs[i].x, inputs[i].y)
      requires InPlay(plies0, b[..], mine, his, n) && SideAt(|plies0|) == his && used0 == |log0| <= |inputs|
      requires Account(plies0, inputs, log0, his)
      modifies b
      ensures InPlay(plies, b[..], mine, his, n) && Account(plies, inputs, log, his)
      ensures used <= |inputs| && used == |log| + (if t == Stop(Left) then 1 else 0)
      ensures Unplayed(log) == Unplayed(log0) + (if t == Again then 1 else 0)
      ensures |log| == |log0| + (if t == Moved || t == Again then 1 else 0)
      ensures t == Moved || t == Forfeit ==> SideAt(|plies|) == mine && plies != []
      ensures t.Again? || t.Stop? ==> plies == plies0
      ensures t != Moved ==> b[..] == old(b[..])
      ensures Placements(plies, {his}) == Placements(plies0, {his}) + (if t == Moved then 1 else 0)
      ensures Count(b[..], EMPTY) == Count(old(b[..]), EMPTY) - (if t == Moved then 1 else 0)
      ensures t == Moved ==> Count(b[..], EMPTY) < 60
      ensures t == Forfeit <==> !CanMove(old(b[..]), his)
      ensures t.Stop? ==> t == Stop(Waiting) || t == Stop(Left)
      ensures t == Stop(Waiting) ==> used == |inputs| && Placements(plies, {his}) < 60
      ensures t == Stop(Left) ==> 0 < used && inputs[used - 1] == Quit
    {
      hide CanMove, Placements, Count, InPlay, SideAt, Account, Answers, Passed, BoardAt, Unplayed;
      log := log0;
      InPlayFacts(plies0, b[..], mine, his, n);
      t, used, calls, plies := HumanTurn(inputs, used0, rnd, calls0, n, plies0);
      if t == Forfeit {
        AccountPly(plies0, plies, inputs, log, his);
      } else if t == Moved || t == Again {
        AccountRead(plies0, plies, inputs, log, t == Moved, his);
        OneMoreReading(log, Reading(|plies0|, t == Moved));
        log := log + [Reading(|plies0|, t == Moved)];
      }
    }

    /** The machine's half of a round, from the label Istart, beside the log. */
    method MachineHalf(n0: nat, rnd: nat, inputs: seq<Input>, ghost log: seq<Reading>, ghost plies0: seq<Ply>)
      returns (n: nat, passed: bool, drawn: nat, ghost plies: seq<Ply>)
      requires b.Length == 64 && IsSide(mine) && his == Opponent(mine)
      requires InPlay(plies0, b[..], mine, his, n0) && SideAt(|plies0|) == mine && Account(plies0, inputs, log, his)
      modifies b
      ensures InPlay(plies, b[..], mine, his, n) && Account(plies, inputs, log, his)
      ensures SideAt(|plies|) == his && plies != []
      ensures passed <==> !CanMove(old(b[..]), mine)
      ensures passed ==> b[..] == old(b[..])
      ensures Count(b[..], EMPTY) == Count(old(b[..]), EMPTY) - (if passed then 0 else 1)
      ensures Placements(plies, {his}) == Placements(plies0, {his}) && Count(b[..], EMPTY) <= 60
    {
      hide CanMove, Placements, Count, InPlay, SideAt, Account;
      n, passed, drawn, plies := MachineTurn(n0, rnd, plies0);
      AccountPly(plies0, plies, inputs, log, his);
    }

    /** rnd gives the values of successive calls of rand(). used counts the inputs read, ignored
        those of them that the loop answered without a ply, and log accounts for all of them but a
        final 'Q'. */
    method Game(n0: nat, inputs: seq<Input>, rnd: nat -> nat)
      returns (r: Outcome, used: nat, ignored: nat, ghost plies: seq<Ply>, ghost log: seq<Reading>)
      requires b.Length == 64 && b[..] == Opening() && n0 == 4
      requires forall i :: 0 <= i < |inputs| && inputs[i].Move? ==> OnBoard(inputs[i].x, inputs[i].y)
      modifies this, b
      ensures mefirst == old(mefirst) && mine == (if mefirst then BLACK else WHITE) && his == Opponent(mine)
      // the run is a legal game of Othello, and the board is its board
      ensures LegalGame(plies) && b[..] == BoardAt(plies)
      // the machine plays best moves, the human what his inputs say, in their order
      ensures PlaysBest(plies, mine) && Account(plies, inputs, log, his)
      ensures used <= |inputs| && used == |log| + if r == Left then 1 else 0
      ensures ignored == Unplayed(log) && |log| == Placements(plies, {his}) + ignored
      // at most 60 placements, and 'D' only at the end of the game
      ensures Count(b[..], EMPTY) + Placements(plies, SIDES) == 60
      ensures r == Done ==> Count(b[..], EMPTY) == 0 || (!CanMove(b[..], BLACK) && !CanMove(b[..], WHITE))
      // otherwise it is the human's turn and he can move
      ensures r == Waiting ==> used == |inputs| && CanMove(b[..], his)
      ensures r == Left ==> 0 < used <= |inputs| && inputs[used - 1] == Quit
      // sixty inputs, each 'G' or a square that is legal when read, always see the game to its end
      ensures |inputs| >= 60 && Quit !in inputs && LegalWhenRead(plies, inputs, log, his) ==> r == Done
      ensures |inputs| >= 60 && (forall i :: 0 <= i < |inputs| ==> inputs[i] == Auto) ==> r == Done
    {
      hide CanMove, PlaysBest, Account, LegalGame, BoardAt, Placements, Count, Opening, InPlay, SideAt, HisTurn,
        Unplayed;
      mine := if mefirst then BLACK else WHITE;
      his := if mefirst then WHITE else BLACK;
      StartFacts(mine);
      var n;
      r, used, ignored, n, plies, log := Rounds(n0, inputs, rnd);
      InPlayFacts(plies, b[..], mine, his, n);
      if forall i :: 0 <= i < |inputs| ==> inputs[i] == Auto {
        AutoIsLegal(plies, inputs, log, his);
      }
      if LegalWhenRead(plies, inputs, log, his) {
        LegalInputsPlayed(plies, inputs, log, his);
      }
    }

    /** The loop of game, from the opening. */
    method Rounds(n0: nat, inputs: seq<Input>, rnd: nat -> nat)
      returns (r: Outcome, used: nat, ignored: nat, n: nat, ghost plies: seq<Ply>, ghost log: seq<Reading>)
      requires b.Length == 64 && IsSide(mine) && his == Opponent(mine)
      requires InPlay([], b[..], mine, his, n0) && HisTurn([], b[..], mine, his)
      requires forall i :: 0 <= i < |inputs| && inputs[i].Move? ==> OnBoard(inputs[i].x, inputs[i].y)
      modifies b
      ensures InPlay(plies, b[..], mine, his, n)
      ensures r == Done ==> Over(b[..])
      ensures r == Waiting ==> used == |inputs| && CanMove(b[..], his) && Placements(plies, {his}) < 60
      ensures r == Left ==> 0 < used <= |inputs| && inputs[used - 1] == Quit
      ensures used <= |inputs| && used == |log| + if r == Left then 1 else 0
      ensures ignored == Unplayed(log) && |log| == Placements(plies, {his}) + ignored
      ensures Account(plies, inputs, log, his)
    {
      hide CanMove, Placements, Count, InPlay, SideAt, Over, HisTurn, Account, Answers, Passed, BoardAt, Unplayed;
      used, ignored, n, plies, log := 0, 0, n0, [], [];
      NothingRead(inputs, his);
      var calls: nat := 0;
      r := Done;
      while true
        invariant InPlay(plies, b[..], mine, his, n)
        invariant HisTurn(plies, b[..], mine, his)
        invariant used == |log| <= |inputs| && used == Placements(plies, {his}) + ignored
        invariant Account(plies, inputs, log, his) && ignored == Unplayed(log)
        decreases Count(b[..], EMPTY), |inputs| - used
      {
        var ff1, ff2 := false, false;
        InPlayFacts(plies, b[..], mine, his, n);
        OverFacts(b[..], mine);
        TurnFacts(plies, b[..], mine, his);
        var empty := CntBrd(b, EMPTY);
        r := Done;
        if empty == 0 { break; }
        if !(empty == 60 && mine == BLACK) {
          var turn;
          turn, used, calls, plies, log := HumanHalf(inputs, used, rnd, calls, n, plies, log);
          if turn.Stop? { r := turn.outcome; break; }
          if turn == Again { ignored := ignored + 1; continue; }
          ff1 := turn == Forfeit;
          OverFacts(b[..], mine);
        }
        // Istart
        empty := CntBrd(b, EMPTY);
        if empty == 0 { break; }
        BlackOpens(plies, b[..], mine, his, n);
        var drawn;
        n, ff2, drawn, plies := MachineHalf(n, rnd(calls), inputs, log, plies);
        calls := calls + drawn;
        if ff1 && ff2 { break; }
        InPlayFacts(plies, b[..], mine, his, n);
        if n > 64 { break; }
        TurnFacts(plies, b[..], mine, his);
      }
    }

    /** One pass of main's loop: clear the board, play, change who goes first, count the pieces. */
    method PlayOne(inputs: seq<Input>, rnd: nat -> nat)
      returns (r: Outcome, margin: int, ghost plies: seq<Ply>, ghost log: seq<Reading>)
      requires b.Length == 64
      requires forall i :: 0 <= i < |inputs| && inputs[i].Move? ==> OnBoard(inputs[i].x, inputs[i].y)
      modifies this, b
      ensures mefirst == !old(mefirst) && LegalGame(plies) && b[..] == BoardAt(plies)
      ensures Account(plies, inputs, log, his)
      ensures r == Done ==> Over(b[..])
      ensures r == Done ==> margin == Count(b[..], his) - Count(b[..], mine)
      ensures his == (if old(mefirst) then WHITE else BLACK) && mine == Opponent(his)
    {
      ClrBrd(b);
      var used, ignored;
      r, used, ignored, plies, log := Game(4, inputs, rnd);
      mefirst := !mefirst;
      margin := 0;
      if r == Done {
        var i := CntBrd(b, his);
        var j := CntBrd(b, mine);
        margin := i - j;
      }
    }
  }

  /** The state of the loop between two plies. */
  ghost predicate InPlay(plies: seq<Ply>, b: Board, mine: int, his: int, n: int) {
    LegalGame(plies) && b == BoardAt(plies) && PlaysBest(plies, mine) && n + Count(b, EMPTY) <= 64
  }

  lemma InPlayFacts(plies: seq<Ply>, b: Board, mine: int, his: int, n: int)
    requires InPlay(plies, b, mine, his, n)
    ensures LegalGame(plies) && b == BoardAt(plies) && PlaysBest(plies, mine) && n + Count(b, EMPTY) <= 64
    ensures Count(b, EMPTY) + Placements(plies, SIDES) == 60
  {
    LegalGameKeeps(plies);
  }

  lemma BlackOpens(plies: seq<Ply>, b: Board, mine: int, his: int, n: int)
    requires InPlay(plies, b, mine, his, n)
    ensures plies == [] ==> CanMove(b, BLACK)
  {
    BlackCanOpen();
  }

  lemma StartFacts(mine: int)
    ensures InPlay([], Opening(), mine, Opponent(mine), 4) && HisTurn([], Opening(), mine, Opponent(mine))
  {
    OpeningCount();
  }

  lemma NothingRead(inputs: seq<Input>, p: int)
    ensures Account([], inputs, [], p) && Unplayed([]) == 0 && Placements([], {p}) == 0
  {
  }

  lemma AutoIsLegal(plies: seq<Ply>, inputs: seq<Input>, log: seq<Reading>, p: int)
    requires forall i :: 0 <= i < |inputs| ==> inputs[i] == Auto
    ensures LegalWhenRead(plies, inputs, log, p)
  {
  }

  lemma OverFacts(b: Board, p: int)
    requires IsSide(p)
    ensures Count(b, EMPTY) == 0 ==> Over(b)
    ensures !CanMove(b, p) && !CanMove(b, Opponent(p)) ==> Over(b)
  {
  }

  /** At the head of the loop the human is to move, except that Black opens. */
  ghost predicate HisTurn(plies: seq<Ply>, b: Board, mine: int, his: int) {
    if plies == [] then Count(b, EMPTY) == 60 else SideAt(|plies|) == his && Count(b, EMPTY) < 60
  }

  lemma TurnFacts(plies: seq<Ply>, b: Board, mine: int, his: int)
    requires IsSide(mine) && his == Opponent(mine)
    ensures HisTurn(plies, b, mine, his) ==>
              SideAt(|plies|) == if Count(b, EMPTY) == 60 && mine == BLACK then mine else his
    ensures SideAt(|plies|) == his && plies != [] && Count(b, EMPTY) < 60 ==> HisTurn(plies, b, mine, his)
    ensures plies == [] && Count(b, EMPTY) == 60 ==> HisTurn(plies, b, mine, his)
    ensures HisTurn(plies, b, mine, his) && Count(b, EMPTY) == 60 ==> plies == []
  {
  }

  lemma BestFacts(b: Board, p: int, o: int, e: int, x: int, y: int)
    requires Best(b, p, o, e, x, y)
    ensures OnBoard(x, y) && Legal(b, p, x, y)
  {
  }

  lemma MoverHasRoom(plies: seq<Ply>, b: Board, mine: int, his: int)
    requires LegalGame(plies) && b == BoardAt(plies) && IsSide(mine) && his == Opponent(mine) && CanMove(b, his)
    ensures Placements(plies, {his}) < 60
  {
    hide BoardAt, Legal;
    LegalGameKeeps(plies);
    var x, y :| OnBoard(x, y) && Legal(b, his, x, y);
    LegalSquareEmpty(b, his, x, y);
    assert Sq(x, y) in Squares(b, EMPTY);
  }

  /** One more ply: n grows, if at all, by one for a placement of the machine. */
  lemma PlyTaken(plies: seq<Ply>, b: Board, mine: int, his: int, n: int, ply: Ply)
    requires InPlay(plies, b, mine, his, n) && IsSide(mine) && his == Opponent(mine)
    requires LegalPly(b, ply, SideAt(|plies|))
    requires ply.Place? && ply.side == mine ==> Best(b, mine, his, EMPTY, ply.x, ply.y)
    ensures var plies', b' := plies + [ply], Played(b, ply);
            && InPlay(plies', b', mine, his, if ply.Place? then n + 1 else n)
            && InPlay(plies', b', mine, his, n)
            && Count(b', EMPTY) == Count(b, EMPTY) - (if ply.Place? then 1 else 0)
            && Placements(plies', {his}) ==
               Placements(plies, {his}) + (if ply.Place? && ply.side == his then 1 else 0)
            && Count(b', EMPTY) <= 60
  {
    hide CanMove, Legal, Best, Count, Opening, After;
    LegalGameKeeps(plies);
    OneMorePly(plies, ply);
    PlaysBestGrows(plies, ply, mine);
    LegalGameKeeps(plies + [ply]);
    assert ply.side in SIDES;
  }
}
