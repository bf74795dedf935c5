/** The account of a level's bubbles over the keys that main reads there, the switch key included. */
module DStarRun {
  import opened DStarLevel
  import opened DStarSlide
  import opened DStarGame

  /** A tidy state of its level, at positions that no slide leaves. */
  ghost predicate StateKept(levels: Levels, s: Globals, ps: set<Places>)
    requires AllPlaceable(levels)
  {
    && 0 <= s.level < 25
    && Tidy(s.b, Loaded(levels, s.level), s.ball, s.box)
    && Keeps(Loaded(levels, s.level), ps) && Places(s.ball, s.box) in ps
  }

  /** The bubbles that a key makes a piece roll over. */
  ghost function TakenBy(s: Globals, key: Key): set<int> {
    if StepOf(key) != 0 && OnBoard(s.ball) && OnBoard(s.box) then
      Taken(State(s.b, s.ball, s.box), Press(s.pieceIsBox, StepOf(key)))
    else {}
  }

  lemma SlideAccount(levels: Levels, s: Globals, key: Key, ps: set<Places>)
    requires AllPlaceable(levels) && StateKept(levels, s, ps) && StepOf(key) != 0
    ensures var t := AfterKey(levels, s, key);
            && t.level == s.level && StateKept(levels, t, ps)
            && Bubbles(t.b) == Bubbles(s.b) - TakenBy(s, key)
            && |Bubbles(t.b)| == |Bubbles(s.b)| - |TakenBy(s, key)|
  {
    var loaded, d := Loaded(levels, s.level), StepOf(key);
    PiecesOnBoard(s.b, loaded, s.ball, s.box);
    hide Tidy, Keeps, Loaded, At, SlideLen, Slid, Bubbles, Entered, FitsChar, StepOf;
    KeptPlaces(s.b, loaded, s.ball, s.box, ps, s.pieceIsBox, d);
    SlideKeepsTidy(s.b, loaded, s.ball, s.box, s.pieceIsBox, d);
    BubblesTaken(s.b, loaded, s.ball, s.box, s.pieceIsBox, d);
  }

  lemma OtherKey(levels: Levels, s: Globals, key: Key)
    requires AllPlaceable(levels) && StepOf(key) == 0 && !Reloads(s.level, key)
    ensures var t := AfterKey(levels, s, key);
            t.level == s.level && t.b == s.b && t.ball == s.ball && t.box == s.box && TakenBy(s, key) == {}
  {
  }

  /** What a key that loads no level does to a level's state. */
  lemma KeyAccount(levels: Levels, s: Globals, key: Key, ps: set<Places>)
    requires AllPlaceable(levels) && StateKept(levels, s, ps) && !Reloads(s.level, key)
    ensures var t := AfterKey(levels, s, key);
            && t.level == s.level && StateKept(levels, t, ps)
            && Bubbles(t.b) == Bubbles(s.b) - TakenBy(s, key)
            && |Bubbles(t.b)| == |Bubbles(s.b)| - |TakenBy(s, key)|
  {
    hide Tidy, Keeps, Loaded, Bubbles, AfterKey, TakenBy, StepOf, Reloads;
    if StepOf(key) != 0 { SlideAccount(levels, s, key, ps); } else { OtherKey(levels, s, key); }
  }

  /** The state after key number k, before the scan. */
  ghost function Pressed(levels: Levels, keys: seq<Key>, k: nat): Globals
    requires AllPlaceable(levels) && k < |keys|
  {
    AfterKey(levels, AfterKeys(levels, keys[..k]), keys[k])
  }

  /** From the i-th state to the n-th no key loads a level, and the scan does not leave it. */
  ghost predicate OneLevel(levels: Levels, keys: seq<Key>, i: nat, n: nat)
    requires AllPlaceable(levels) && n <= |keys|
  {
    forall k :: i <= k < n ==>
      !Reloads(AfterKeys(levels, keys[..k]).level, keys[k]) && !NoneScanned(Pressed(levels, keys, k).b)
  }

  /** How many bubbles are taken from the i-th state to the n-th. */
  ghost function TakenIn(levels: Levels, keys: seq<Key>, i: nat, n: nat): nat
    requires AllPlaceable(levels) && n <= |keys|
  {
    if n <= i then 0
    else TakenIn(levels, keys, i, n - 1) + |TakenBy(AfterKeys(levels, keys[..n - 1]), keys[n - 1])|
  }

  /** As long as main stays in a level, no bubble is lost or made: those on the board and those rolled
      over always add up to those it began with. */
  lemma {:induction false} BubbleAccount(levels: Levels, keys: seq<Key>, i: nat, n: nat, ps: set<Places>)
    requires AllPlaceable(levels) && i <= n <= |keys|
    requires StateKept(levels, AfterKeys(levels, keys[..i]), ps) && OneLevel(levels, keys, i, n)
    ensures var s, t := AfterKeys(levels, keys[..i]), AfterKeys(levels, keys[..n]);
            && StateKept(levels, t, ps) && t.level == s.level
            && |Bubbles(t.b)| + TakenIn(levels, keys, i, n) == |Bubbles(s.b)|
  {
    hide StateKept, AfterKey, AfterKeys, TakenBy, Bubbles, Reloads;
    if n > i {
      BubbleAccount(levels, keys, i, n - 1, ps);
      var s := AfterKeys(levels, keys[..n - 1]);
      assert !Reloads(s.level, keys[n - 1]) && !NoneScanned(Pressed(levels, keys, n - 1).b);
      KeyAccount(levels, s, keys[n - 1], ps);
      OneMoreKey(levels, keys, n - 1);
      assert AfterKeys(levels, keys[..n]) == Pressed(levels, keys, n - 1);
    }
  }

  /** A level without a bubble in its last cell is left by the scan exactly when all its bubbles have
      been taken. */
  lemma ClearedIffAllTaken(levels: Levels, keys: seq<Key>, i: nat, n: nat, ps: set<Places>)
    requires AllPlaceable(levels) && i <= n < |keys|
    requires StateKept(levels, AfterKeys(levels, keys[..i]), ps) && OneLevel(levels, keys, i, n)
    requires Loaded(levels, AfterKeys(levels, keys[..i]).level)[143] != BUBB
    requires !Reloads(AfterKeys(levels, keys[..n]).level, keys[n])
    ensures NoneScanned(Pressed(levels, keys, n).b) <==>
            TakenIn(levels, keys, i, n) + |TakenBy(AfterKeys(levels, keys[..n]), keys[n])|
            == |Bubbles(AfterKeys(levels, keys[..i]).b)|
  {
    hide AfterKey, AfterKeys, TakenBy, Bubbles, Reloads, Tidy, Keeps, Loaded, OneLevel, NoneScanned, TakenIn;
    BubbleAccount(levels, keys, i, n, ps);
    var s := AfterKeys(levels, keys[..n]);
    KeyAccount(levels, s, keys[n], ps);
    var t := Pressed(levels, keys, n);
    ScanIsExact(t.b, Loaded(levels, s.level), t.ball, t.box);
    assert |Bubbles(t.b)| == 0 <==> Bubbles(t.b) == {};
  }

  /** The same from the start of a level whose pieces stay on the board: its bubbles are those loaded. */
  lemma LevelAccount(levels: Levels, keys: seq<Key>, i: nat, n: nat, level: int)
    requires AllPlaceable(levels) && i <= n <= |keys| && 0 <= level < 25
    requires AfterKeys(levels, keys[..i]) == Load(levels, level) && OneLevel(levels, keys, i, n)
    requires StaysOn(levels, level) && WellMade(levels, level)
    ensures |Bubbles(AfterKeys(levels, keys[..n]).b)| + TakenIn(levels, keys, i, n) == |Bubbles(Loaded(levels, level))|
    ensures Loaded(levels, level)[143] != BUBB && n < |keys| && !Reloads(level, keys[n]) ==>
              (NoneScanned(Pressed(levels, keys, n).b) <==>
               TakenIn(levels, keys, i, n) + |TakenBy(AfterKeys(levels, keys[..n]), keys[n])|
               == |Bubbles(Loaded(levels, level))|)
  {
    hide AfterKey, AfterKeys, TakenBy, Bubbles, Reloads, Tidy, Keeps, Loaded, OneLevel, NoneScanned, TakenIn, WellMade;
    var ps: set<Places> :|
      Keeps(Loaded(levels, level), ps) && Places(BallAt(levels, level), BoxAt(levels, level)) in ps;
    FreshIsTidy(levels, level);
    BubbleAccount(levels, keys, i, n, ps);
    if Loaded(levels, level)[143] != BUBB && n < |keys| && !Reloads(level, keys[n]) {
      ClearedIffAllTaken(levels, keys, i, n, ps);
    }
  }
}
