/**
 * The session state and the match controller (script.js:47-79, 227-475): click
 * filtering, the two-tile resolution that runs 600 ms after the second flip,
 * win detection and the return to the title screen. Screens, the timer and the
 * rating element are kept as plain fields; sound and the DOM are not modelled.
 */
module Game {
  import opened Config
  import opened Tiles
  import opened Board
  import opened Rating

  datatype Option<T> = None | Some(value: T)

  /** The screen on display. */
  datatype Screen = TitleScreen | GameScreen | WinScreen

  /** The two tiles a scheduled resolution captured when it was scheduled. */
  datatype Pending = Pending(tile1: Tile, tile2: Tile)

  /** The number of distinct objects in a row of tiles. */
  lemma {:induction false} DistinctElements(s: seq<Tile>)
    requires Distinct(s)
    ensures |set t | t in s| == |s|
    decreases |s|
  {
    if s != [] {
      var init, last := s[..|s| - 1], s[|s| - 1];
      assert s == init + [last];
      assert Distinct(init);
      assert (set t | t in s) == (set t | t in init) + {last};
      DistinctElements(init);
    }
  }

  /** The tiles of a row that are marked matched. */
  function MatchedAmong(tiles: seq<Tile>): set<Tile>
    reads tiles
  {
    set t | t in tiles && t.isMatched
  }

  /** Marking two more tiles of a row adds exactly those two to its matched set. */
  lemma MatchedGrowsByPair(tiles: seq<Tile>, before: set<Tile>, a: Tile, b: Tile)
    requires a in tiles && b in tiles && a != b && a !in before && b !in before
    requires forall t :: t in before ==> t in tiles
    requires forall t :: t in tiles ==> (t.isMatched <==> t in before || t == a || t == b)
    ensures |MatchedAmong(tiles)| == |before| + 2
  {
    assert MatchedAmong(tiles) == before + {a, b};
  }

  class GameState {
    var difficulty: Difficulty
    var tiles: seq<Tile>
    /** The current selection: the tiles turned up since the last resolution. */
    var flipped: seq<Tile>
    /** Number of pairs found. */
    var matched: nat
    /** Number of completed two-tile selections. */
    var moves: nat
    var gameActive: bool
    /** Set while a resolution is pending. */
    var isChecking: bool

    constructor ()
      ensures difficulty == Medium && tiles == [] && flipped == []
      ensures matched == 0 && moves == 0 && !gameActive && !isChecking
    {
      difficulty := Medium;
      tiles := [];
      flipped := [];
      matched := 0;
      moves := 0;
      gameActive := false;
      isChecking := false;
    }

    /** Clear the session; the chosen difficulty is kept. */
    method Reset()
      modifies this
      ensures difficulty == old(difficulty) && tiles == [] && flipped == []
      ensures matched == 0 && moves == 0 && !gameActive && !isChecking
    {
      tiles := [];
      flipped := [];
      matched := 0;
      moves := 0;
      gameActive := false;
      isChecking := false;
    }

    /** The tiles of the board that are marked matched. */
    function MatchedTiles(): set<Tile>
      reads this, tiles
    {
      MatchedAmong(tiles)
    }

    /**
     * The session invariant: the selection holds at most two distinct face-up,
     * unmatched tiles of the board and every such tile of the board is in it;
     * matched tiles are face up; `isChecking` is set exactly when two tiles are
     * selected; and `matched` counts the matched tiles in pairs.
     */
    predicate Consistent()
      reads this, tiles
    {
      && Distinct(tiles)
      && |flipped| <= 2
      && (forall t :: t in flipped ==> t in tiles && t.isFlipped && !t.isMatched)
      && (|flipped| == 2 ==> flipped[0] != flipped[1])
      && (forall t :: t in tiles && t.isFlipped && !t.isMatched ==> t in flipped)
      && (forall t :: t in tiles && t.isMatched ==> t.isFlipped)
      && isChecking == (|flipped| == 2)
      && 2 * matched == |MatchedTiles()|
    }

    /**
     * In a consistent session at most every tile is matched, and when the pair
     * count reaches half the board, every tile of the board is matched.
     */
    lemma MatchedBound()
      requires Consistent()
      ensures 2 * matched <= |tiles|
      ensures 2 * matched == |tiles| ==> forall t :: t in tiles ==> t.isMatched
    {
      var all := set t | t in tiles;
      DistinctElements(tiles);
      assert MatchedTiles() <= all;
      assert |all - MatchedTiles()| == |all| - |MatchedTiles()|;
      if 2 * matched == |tiles| {
        assert all - MatchedTiles() == {};
        forall t | t in tiles ensures t.isMatched {
          assert t !in all - MatchedTiles();
        }
      }
    }
  }

  class MemoryMatchGame {
    const state: GameState
    var screen: Screen
    /** Whether the one-second display timer is running. */
    var timerRunning: bool
    /** The rating last written to the win screen. */
    var shownRating: Option<Rating>

    constructor ()
      ensures fresh(state)
      ensures state.difficulty == Medium && state.tiles == [] && state.flipped == []
      ensures state.matched == 0 && state.moves == 0 && !state.gameActive && !state.isChecking
      ensures screen == TitleScreen && !timerRunning && shownRating == None
    {
      state := new GameState();
      screen := TitleScreen;
      timerRunning := false;
      shownRating := None;
    }

    /** The difficulty selector's change handler. */
    method SelectDifficulty(d: Difficulty)
      modifies state
      ensures state.difficulty == d
      ensures state.tiles == old(state.tiles) && state.flipped == old(state.flipped)
      ensures state.matched == old(state.matched) && state.moves == old(state.moves)
      ensures state.gameActive == old(state.gameActive) && state.isChecking == old(state.isChecking)
    {
      state.difficulty := d;
    }

    /**
     * Build the board for `preset`: the symbol pairs, shuffled by the comparator
     * answers `choices`, become new face-down tiles numbered by position.
     */
    method CreateTiles(preset: Preset, choices: seq<nat>)
      requires preset.pairs <= |SYMBOLS|
      modifies state
      ensures |state.tiles| == 2 * preset.pairs && Distinct(state.tiles)
      ensures multiset(SymbolsOf(state.tiles)) == multiset(Doubled(SYMBOLS[..preset.pairs]))
      ensures forall k :: 0 <= k < preset.pairs ==> multiset(SymbolsOf(state.tiles))[SYMBOLS[k]] == 2
      ensures forall x :: x !in SYMBOLS[..preset.pairs] ==> multiset(SymbolsOf(state.tiles))[x] == 0
      ensures choices == [] ==> SymbolsOf(state.tiles) == Doubled(SYMBOLS[..preset.pairs])
      ensures forall i :: 0 <= i < |state.tiles| ==> state.tiles[i].id == i
      ensures forall t :: t in state.tiles ==> fresh(t) && !t.isFlipped && !t.isMatched
      ensures state.difficulty == old(state.difficulty) && state.flipped == old(state.flipped)
      ensures state.matched == old(state.matched) && state.moves == old(state.moves)
      ensures state.gameActive == old(state.gameActive) && state.isChecking == old(state.isChecking)
    {
      var symbols := PairSymbols(preset.pairs);
      symbols := Shuffle(symbols, choices);
      state.tiles := MakeTiles(symbols);
    }

    /**
     * Start a new game at the selected difficulty: a fresh board, counters at
     * zero, the game screen shown and the timer running.
     */
    method StartGame(choices: seq<nat>)
      modifies this, state
      ensures state.difficulty == old(state.difficulty)
      ensures |state.tiles| == 2 * PairsOf(state.difficulty)
      ensures forall k :: 0 <= k < PairsOf(state.difficulty) ==> multiset(SymbolsOf(state.tiles))[SYMBOLS[k]] == 2
      ensures forall x :: x !in SYMBOLS[..PairsOf(state.difficulty)] ==> multiset(SymbolsOf(state.tiles))[x] == 0
      ensures choices == [] ==> SymbolsOf(state.tiles) == Doubled(SYMBOLS[..PairsOf(state.difficulty)])
      ensures forall i :: 0 <= i < |state.tiles| ==> state.tiles[i].id == i
      ensures forall t :: t in state.tiles ==> fresh(t) && !t.isFlipped && !t.isMatched
      ensures state.flipped == [] && state.matched == 0 && state.moves == 0
      ensures state.gameActive && !state.isChecking
      ensures screen == GameScreen && timerRunning && shownRating == old(shownRating)
      ensures state.Consistent()
    {
      state.Reset();
      var preset := PresetOf(state.difficulty);
      CreateTiles(preset, choices);
      screen := GameScreen;
      state.gameActive := true;
      timerRunning := true;
      assert state.MatchedTiles() == {};
    }

    /** Whether a click on `tile` is accepted now. */
    predicate Accepts(tile: Tile)
      reads state, tile
      ensures Accepts(tile) ==> Step(tile.FaceOf(), FlipOp) == Face(true, false)
      ensures Accepts(tile) ==> |state.flipped + [tile]| <= 2
    {
      state.gameActive && !tile.isFlipped && !tile.isMatched && !state.isChecking && |state.flipped| < 2
    }

    /**
     * A click on `tile`. It is ignored when the game is inactive, the tile is up
     * or matched, a resolution is pending or two tiles are already selected.
     * Otherwise the tile is turned up and selected; when it is the second tile,
     * the move counter goes up and a resolution of the two is scheduled.
     */
    method HandleTileClick(tile: Tile) returns (scheduled: Option<Pending>)
      modifies state, tile
      ensures !old(Accepts(tile)) ==> unchanged(state, tile) && scheduled == None
      ensures old(Accepts(tile)) ==>
        && tile.isFlipped && !tile.isMatched
        && state.flipped == old(state.flipped) + [tile]
        && state.moves == old(state.moves) + (if |state.flipped| == 2 then 1 else 0)
        && state.isChecking == (|state.flipped| == 2)
        && (scheduled.Some? <==> |state.flipped| == 2)
        && (scheduled.Some? ==> scheduled.value == Pending(state.flipped[0], state.flipped[1]))
      ensures state.difficulty == old(state.difficulty) && state.tiles == old(state.tiles)
      ensures state.matched == old(state.matched) && state.gameActive == old(state.gameActive)
      ensures |old(state.flipped)| <= 2 ==> |state.flipped| <= 2
      ensures old(state.Consistent()) && tile in old(state.tiles) ==> state.Consistent()
    {
      if !state.gameActive || tile.isFlipped || tile.isMatched || state.isChecking || |state.flipped| >= 2 {
        return None;
      }
      ghost var before := state.MatchedTiles();
      tile.Flip();
      state.flipped := state.flipped + [tile];
      scheduled := None;
      if |state.flipped| == 2 {
        state.moves := state.moves + 1;
        var p := CheckForMatch();
        scheduled := Some(p);
      }
      assert state.MatchedTiles() == before;
    }

    /** Mark the session as resolving and capture the two selected tiles. */
    method CheckForMatch() returns (p: Pending)
      requires |state.flipped| == 2
      modifies state
      ensures state.isChecking && state.flipped == old(state.flipped)
      ensures p == Pending(state.flipped[0], state.flipped[1])
      ensures state.difficulty == old(state.difficulty) && state.tiles == old(state.tiles)
      ensures state.matched == old(state.matched)
      ensures state.moves == old(state.moves) && state.gameActive == old(state.gameActive)
    {
      state.isChecking := true;
      p := Pending(state.flipped[0], state.flipped[1]);
    }

    /**
     * The scheduled resolution, exactly as the timeout callback runs it: it does
     * not look at whether the captured tiles still belong to the current session.
     * Equal symbols: both tiles are marked matched, the pair count goes up and, if
     * it reaches the pair count of the selected difficulty, the game is won.
     * Different symbols: both tiles are turned down. Either way the selection is
     * emptied and the session stops resolving.
     */
    method Resolve(p: Pending)
      modifies this, state, p.tile1, p.tile2
      ensures state.flipped == [] && !state.isChecking
      ensures state.moves == old(state.moves) && state.tiles == old(state.tiles)
      ensures state.difficulty == old(state.difficulty)
      ensures p.tile1.symbol == p.tile2.symbol ==>
        && p.tile1.isMatched && p.tile2.isMatched
        && p.tile1.isFlipped == old(p.tile1.isFlipped) && p.tile2.isFlipped == old(p.tile2.isFlipped)
        && state.matched == old(state.matched) + 1
        && (state.matched == PairsOf(state.difficulty) ==> Won())
        && (state.matched != PairsOf(state.difficulty) ==> NothingElseChanged())
      ensures p.tile1.symbol != p.tile2.symbol ==>
        && p.tile1.FaceOf() == Step(old(p.tile1.FaceOf()), UnflipOp)
        && p.tile2.FaceOf() == Step(old(p.tile2.FaceOf()), UnflipOp)
        && state.matched == old(state.matched)
        && NothingElseChanged()
      ensures old(state.Consistent()) && old(state.isChecking) && old(state.flipped) == [p.tile1, p.tile2]
        ==> state.Consistent()
    {
      if p.tile1.symbol == p.tile2.symbol {
        MatchPair(p.tile1, p.tile2);
        if state.matched == PairsOf(state.difficulty) {
          WinGame();
        }
      } else {
        UnflipPair(p.tile1, p.tile2);
      }
    }

    /**
     * The match branch of the resolution: both tiles are marked matched, the pair
     * count goes up, the selection is emptied and the session stops resolving.
     */
    method MatchPair(tile1: Tile, tile2: Tile)
      modifies state, tile1, tile2
      ensures tile1.isMatched && tile2.isMatched
      ensures tile1.isFlipped == old(tile1.isFlipped) && tile2.isFlipped == old(tile2.isFlipped)
      ensures state.matched == old(state.matched) + 1 && state.flipped == [] && !state.isChecking
      ensures state.moves == old(state.moves) && state.tiles == old(state.tiles)
      ensures state.difficulty == old(state.difficulty) && state.gameActive == old(state.gameActive)
      ensures old(state.Consistent()) && old(state.isChecking) && old(state.flipped) == [tile1, tile2]
        ==> state.Consistent()
    {
      ghost var current := state.Consistent() && state.isChecking && state.flipped == [tile1, tile2];
      ghost var before := state.MatchedTiles();
      tile1.MarkMatched();
      tile2.MarkMatched();
      state.matched := state.matched + 1;
      state.flipped := [];
      state.isChecking := false;
      if current {
        assert forall t :: t in state.tiles ==> !t.isFlipped || t.isMatched by {
          forall t | t in state.tiles ensures !t.isFlipped || t.isMatched {
            if t != tile1 && t != tile2 {
              assert t !in old(state.flipped);
            }
          }
        }
        assert forall t :: t in state.tiles && t.isMatched ==> t.isFlipped by {
          forall t | t in state.tiles && t.isMatched ensures t.isFlipped {
            if t != tile1 && t != tile2 {
              assert old(t.isMatched);
            }
          }
        }
        assert 2 * state.matched == |state.MatchedTiles()| by {
          forall t | t in state.tiles
            ensures t.isMatched <==> t in before || t == tile1 || t == tile2
          {
            if t != tile1 && t != tile2 {
              assert t.isMatched == old(t.isMatched);
            }
          }
          MatchedGrowsByPair(state.tiles, before, tile1, tile2);
        }
      }
    }

    /**
     * The mismatch branch of the resolution: both tiles are turned down, the
     * selection is emptied and the session stops resolving.
     */
    method UnflipPair(tile1: Tile, tile2: Tile)
      modifies state, tile1, tile2
      ensures tile1 != tile2 ==> tile1.FaceOf() == Step(old(tile1.FaceOf()), UnflipOp)
      ensures tile1 != tile2 ==> tile2.FaceOf() == Step(old(tile2.FaceOf()), UnflipOp)
      ensures state.matched == old(state.matched) && state.flipped == [] && !state.isChecking
      ensures state.moves == old(state.moves) && state.tiles == old(state.tiles)
      ensures state.difficulty == old(state.difficulty) && state.gameActive == old(state.gameActive)
      ensures old(state.Consistent()) && old(state.isChecking) && old(state.flipped) == [tile1, tile2]
        ==> state.Consistent()
    {
      ghost var current := state.Consistent() && state.isChecking && state.flipped == [tile1, tile2];
      ghost var before := state.MatchedTiles();
      tile1.Unflip();
      tile2.Unflip();
      state.flipped := [];
      state.isChecking := false;
      if current {
        forall t | t in state.tiles ensures !t.isFlipped || t.isMatched {
          if t != tile1 && t != tile2 {
            assert t !in old(state.flipped);
          }
        }
        forall t | t in state.tiles && t.isMatched ensures t.isFlipped {
          assert t != tile1 && t != tile2;
        }
        assert state.MatchedTiles() == before;
      }
    }

    /** The win screen is up with the final rating, the game inactive and the timer stopped. */
    ghost predicate Won()
      reads this, state
    {
      && !state.gameActive && !timerRunning && screen == WinScreen
      && shownRating == Some(Rate(state.moves, PairsOf(state.difficulty)))
    }

    /** Activity, timer, screen and rating are as before the resolution. */
    twostate predicate NothingElseChanged()
      reads this, state
    {
      && state.gameActive == old(state.gameActive) && timerRunning == old(timerRunning)
      && screen == old(screen) && shownRating == old(shownRating)
    }

    /** End the game: inactive, timer stopped, rating computed and the win screen shown. */
    method WinGame()
      modifies this, state
      ensures Won()
      ensures old(state.Consistent()) ==> state.Consistent()
      ensures state.tiles == old(state.tiles) && state.flipped == old(state.flipped)
      ensures state.matched == old(state.matched) && state.moves == old(state.moves)
      ensures state.difficulty == old(state.difficulty) && state.isChecking == old(state.isChecking)
    {
      ghost var before := state.MatchedTiles();
      state.gameActive := false;
      timerRunning := false;
      shownRating := Some(Rate(state.moves, PairsOf(state.difficulty)));
      screen := WinScreen;
      assert state.MatchedTiles() == before;
    }

    /** Quit to the title screen: the game becomes inactive and the timer stops; the board is kept. */
    method GoToTitle()
      modifies this, state
      ensures !state.gameActive && !timerRunning && screen == TitleScreen
      ensures shownRating == old(shownRating)
      ensures state.tiles == old(state.tiles) && state.flipped == old(state.flipped)
      ensures state.matched == old(state.matched) && state.moves == old(state.moves)
      ensures state.difficulty == old(state.difficulty) && state.isChecking == old(state.isChecking)
      ensures old(state.Consistent()) ==> state.Consistent()
    {
      ghost var before := state.MatchedTiles();
      state.gameActive := false;
      timerRunning := false;
      screen := TitleScreen;
      assert state.MatchedTiles() == before;
    }

    /**
     * The resolution with the guard the callback lacks: it applies only while the
     * session is still resolving exactly the captured pair, and is otherwise a
     * no-op. It keeps the session invariant whatever pair it is handed.
     */
    method ResolveGuarded(p: Pending)
      modifies this, state, p.tile1, p.tile2
      ensures !old(state.isChecking && state.flipped == [p.tile1, p.tile2]) ==>
        unchanged(this, state, p.tile1, p.tile2)
      ensures state.moves == old(state.moves) && state.tiles == old(state.tiles)
      ensures state.difficulty == old(state.difficulty)
      ensures old(state.isChecking && state.flipped == [p.tile1, p.tile2]) ==>
        && state.flipped == [] && !state.isChecking
        && (p.tile1.symbol == p.tile2.symbol ==>
             && p.tile1.isMatched && p.tile2.isMatched && state.matched == old(state.matched) + 1
             && p.tile1.isFlipped == old(p.tile1.isFlipped) && p.tile2.isFlipped == old(p.tile2.isFlipped)
             && (state.matched == PairsOf(state.difficulty) ==> Won())
             && (state.matched != PairsOf(state.difficulty) ==> NothingElseChanged()))
        && (p.tile1.symbol != p.tile2.symbol ==>
             && p.tile1.FaceOf() == Step(old(p.tile1.FaceOf()), UnflipOp)
             && p.tile2.FaceOf() == Step(old(p.tile2.FaceOf()), UnflipOp)
             && state.matched == old(state.matched)
             && NothingElseChanged())
      ensures old(state.Consistent()) && p.tile1 !in old(state.tiles) ==> unchanged(this, state, p.tile1, p.tile2)
      ensures old(state.Consistent()) ==> state.Consistent()
    {
      if state.isChecking && state.flipped == [p.tile1, p.tile2] {
        Resolve(p);
      }
    }
  }
}
