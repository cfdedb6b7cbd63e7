/**
 * Runs of the controller from a fresh page load, each ending in a property of
 * the resulting session. The comparator answers are empty, so boards keep the
 * order in which the pairs were pushed: tiles 2k and 2k+1 share symbol k.
 */
module Play {
  import opened Config
  import opened Tiles
  import opened Board
  import opened Game

  /**
   * From a fresh page load: start a game and turn up its first two tiles, a
   * matching pair; their resolution is now scheduled.
   */
  method SelectFirstPair() returns (game: MemoryMatchGame, pending: Pending)
    ensures fresh(game) && fresh(game.state) && fresh(pending.tile1) && fresh(pending.tile2)
    ensures pending.tile1 != pending.tile2 && pending.tile1.symbol == pending.tile2.symbol
    ensures game.state.isChecking && game.state.flipped == [pending.tile1, pending.tile2]
    ensures game.state.difficulty == Medium
  {
    var first, second;
    game, first, second := StartMediumInOrder();
    var ignored := game.HandleTileClick(first);
    assert game.state.flipped == [first];
    var scheduled := game.HandleTileClick(second);
    pending := scheduled.value;
  }

  /** A new game at the default difficulty, with the first two tiles of its unshuffled board. */
  method StartMediumInOrder() returns (game: MemoryMatchGame, first: Tile, second: Tile)
    ensures fresh(game) && fresh(game.state) && fresh(first) && fresh(second)
    ensures first != second && first.symbol == second.symbol
    ensures first in game.state.tiles && second in game.state.tiles
    ensures !first.isFlipped && !first.isMatched && !second.isFlipped && !second.isMatched
    ensures game.state.flipped == [] && !game.state.isChecking && game.state.gameActive
    ensures game.state.difficulty == Medium && game.state.Consistent()
  {
    game := new MemoryMatchGame();
    game.StartGame([]);
    DoubledContents(SYMBOLS[..PairsOf(Medium)]);
    first, second := game.state.tiles[0], game.state.tiles[1];
    assert first in game.state.tiles && second in game.state.tiles;
  }

  /**
   * Then, before the resolution fires: quit to the title screen, start a new
   * game and turn up the first tile of the new board.
   */
  method RestartWhileResolving() returns (game: MemoryMatchGame, pending: Pending, tile: Tile)
    ensures fresh(game) && fresh(game.state) && fresh(pending.tile1) && fresh(pending.tile2)
    ensures forall t :: t in game.state.tiles ==> fresh(t) && !t.isMatched
    ensures pending.tile1 != pending.tile2 && pending.tile1.symbol == pending.tile2.symbol
    ensures pending.tile1 !in game.state.tiles && pending.tile2 !in game.state.tiles
    ensures game.state.Consistent() && game.state.difficulty == Medium
    ensures game.state.gameActive && !game.state.isChecking && game.state.matched == 0
    ensures tile in game.state.tiles && game.state.flipped == [tile] && tile.isFlipped
  {
    game, pending := SelectFirstPair();
    game.GoToTitle();
    game.StartGame([]);
    tile := game.state.tiles[0];
    assert tile in game.state.tiles;
    var ignored := game.HandleTileClick(tile);
  }

  /**
   * The old resolution then fires, as the timeout callback does. The new session
   * counts a pair that no tile of its board shows, and the turned-up tile has
   * left the selection while staying face up, so every later click on it is
   * ignored: the session invariant is broken.
   */
  method StaleResolution() returns (matchedPairs: nat, anyTileMatched: bool, stranded: bool,
                                    clickAccepted: bool, consistent: bool)
    ensures matchedPairs == 1 && !anyTileMatched
    ensures stranded && !clickAccepted && !consistent
  {
    var game, pending, tile := RestartWhileResolving();
    game.Resolve(pending);
    matchedPairs := game.state.matched;
    anyTileMatched := exists t :: t in game.state.tiles && t.isMatched;
    stranded := tile.isFlipped && !tile.isMatched && tile !in game.state.flipped;
    clickAccepted := game.Accepts(tile);
    assert game.state.MatchedTiles() == {};
    consistent := game.state.Consistent();
  }

  /** The same run with the guarded resolution: the stale callback changes nothing. */
  method StaleResolutionGuarded() returns (matchedPairs: nat, anyTileMatched: bool, stranded: bool,
                                           consistent: bool)
    ensures matchedPairs == 0 && !anyTileMatched
    ensures !stranded && consistent
  {
    var game, pending, tile := RestartWhileResolving();
    game.ResolveGuarded(pending);
    matchedPairs := game.state.matched;
    anyTileMatched := exists t :: t in game.state.tiles && t.isMatched;
    stranded := tile.isFlipped && !tile.isMatched && tile !in game.state.flipped;
    consistent := game.state.Consistent();
  }

  /** Turn up two tiles of a pair, one click each, and let their resolution run. */
  method TurnUpPair(game: MemoryMatchGame, a: Tile, b: Tile)
    requires a != b && a.symbol == b.symbol
    requires game.state.gameActive && !game.state.isChecking && game.state.flipped == []
    requires !a.isFlipped && !a.isMatched && !b.isFlipped && !b.isMatched
    modifies game, game.state, a, b
    ensures a.isFlipped && a.isMatched && b.isFlipped && b.isMatched
    ensures game.state.flipped == [] && !game.state.isChecking
    ensures game.state.matched == old(game.state.matched) + 1 && game.state.moves == old(game.state.moves) + 1
    ensures game.state.tiles == old(game.state.tiles) && game.state.difficulty == old(game.state.difficulty)
    ensures game.state.matched == PairsOf(game.state.difficulty) ==> game.Won()
    ensures game.state.matched != PairsOf(game.state.difficulty) ==> game.state.gameActive
  {
    var ignored := game.HandleTileClick(a);
    var scheduled := game.HandleTileClick(b);
    game.Resolve(scheduled.value);
  }

  /** A new easy game whose board keeps the pushed order: tiles 2j and 2j+1 carry symbol j. */
  method StartEasyInOrder() returns (game: MemoryMatchGame)
    ensures fresh(game) && fresh(game.state)
    ensures |game.state.tiles| == 16 && Distinct(game.state.tiles)
    ensures forall t :: t in game.state.tiles ==> fresh(t)
    ensures forall j :: 0 <= j < 8 ==>
      game.state.tiles[2 * j].symbol == SYMBOLS[j] && game.state.tiles[2 * j + 1].symbol == SYMBOLS[j]
    ensures forall i :: 0 <= i < 16 ==> !game.state.tiles[i].isFlipped && !game.state.tiles[i].isMatched
    ensures game.state.flipped == [] && !game.state.isChecking && game.state.gameActive
    ensures game.state.matched == 0 && game.state.moves == 0 && game.state.difficulty == Easy
  {
    game := new MemoryMatchGame();
    game.SelectDifficulty(Easy);
    game.StartGame([]);
    DoubledContents(SYMBOLS[..8]);
    ghost var tiles := game.state.tiles;
    forall j | 0 <= j < 8
      ensures tiles[2 * j].symbol == SYMBOLS[j] && tiles[2 * j + 1].symbol == SYMBOLS[j]
    {
      assert (2 * j) / 2 == j && (2 * j + 1) / 2 == j;
      assert SymbolsOf(tiles)[2 * j] == tiles[2 * j].symbol;
      assert SymbolsOf(tiles)[2 * j + 1] == tiles[2 * j + 1].symbol;
    }
    forall i | 0 <= i < 16 ensures !tiles[i].isFlipped && !tiles[i].isMatched {
      assert tiles[i] in tiles;
    }
  }

  /**
   * An easy game played without a miss: the pairs are turned up one after the
   * other and each resolution runs before the next click. The eighth match wins:
   * the game is inactive, eight moves were made, every tile is matched and the
   * rating is three stars. A click after the win is rejected and counts no move.
   */
  method PerfectEasyGame() returns (active: bool, matchedPairs: nat, moves: nat, stars: nat,
                                    allMatched: bool, lateClick: Option<Pending>)
    ensures !active && matchedPairs == 8 && moves == 8 && stars == 3 && allMatched
    ensures lateClick == None
  {
    var game := StartEasyInOrder();
    ghost var tiles := game.state.tiles;
    var k := 0;
    while k < 8
      invariant 0 <= k <= 8
      invariant game.state.tiles == tiles && |tiles| == 16 && Distinct(tiles)
      invariant forall t :: t in tiles ==> fresh(t)
      invariant game.state.difficulty == Easy
      invariant forall j :: 0 <= j < 8 ==> tiles[2 * j].symbol == SYMBOLS[j] && tiles[2 * j + 1].symbol == SYMBOLS[j]
      invariant forall i :: 0 <= i < 2 * k ==> tiles[i].isFlipped && tiles[i].isMatched
      invariant forall i :: 2 * k <= i < 16 ==> !tiles[i].isFlipped && !tiles[i].isMatched
      invariant game.state.flipped == [] && !game.state.isChecking
      invariant game.state.matched == k && game.state.moves == k
      invariant game.state.gameActive == (k < 8)
      invariant k == 8 ==> game.Won()
    {
      var a, b := game.state.tiles[2 * k], game.state.tiles[2 * k + 1];
      assert a in tiles && b in tiles && a != b;
      label before:
      TurnUpPair(game, a, b);
      forall i | 0 <= i < 16 && i != 2 * k && i != 2 * k + 1
        ensures tiles[i].FaceOf() == old@before(tiles[i].FaceOf())
      {
        assert tiles[i] != a && tiles[i] != b;
      }
      k := k + 1;
    }
    assert tiles[0] in tiles;
    lateClick := game.HandleTileClick(game.state.tiles[0]);
    active := game.state.gameActive;
    matchedPairs := game.state.matched;
    moves := game.state.moves;
    stars := game.shownRating.value.stars;
    allMatched := forall t | t in game.state.tiles :: t.isMatched;
  }
}
