/**
 * One cell of the board (script.js:151-221): its position, its symbol and the
 * two flags `isFlipped` and `isMatched`, with the transitions between them.
 * The DOM element and its CSS classes are not modelled.
 */
module Tiles {

  /** The two flags of a tile, as a value. */
  datatype Face = Face(flipped: bool, matched: bool)

  const FACE_DOWN := Face(false, false)

  /** The transitions a tile offers. */
  datatype TileOp = FlipOp | UnflipOp | MarkMatchedOp | ResetOp

  /**
   * The effect of one transition on the flags:
   * `flip` turns up a tile that is neither up nor matched,
   * `unflip` turns down a tile that is up and not matched,
   * `markMatched` sets `isMatched` whatever the tile shows,
   * `reset` clears both flags.
   */
  function Step(f: Face, op: TileOp): (r: Face)
    ensures op != ResetOp ==> r.matched == (f.matched || op == MarkMatchedOp)
    ensures op != MarkMatchedOp && op != ResetOp && f.matched ==> r == f
    ensures op == FlipOp && !f.matched ==> r.flipped
    ensures op == UnflipOp && !f.matched ==> !r.flipped
  {
    match op
    case FlipOp => if f.flipped || f.matched then f else f.(flipped := true)
    case UnflipOp => if !f.flipped || f.matched then f else f.(flipped := false)
    case MarkMatchedOp => f.(matched := true)
    case ResetOp => FACE_DOWN
  }

  /** The flags after a sequence of transitions, applied left to right. */
  function Run(f: Face, ops: seq<TileOp>): Face
    decreases |ops|
  {
    if ops == [] then f else Run(Step(f, ops[0]), ops[1..])
  }

  /** Matched is terminal: no transition other than `reset` changes a matched tile. */
  lemma MatchedStepIsIdentity(f: Face, op: TileOp)
    requires f.matched && op != ResetOp
    ensures Step(f, op) == f
  {
  }

  /**
   * However many flips, unflips and match marks follow, a matched tile keeps both
   * flags; in particular a matched face-up tile is never turned face-down again.
   */
  lemma {:induction false} MatchedStaysPut(f: Face, ops: seq<TileOp>)
    requires f.matched
    requires ResetOp !in ops
    ensures Run(f, ops) == f
    decreases |ops|
  {
    if ops != [] {
      MatchedStepIsIdentity(f, ops[0]);
      assert ResetOp !in ops[1..] by {
        assert forall k :: 0 <= k < |ops[1..]| ==> ops[1..][k] == ops[k + 1];
      }
      MatchedStaysPut(f, ops[1..]);
    }
  }

  /** Flip and unflip never change `isMatched`, and flipping a face-down tile shows it. */
  lemma FlipUnflipKeepMatched(f: Face)
    ensures Step(f, FlipOp).matched == f.matched && Step(f, UnflipOp).matched == f.matched
    ensures !f.flipped && !f.matched ==> Step(f, FlipOp) == Face(true, false)
    ensures f.flipped && !f.matched ==> Step(f, UnflipOp) == FACE_DOWN
  {
  }

  /** "A matched tile is face up": the flips keep it, and so does marking a face-up tile. */
  predicate ShownIfMatched(f: Face)
  {
    f.matched ==> f.flipped
  }

  /**
   * Any run of flips, unflips and resets, with `markMatched` applied only to
   * face-up tiles (as the game does), keeps "matched implies face up".
   */
  lemma {:induction false} RunKeepsShownIfMatched(f: Face, ops: seq<TileOp>)
    requires ShownIfMatched(f)
    requires forall k :: 0 <= k < |ops| && ops[k] == MarkMatchedOp ==> Run(f, ops[..k]).flipped
    ensures ShownIfMatched(Run(f, ops))
    decreases |ops|
  {
    if ops != [] {
      var g := Step(f, ops[0]);
      assert ops[..0] == [];
      assert ShownIfMatched(g);
      forall k | 0 <= k < |ops[1..]| && ops[1..][k] == MarkMatchedOp
        ensures Run(g, ops[1..][..k]).flipped
      {
        assert ops[..k + 1] == [ops[0]] + ops[1..][..k];
        assert Run(f, ops[..k + 1]) == Run(g, ops[1..][..k]);
      }
      RunKeepsShownIfMatched(g, ops[1..]);
    }
  }

  /** A tile object; `id` and `symbol` are fixed at construction, the flags change. */
  class Tile {
    const id: nat
    const symbol: string
    var isFlipped: bool
    var isMatched: bool

    /** A new tile is face down and unmatched. */
    constructor (id: nat, symbol: string)
      ensures this.id == id && this.symbol == symbol
      ensures !isFlipped && !isMatched
    {
      this.id := id;
      this.symbol := symbol;
      isFlipped := false;
      isMatched := false;
    }

    function FaceOf(): Face
      reads this
    {
      Face(isFlipped, isMatched)
    }

    /** Turn the tile up, unless it is already up or matched. */
    method Flip()
      modifies this
      ensures FaceOf() == Step(old(FaceOf()), FlipOp)
      ensures old(isFlipped || isMatched) ==> isFlipped == old(isFlipped) && isMatched == old(isMatched)
      ensures !old(isFlipped || isMatched) ==> isFlipped && !isMatched
    {
      if isFlipped || isMatched {
        return;
      }
      isFlipped := true;
    }

    /** Turn the tile down, unless it is already down or matched. */
    method Unflip()
      modifies this
      ensures FaceOf() == Step(old(FaceOf()), UnflipOp)
      ensures old(!isFlipped || isMatched) ==> isFlipped == old(isFlipped) && isMatched == old(isMatched)
      ensures old(isFlipped && !isMatched) ==> !isFlipped && !isMatched
    {
      if !isFlipped || isMatched {
        return;
      }
      isFlipped := false;
    }

    /** Mark the tile matched; its face-up flag is left as it was. */
    method MarkMatched()
      modifies this
      ensures FaceOf() == Step(old(FaceOf()), MarkMatchedOp)
      ensures isMatched && isFlipped == old(isFlipped)
    {
      isMatched := true;
    }

    /** Clear both flags. */
    method Reset()
      modifies this
      ensures FaceOf() == Step(old(FaceOf()), ResetOp)
      ensures !isFlipped && !isMatched
    {
      isFlipped := false;
      isMatched := false;
    }
  }
}
