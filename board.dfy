/**
 * Board generation (script.js:279-303): every symbol of the chosen prefix of the
 * palette is pushed twice, the list is shuffled, and tile `i` gets the `i`-th
 * symbol of the shuffled list.
 */
module Board {
  import opened Config
  import opened Tiles

  /** The symbols of `s`, each written twice in a row: the list before shuffling. */
  function Doubled(s: seq<string>): seq<string>
    decreases |s|
  {
    if s == [] then [] else Doubled(s[..|s| - 1]) + [s[|s| - 1], s[|s| - 1]]
  }

  /** Doubling a list doubles the multiplicity of every symbol and keeps positions in pairs. */
  lemma {:induction false} DoubledContents(s: seq<string>)
    ensures |Doubled(s)| == 2 * |s|
    ensures multiset(Doubled(s)) == multiset(s) + multiset(s)
    ensures forall i :: 0 <= i < |Doubled(s)| ==> Doubled(s)[i] == s[i / 2]
    decreases |s|
  {
    if s != [] {
      var init, last := s[..|s| - 1], s[|s| - 1];
      DoubledContents(init);
      assert s == init + [last];
      var d := Doubled(init);
      assert Doubled(s) == d + [last, last];
      assert multiset(Doubled(s)) == multiset(d) + multiset{last, last};
      forall i | 0 <= i < |Doubled(s)|
        ensures Doubled(s)[i] == s[i / 2]
      {
        if i < |d| {
          assert Doubled(s)[i] == d[i] && init[i / 2] == s[i / 2];
        }
      }
    }
  }

  /** In a list without repetitions every element occurs exactly once. */
  lemma {:induction false} DistinctOccursOnce(s: seq<string>, k: nat)
    requires Distinct(s) && k < |s|
    ensures multiset(s)[s[k]] == 1
    decreases |s|
  {
    var init, last := s[..|s| - 1], s[|s| - 1];
    assert s == init + [last];
    assert Distinct(init);
    if k == |s| - 1 {
      assert last !in init;
    } else {
      assert init[k] == s[k] != last;
      DistinctOccursOnce(init, k);
    }
  }

  /**
   * The first `pairs` palette symbols, each pushed twice: every one of them occurs
   * exactly twice and no other symbol occurs.
   */
  method PairSymbols(pairs: nat) returns (symbols: seq<string>)
    requires pairs <= |SYMBOLS|
    ensures symbols == Doubled(SYMBOLS[..pairs])
    ensures |symbols| == 2 * pairs
    ensures forall k :: 0 <= k < pairs ==> multiset(symbols)[SYMBOLS[k]] == 2
    ensures forall x :: x !in SYMBOLS[..pairs] ==> multiset(symbols)[x] == 0
  {
    symbols := [];
    for i := 0 to pairs
      invariant symbols == Doubled(SYMBOLS[..i])
    {
      assert SYMBOLS[..i + 1][..i] == SYMBOLS[..i];
      symbols := symbols + [SYMBOLS[i], SYMBOLS[i]];
    }
    assert SYMBOLS[..pairs][..pairs] == SYMBOLS[..pairs];
    DoubledContents(SYMBOLS[..pairs]);
    SymbolsDistinct();
    forall k | 0 <= k < pairs
      ensures multiset(symbols)[SYMBOLS[k]] == 2
    {
      assert Distinct(SYMBOLS[..pairs]);
      DistinctOccursOnce(SYMBOLS[..pairs], k);
    }
  }

  /**
   * The shuffle `sort(() => Math.random() - 0.5)`. With an inconsistent comparator
   * the resulting order is left to the JavaScript engine, so the randomness is a
   * parameter: `choices[i] % (i + 1)` is the position at which element `i` is
   * inserted into the list built so far. Every permutation is reached by some
   * choice of positions. Only the permutation property is promised, not the
   * distribution.
   */
  method Shuffle(symbols: seq<string>, choices: seq<nat>) returns (shuffled: seq<string>)
    ensures multiset(shuffled) == multiset(symbols)
    ensures |shuffled| == |symbols|
    ensures choices == [] ==> shuffled == symbols
  {
    shuffled := [];
    for i := 0 to |symbols|
      invariant |shuffled| == i
      invariant multiset(shuffled) == multiset(symbols[..i])
      invariant choices == [] ==> shuffled == symbols[..i]
    {
      var at := if i < |choices| then choices[i] % (i + 1) else i;
      assert shuffled == shuffled[..at] + shuffled[at..];
      assert symbols[..i + 1] == symbols[..i] + [symbols[i]];
      shuffled := shuffled[..at] + [symbols[i]] + shuffled[at..];
    }
    assert symbols[..|symbols|] == symbols;
  }

  /** The symbols of a row of tiles, in order. */
  function SymbolsOf(tiles: seq<Tile>): (s: seq<string>)
    ensures |s| == |tiles|
    ensures forall i :: 0 <= i < |tiles| ==> s[i] == tiles[i].symbol
  {
    seq(|tiles|, i requires 0 <= i < |tiles| => tiles[i].symbol)
  }

  /** One new face-down tile per symbol, numbered by position. */
  method MakeTiles(symbols: seq<string>) returns (tiles: seq<Tile>)
    ensures |tiles| == |symbols| && Distinct(tiles)
    ensures SymbolsOf(tiles) == symbols
    ensures forall i :: 0 <= i < |tiles| ==> tiles[i].id == i
    ensures forall t :: t in tiles ==> fresh(t) && !t.isFlipped && !t.isMatched
  {
    tiles := [];
    for i := 0 to |symbols|
      invariant |tiles| == i && Distinct(tiles)
      invariant forall j :: 0 <= j < i ==> tiles[j].id == j && tiles[j].symbol == symbols[j]
      invariant forall t :: t in tiles ==> fresh(t) && !t.isFlipped && !t.isMatched
    {
      var tile := new Tile(i, symbols[i]);
      tiles := tiles + [tile];
    }
  }
}
