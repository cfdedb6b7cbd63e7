/**
 * Game configuration of the tile-matching memory game: the three difficulty
 * presets and the palette of tile symbols (script.js:17-41).
 */
module Config {

  /** The keys of the difficulty table; the selector on the title screen chooses one. */
  datatype Difficulty = Easy | Medium | Hard

  /** One row of the difficulty table: board grid, number of symbol pairs, display name. */
  datatype Preset = Preset(rows: nat, cols: nat, pairs: nat, name: string)

  /** The difficulty table. */
  function PresetOf(d: Difficulty): (p: Preset)
    ensures 0 < p.pairs <= |SYMBOLS|
    ensures p.pairs * 2 <= p.rows * p.cols
  {
    match d
    case Easy => Preset(4, 4, 8, "Easy")
    case Medium => Preset(5, 5, 12, "Medium")
    case Hard => Preset(6, 6, 18, "Hard")
  }

  /** Number of symbol pairs on the board of difficulty `d`. */
  function PairsOf(d: Difficulty): nat
  {
    PresetOf(d).pairs
  }

  /**
   * The symbol palette: twenty emoji, each a single Unicode code point.
   * Apple, banana, cherries, pizza, gift, balloon, die, guitar,
   * star, moon, sunflower, butterfly, fish, eagle, turtle, octopus,
   * lightning, fire, gem, bullseye.
   */
  const SYMBOLS: seq<string> :=
    ["\U{1F34E}", "\U{1F34C}", "\U{1F352}", "\U{1F355}", "\U{1F381}", "\U{1F388}", "\U{1F3B2}", "\U{1F3B8}",
     "\U{2B50}", "\U{1F319}", "\U{1F33B}", "\U{1F98B}", "\U{1F420}", "\U{1F985}", "\U{1F422}", "\U{1F419}",
     "\U{26A1}", "\U{1F525}", "\U{1F48E}", "\U{1F3AF}"]

  /** No symbol occurs twice in the palette, so the first `n` symbols are `n` distinct tokens. */
  predicate Distinct<T(==)>(s: seq<T>)
  {
    forall i, j :: 0 <= i < j < |s| ==> s[i] != s[j]
  }

  lemma SymbolsDistinct()
    ensures |SYMBOLS| == 20
    ensures Distinct(SYMBOLS)
  {
  }

  /**
   * The grid of the easy and hard presets holds exactly the tiles; the medium
   * grid is 5 x 5 with 12 pairs, so one cell of it stays empty.
   */
  lemma GridCells(d: Difficulty)
    ensures PresetOf(d).rows * PresetOf(d).cols == 2 * PairsOf(d) + (if d == Medium then 1 else 0)
  {
  }
}
