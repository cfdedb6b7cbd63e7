/**
 * The performance rating shown on the win screen (script.js:425-452): a star
 * count and a message chosen by the ratio of moves to the number of pairs.
 * Time is shown beside it but does not enter the rating.
 */
module Rating {

  datatype Rating = Rating(stars: nat, message: string)

  const OUTSTANDING := Rating(3, "Outstanding! Near perfect!")
  const GREAT := Rating(2, "Great job! Well played!")
  const GOOD := Rating(1, "Good effort! Keep practicing!")
  const NICE_TRY := Rating(0, "Nice try! Play again to improve!")

  /**
   * The ladder as written, on the exact ratio `moves / totalPairs`:
   * at most 1.2, at most 1.5, at most 2, otherwise.
   */
  function RateByRatio(ratio: real): (r: Rating)
    ensures r in {OUTSTANDING, GREAT, GOOD, NICE_TRY}
    ensures r.stars == 3 <==> ratio <= 1.2
    ensures r.stars >= 2 <==> ratio <= 1.5
    ensures r.stars >= 1 <==> ratio <= 2.0
  {
    if ratio <= 1.2 then OUTSTANDING
    else if ratio <= 1.5 then GREAT
    else if ratio <= 2.0 then GOOD
    else NICE_TRY
  }

  /**
   * The ladder on integers: each threshold comparison on the ratio is
   * cross-multiplied by the (positive) number of pairs, so
   * ratio <= 1.2, 1.5, 2 become 5*moves <= 6*pairs, 2*moves <= 3*pairs, moves <= 2*pairs.
   */
  function Rate(moves: nat, totalPairs: nat): (r: Rating)
    requires totalPairs > 0
    ensures r == RateByRatio(moves as real / totalPairs as real)
    ensures r.stars <= 3
  {
    RatioThresholds(moves, totalPairs);
    if 5 * moves <= 6 * totalPairs then OUTSTANDING
    else if 2 * moves <= 3 * totalPairs then GREAT
    else if moves <= 2 * totalPairs then GOOD
    else NICE_TRY
  }

  /** Each cross-multiplied comparison agrees with the comparison on the exact ratio. */
  lemma RatioThresholds(moves: nat, totalPairs: nat)
    requires totalPairs > 0
    ensures (moves as real / totalPairs as real <= 1.2) <==> 5 * moves <= 6 * totalPairs
    ensures (moves as real / totalPairs as real <= 1.5) <==> 2 * moves <= 3 * totalPairs
    ensures (moves as real / totalPairs as real <= 2.0) <==> moves <= 2 * totalPairs
  {
    CrossMultiply(moves, totalPairs, 6, 5);
    CrossMultiply(moves, totalPairs, 3, 2);
    CrossMultiply(moves, totalPairs, 2, 1);
  }

  /** m / p <= a / b exactly when b * m <= a * p, for positive p and b. */
  lemma CrossMultiply(m: nat, p: nat, a: nat, b: nat)
    requires p > 0 && b > 0
    ensures (m as real / p as real <= a as real / b as real) <==> b * m <= a * p
  {
    var mr, pr, ar, br := m as real, p as real, a as real, b as real;
    var k := pr * br;
    assert k > 0.0;
    assert (mr / pr) * k == br * mr;
    assert (ar / br) * k == ar * pr;
    ScaleComparison(mr / pr, ar / br, k);
    assert (b * m) as real == br * mr;
    assert (a * p) as real == ar * pr;
  }

  /** Multiplying both sides by a positive number keeps a comparison. */
  lemma ScaleComparison(q: real, c: real, n: real)
    requires n > 0.0
    ensures q <= c <==> q * n <= c * n
  {
    if q * n <= c * n {
      assert (c - q) * n >= 0.0;
    }
  }

  /** More moves for the same board never earn more stars. */
  lemma RateMonotone(moves1: nat, moves2: nat, totalPairs: nat)
    requires totalPairs > 0 && moves1 <= moves2
    ensures Rate(moves2, totalPairs).stars <= Rate(moves1, totalPairs).stars
  {
  }

  /** A game finished with one move per pair, the fewest possible, earns three stars. */
  lemma PerfectGameOutstanding(totalPairs: nat)
    requires totalPairs > 0
    ensures Rate(totalPairs, totalPairs) == OUTSTANDING
  {
  }

  /** Worked cases on the easy board (8 pairs): ratios 1.0, 1.5 and 2.5. */
  lemma EasyBoardExamples()
    ensures Rate(8, 8).stars == 3
    ensures Rate(12, 8).stars == 2
    ensures Rate(16, 8).stars == 1
    ensures Rate(20, 8) == NICE_TRY
  {
  }
}
