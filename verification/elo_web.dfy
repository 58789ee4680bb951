/**
 * The web client's rating rule and performance rating:
 * web/src/utils/eloCalculator.js. K = 20, Math.round.
 */
module EloWeb {
  import opened Numeric

  const K: int := 20

  datatype EloResult = EloResult(whiteNewElo: int, blackNewElo: int, whiteEloDiff: int, blackEloDiff: int)

  function ActualScores(gameResult: string): (s: (real, real))
    ensures s.0 + s.1 == 1.0
    ensures gameResult == "1-0" ==> s == (1.0, 0.0)
    ensures gameResult == "0-1" ==> s == (0.0, 1.0)
    ensures gameResult != "1-0" && gameResult != "0-1" ==> s == (0.5, 0.5)
  {
    if gameResult == "1-0" then (1.0, 0.0)
    else if gameResult == "0-1" then (0.0, 1.0)
    else (0.5, 0.5)
  }

  /** Ratings are numbers here (Number(...) of the stored value). */
  function CalculateElo(E: ExpectedScore, whiteElo: int, blackElo: int, gameResult: string): (r: EloResult)
    ensures r.whiteNewElo == whiteElo + r.whiteEloDiff
    ensures r.blackNewElo == blackElo + r.blackEloDiff
    ensures -K <= r.whiteEloDiff <= K && -K <= r.blackEloDiff <= K
    ensures gameResult == "1-0" ==> r.whiteEloDiff >= 0 && r.blackEloDiff <= 0
    ensures gameResult == "0-1" ==> r.whiteEloDiff <= 0 && r.blackEloDiff >= 0
  {
    var whiteExpected := E(whiteElo, blackElo);
    var blackExpected := E(blackElo, whiteElo);
    var (whiteActual, blackActual) := ActualScores(gameResult);
    var whiteEloDiff := MathRound(K as real * (whiteActual - whiteExpected));
    var blackEloDiff := MathRound(K as real * (blackActual - blackExpected));
    EloResult(whiteElo + whiteEloDiff, blackElo + blackEloDiff, whiteEloDiff, blackEloDiff)
  }

  /** Equal ratings: a draw changes nothing, a decisive game is worth 10 points. */
  lemma EqualRatings(E: ExpectedScore, r: int, gameResult: string)
    requires EvenAtEqualRatings(E, r)
    ensures gameResult != "1-0" && gameResult != "0-1" ==>
      CalculateElo(E, r, r, gameResult) == EloResult(r, r, 0, 0)
    ensures CalculateElo(E, r, r, "1-0") == EloResult(r + 10, r - 10, 10, -10)
    ensures CalculateElo(E, r, r, "0-1") == EloResult(r - 10, r + 10, -10, 10)
  {
    assert 20.0 * (1.0 - 0.5) + 0.5 == 10.5;
    assert 20.0 * (0.0 - 0.5) + 0.5 == -9.5;
    assert 20.0 * (0.5 - 0.5) + 0.5 == 0.5;
  }

  // ----- performance rating -----

  /** Left fold of +, as Array.prototype.reduce((sum, x) => sum + x, 0). */
  function Sum(s: seq<real>): real {
    if s == [] then 0.0 else Sum(s[..|s| - 1]) + s[|s| - 1]
  }

  function Ratings(s: seq<int>): (r: seq<real>)
    ensures |r| == |s| && forall i :: 0 <= i < |s| ==> r[i] == s[i] as real
  {
    seq(|s|, i requires 0 <= i < |s| => s[i] as real)
  }

  function Average(opponentRatings: seq<int>): real
    requires |opponentRatings| > 0
  {
    Sum(Ratings(opponentRatings)) / |opponentRatings| as real
  }

  predicate AllEqual(s: seq<real>, v: real) {
    forall i :: 0 <= i < |s| ==> s[i] == v
  }

  lemma {:induction false} SumConstant(s: seq<real>, v: real)
    ensures AllEqual(s, v) ==> Sum(s) == |s| as real * v
  {
    if s != [] && AllEqual(s, v) {
      SumConstant(s[..|s| - 1], v);
    }
  }

  /**
   * R_avg - 400 log10((1 - P) / P), rounded; guarded for an empty or
   * mismatched input (0) and for P = 0 or P = 1 (average -/+ 400, not
   * rounded). The logarithm is a parameter.
   */
  function CalculatePerformanceRating(opponentRatings: seq<int>, results: seq<real>, Log10: real -> real): (r: real)
    ensures |opponentRatings| == 0 || |opponentRatings| != |results| ==> r == 0.0
    ensures 0 < |opponentRatings| == |results| && AllEqual(results, 0.0) ==> r == Average(opponentRatings) - 400.0
    ensures 0 < |opponentRatings| == |results| && AllEqual(results, 1.0) ==> r == Average(opponentRatings) + 400.0
  {
    if |opponentRatings| == 0 || |opponentRatings| != |results| then
      0.0
    else
      var avgRating := Average(opponentRatings);
      var score := Sum(results);
      var performance := score / |results| as real;
      SumConstant(results, 0.0);
      SumConstant(results, 1.0);
      if performance == 0.0 then avgRating - 400.0
      else if performance == 1.0 then avgRating + 400.0
      else
        var diff := -400.0 * Log10((1.0 - performance) / performance);
        MathRound(avgRating + diff) as real
  }
}
