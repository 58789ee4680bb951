/**
 * The Kotlin (Firestore) app's rating rule: EloCalculator.kt.
 * K = 20; black's expected and actual scores are one minus white's; the
 * new ratings are truncated toward zero by toInt().
 */
module EloKotlin {
  import opened Numeric

  const K_FACTOR: int := 20

  function WhiteActual(gameResult: string): (s: real)
    ensures gameResult == "1-0" ==> s == 1.0
    ensures gameResult == "0-1" ==> s == 0.0
    ensures gameResult != "1-0" && gameResult != "0-1" ==> s == 0.5
  {
    if gameResult == "1-0" then 1.0 else if gameResult == "0-1" then 0.0 else 0.5
  }

  /** (whiteNew, blackNew): new ratings, not changes. */
  function CalculateNewRatings(E: ExpectedScore, whiteElo: int, blackElo: int, gameResult: string): (r: (int, int))
    ensures Abs(r.0 - whiteElo) <= K_FACTOR && Abs(r.1 - blackElo) <= K_FACTOR
    ensures gameResult == "1-0" ==> r.0 >= whiteElo && r.1 <= blackElo
    ensures gameResult == "0-1" ==> r.0 <= whiteElo && r.1 >= blackElo
  {
    var whiteExpected := E(whiteElo, blackElo);
    var blackExpected := 1.0 - whiteExpected;
    var whiteActual := WhiteActual(gameResult);
    var blackActual := 1.0 - whiteActual;
    var whiteDelta := K_FACTOR as real * (whiteActual - whiteExpected);
    var blackDelta := K_FACTOR as real * (blackActual - blackExpected);
    ToIntShift(whiteElo, whiteDelta, K_FACTOR);
    ToIntShift(blackElo, blackDelta, K_FACTOR);
    (ToInt(whiteElo as real + whiteDelta), ToInt(blackElo as real + blackDelta))
  }

  /** A draw between equal ratings leaves both unchanged. */
  lemma EqualRatingsDraw(E: ExpectedScore, r: int, gameResult: string)
    requires EvenAtEqualRatings(E, r)
    requires gameResult != "1-0" && gameResult != "0-1"
    ensures CalculateNewRatings(E, r, r, gameResult) == (r, r)
  {
    assert 20.0 * (0.5 - 0.5) == 0.0;
    assert 20.0 * ((1.0 - 0.5) - (1.0 - 0.5)) == 0.0;
  }

  /**
   * Because black's scores mirror white's, the two deltas are exact
   * opposites before truncation; for non-negative new ratings the
   * truncation can only lose a point, never create one: the changes sum
   * to 0 or -1.
   */
  lemma NearlyZeroSum(E: ExpectedScore, whiteElo: int, blackElo: int, gameResult: string)
    requires whiteElo >= K_FACTOR && blackElo >= K_FACTOR
    ensures var r := CalculateNewRatings(E, whiteElo, blackElo, gameResult);
            -1 <= (r.0 - whiteElo) + (r.1 - blackElo) <= 0
  {
    var whiteExpected := E(whiteElo, blackElo);
    var whiteActual := WhiteActual(gameResult);
    var d := K_FACTOR as real * (whiteActual - whiteExpected);
    assert K_FACTOR as real * ((1.0 - whiteActual) - (1.0 - whiteExpected)) == -d;
    assert -20.0 <= d <= 20.0;
  }

  /**
   * Performance rating: 0 for no games, average +/- 800 for a perfect or a
   * zero score, otherwise average + trunc(400 log10(p / (1 - p))) with the
   * logarithm as a parameter.
   */
  function CalculatePerformanceRating(opponentAvgRating: int, score: real, games: int, Log10: real -> real): (r: int)
    ensures games == 0 ==> r == 0
    ensures games != 0 && score == games as real ==> r == opponentAvgRating + 800
    ensures games != 0 && score == 0.0 ==> r == opponentAvgRating - 800
  {
    if games == 0 then 0
    else
      var percentage := score / games as real;
      var ratingDiff :=
        if percentage == 1.0 then 800
        else if percentage == 0.0 then -800
        else ToInt(400.0 * Log10(percentage / (1.0 - percentage)));
      opponentAvgRating + ratingDiff
  }
}
