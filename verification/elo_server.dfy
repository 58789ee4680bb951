/**
 * The Node server's rating rule: server/utils/eloCalculator.js.
 * K = 32, Math.round, results as the strings '1-0', '0-1' and anything
 * else (a draw).
 */
module EloServer {
  import opened Numeric

  const K: int := 32

  datatype NewRatings = NewRatings(whiteNewElo: int, blackNewElo: int, whiteEloChange: int, blackEloChange: int)

  /** Actual scores (white, black) for a result string. */
  function ActualScores(gameResult: string): (s: (real, real))
    ensures s.0 + s.1 == 1.0
    ensures gameResult == "1-0" ==> s == (1.0, 0.0)
    ensures gameResult == "0-1" ==> s == (0.0, 1.0)
    ensures gameResult != "1-0" && gameResult != "0-1" ==> s == (0.5, 0.5)
  {
    if gameResult == "1-0" then (1.0, 0.0)
    else if gameResult == "0-1" then (0.0, 1.0)
    else (0.5, 0.5)
  }

  function CalculateNewRatings(E: ExpectedScore, whiteElo: int, blackElo: int, gameResult: string): (r: NewRatings)
    ensures r.whiteNewElo == whiteElo + r.whiteEloChange
    ensures r.blackNewElo == blackElo + r.blackEloChange
    ensures -K <= r.whiteEloChange <= K && -K <= r.blackEloChange <= K
    ensures gameResult == "1-0" ==> r.whiteEloChange >= 0 && r.blackEloChange <= 0
    ensures gameResult == "0-1" ==> r.whiteEloChange <= 0 && r.blackEloChange >= 0
  {
    var expectedWhite := E(whiteElo, blackElo);
    var expectedBlack := E(blackElo, whiteElo);
    var (actualWhite, actualBlack) := ActualScores(gameResult);
    var whiteEloChange := MathRound(K as real * (actualWhite - expectedWhite));
    var blackEloChange := MathRound(K as real * (actualBlack - expectedBlack));
    NewRatings(whiteElo + whiteEloChange, blackElo + blackEloChange, whiteEloChange, blackEloChange)
  }

  /** Equal ratings: a draw changes nothing, '1-0' is +16 / -16, '0-1' is -16 / +16. */
  lemma EqualRatings(E: ExpectedScore, r: int, gameResult: string)
    requires EvenAtEqualRatings(E, r)
    ensures gameResult != "1-0" && gameResult != "0-1" ==>
      CalculateNewRatings(E, r, r, gameResult) == NewRatings(r, r, 0, 0)
    ensures CalculateNewRatings(E, r, r, "1-0") == NewRatings(r + 16, r - 16, 16, -16)
    ensures CalculateNewRatings(E, r, r, "0-1") == NewRatings(r - 16, r + 16, -16, 16)
  {
    assert 32.0 * (1.0 - 0.5) + 0.5 == 16.5;
    assert 32.0 * (0.0 - 0.5) + 0.5 == -15.5;
    assert 32.0 * (0.5 - 0.5) + 0.5 == 0.5;
  }

  /**
   * Each side's change uses only its own expected score: expected-score
   * functions that agree on one side's perspective give that side the
   * same change.
   */
  lemma ChangesAreIndependent(E1: ExpectedScore, E2: ExpectedScore, whiteElo: int, blackElo: int, gameResult: string)
    ensures E1(whiteElo, blackElo) == E2(whiteElo, blackElo) ==>
      CalculateNewRatings(E1, whiteElo, blackElo, gameResult).whiteEloChange ==
      CalculateNewRatings(E2, whiteElo, blackElo, gameResult).whiteEloChange
    ensures E1(blackElo, whiteElo) == E2(blackElo, whiteElo) ==>
      CalculateNewRatings(E1, whiteElo, blackElo, gameResult).blackEloChange ==
      CalculateNewRatings(E2, whiteElo, blackElo, gameResult).blackEloChange
  {
  }
}
