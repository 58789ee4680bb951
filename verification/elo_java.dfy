/**
 * The Android (SQLite) app's rating rule: EloCalculator.java.
 * K = 32, rounding by Math.round, each side's change from its own
 * perspective; results are encoded as an int (1 white wins, 0 draw,
 * -1 black wins, and in fact any positive / zero / negative value).
 */
module EloJava {
  import opened Numeric

  const K_FACTOR: int := 32

  /** round(K * (score - expected)), the change for one side. */
  function CalculateEloChange(E: ExpectedScore, playerRating: int, opponentRating: int, playerScore: real): (change: int)
    ensures 0.0 <= playerScore <= 1.0 ==> -K_FACTOR <= change <= K_FACTOR
    ensures playerScore == 1.0 ==> change >= 0
    ensures playerScore == 0.0 ==> change <= 0
  {
    var expectedScore := E(playerRating, opponentRating);
    MathRound(K_FACTOR as real * (playerScore - expectedScore))
  }

  /** Actual scores (white, black) for the int encoding of a result. */
  function Scores(result: int): (s: (real, real))
    ensures s.0 + s.1 == 1.0
    ensures result > 0 ==> s == (1.0, 0.0)
    ensures result < 0 ==> s == (0.0, 1.0)
    ensures result == 0 ==> s == (0.5, 0.5)
  {
    if result > 0 then (1.0, 0.0)
    else if result < 0 then (0.0, 1.0)
    else (0.5, 0.5)
  }

  /** [whiteEloChange, blackEloChange] for a game. */
  function CalculateEloChanges(E: ExpectedScore, whiteRating: int, blackRating: int, result: int): (changes: (int, int))
    ensures -K_FACTOR <= changes.0 <= K_FACTOR && -K_FACTOR <= changes.1 <= K_FACTOR
    ensures result > 0 ==> changes.0 >= 0 && changes.1 <= 0
    ensures result < 0 ==> changes.0 <= 0 && changes.1 >= 0
  {
    var (whiteScore, blackScore) := Scores(result);
    var whiteEloChange := CalculateEloChange(E, whiteRating, blackRating, whiteScore);
    var blackEloChange := CalculateEloChange(E, blackRating, whiteRating, blackScore);
    (whiteEloChange, blackEloChange)
  }

  /**
   * Each side's change depends only on that side's own expected score:
   * two expected-score functions that agree on (white, black) give white
   * the same change, whatever they say about (black, white).
   */
  lemma ChangesAreIndependent(E1: ExpectedScore, E2: ExpectedScore, whiteRating: int, blackRating: int, result: int)
    ensures E1(whiteRating, blackRating) == E2(whiteRating, blackRating) ==>
      CalculateEloChanges(E1, whiteRating, blackRating, result).0 == CalculateEloChanges(E2, whiteRating, blackRating, result).0
    ensures E1(blackRating, whiteRating) == E2(blackRating, whiteRating) ==>
      CalculateEloChanges(E1, whiteRating, blackRating, result).1 == CalculateEloChanges(E2, whiteRating, blackRating, result).1
  {
  }

  /**
   * The two changes are not forced to cancel: with complementary expected
   * scores 0.484375 / 0.515625 a white win gives +17 to white but only -16
   * to black, because 16.5 rounds up and -16.5 rounds up too.
   */
  lemma ChangesNeedNotCancel(E: ExpectedScore, whiteRating: int, blackRating: int)
    requires E(whiteRating, blackRating) == 0.484375 && E(blackRating, whiteRating) == 0.515625
    ensures CalculateEloChanges(E, whiteRating, blackRating, 1) == (17, -16)
  {
    assert 32.0 * (1.0 - 0.484375) + 0.5 == 17.0;
    assert 32.0 * (0.0 - 0.515625) + 0.5 == -16.0;
  }

  /** Equal ratings: a win is worth +16 / -16 and a draw 0 / 0. */
  lemma EqualRatings(E: ExpectedScore, r: int)
    requires EvenAtEqualRatings(E, r)
    ensures CalculateEloChanges(E, r, r, 1) == (16, -16)
    ensures CalculateEloChanges(E, r, r, -1) == (-16, 16)
    ensures CalculateEloChanges(E, r, r, 0) == (0, 0)
  {
    assert 32.0 * (1.0 - 0.5) + 0.5 == 16.5;
    assert 32.0 * (0.0 - 0.5) + 0.5 == -15.5;
    assert 32.0 * (0.5 - 0.5) + 0.5 == 0.5;
  }

  /** "+n" for a gain, the plain integer for zero and for a loss. */
  function GetChangeDescription(change: int): (s: string)
    ensures |s| >= 1
    ensures s[0] == '+' <==> change > 0
    ensures s[0] == '-' <==> change < 0
  {
    if change > 0 then "+" + DecimalString(change) else DecimalString(change)
  }

  /** The description reads back to the change it describes. */
  lemma ChangeDescriptionReadsBack(change: int)
    ensures var s := GetChangeDescription(change);
            var digits := if s[0] == '+' then s[1..] else s;
            DecimalParsable(digits) && ParseDecimal(digits) == change
  {
    DecimalRoundTrip(change);
    if change > 0 {
      assert GetChangeDescription(change)[1..] == DecimalString(change);
    }
  }

  /**
   * Provisional rating after gamesPlayed games: the initial rating for no
   * games, then a blend moving linearly toward the performance rating and
   * reaching it at 20 games, after which the weight stays at 1.
   */
  function CalculateProvisionalElo(initialElo: int, performanceRating: int, gamesPlayed: int): (elo: int)
    ensures gamesPlayed <= 0 ==> elo == initialElo
    ensures gamesPlayed >= 20 ==> elo == performanceRating
    ensures initialElo <= performanceRating ==> initialElo <= elo <= performanceRating
    ensures performanceRating <= initialElo ==> performanceRating <= elo <= initialElo
  {
    if gamesPlayed <= 0 then
      initialElo
    else
      var weight := Min(gamesPlayed as real / 20.0, 1.0);
      var blended := Blend(initialElo, performanceRating, weight);
      BlendBetween(initialElo, performanceRating, weight);
      if initialElo <= performanceRating then
        MathRoundBetween(blended, initialElo, performanceRating);
        MathRound(blended)
      else
        MathRoundBetween(blended, performanceRating, initialElo);
        MathRound(blended)
  }

  /** a * (1 - w) + b * w. */
  function Blend(a: int, b: int, w: real): real {
    a as real * (1.0 - w) + b as real * w
  }

  lemma BlendBetween(a: int, b: int, w: real)
    requires 0.0 <= w <= 1.0
    ensures var x := Blend(a, b, w);
            (a <= b ==> a as real <= x <= b as real) && (b <= a ==> b as real <= x <= a as real)
            && (w == 1.0 ==> x == b as real)
  {
    var x := Blend(a, b, w);
    assert x == a as real + (b - a) as real * w;
    if a <= b {
      assert 0.0 <= (b - a) as real * w <= (b - a) as real;
    } else {
      assert (b - a) as real <= (b - a) as real * w <= 0.0;
    }
  }
}
