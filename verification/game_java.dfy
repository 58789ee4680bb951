/**
 * The Android (SQLite) app's game: model/Game.java.
 * Setters change a Game object in place; the outcome queries are pure and
 * are stated on GameRecord, the value of a Game (and of a games-table row).
 * A Java null result is None; the date is a timestamp in milliseconds.
 */
module GameJava {
  import opened Wrappers
  import PlayerJava

  datatype Result = WhiteWin | BlackWin | Draw

  /** The int encoding of EloCalculator.calculateEloChanges: 1, -1, 0. */
  function ResultSign(r: Result): (sign: int)
    ensures r == WhiteWin <==> sign > 0
    ensures r == BlackWin <==> sign < 0
    ensures r == Draw <==> sign == 0
  {
    match r
    case WhiteWin => 1
    case BlackWin => -1
    case Draw => 0
  }

  /** What a result means for white, and for black. */
  function WhiteOutcome(r: Result): PlayerJava.Outcome {
    match r
    case WhiteWin => PlayerJava.Won
    case BlackWin => PlayerJava.Lost
    case Draw => PlayerJava.Drew
  }

  function BlackOutcome(r: Result): PlayerJava.Outcome {
    match r
    case WhiteWin => PlayerJava.Lost
    case BlackWin => PlayerJava.Won
    case Draw => PlayerJava.Drew
  }

  /** A decisive result is a win for one side and a loss for the other; a draw is a draw for both. */
  lemma OutcomesMirror(r: Result)
    ensures WhiteOutcome(r) == PlayerJava.Won <==> BlackOutcome(r) == PlayerJava.Lost
    ensures WhiteOutcome(r) == PlayerJava.Lost <==> BlackOutcome(r) == PlayerJava.Won
    ensures WhiteOutcome(r) == PlayerJava.Drew <==> BlackOutcome(r) == PlayerJava.Drew
    ensures WhiteOutcome(r) != BlackOutcome(r) <==> r != Draw
  {
  }

  datatype GameRecord = GameRecord(
    id: int, whitePlayerId: int, blackPlayerId: int, result: Option<Result>,
    date: int, whiteEloChange: int, blackEloChange: int)
  {
    /** The winner's id, or -1 for a draw (a null result throws, hence the requires). */
    function GetWinnerId(): (winner: int)
      requires result.Some?
      ensures result.value == WhiteWin ==> winner == whitePlayerId
      ensures result.value == BlackWin ==> winner == blackPlayerId
      ensures result.value == Draw ==> winner == -1
    {
      match result.value
      case WhiteWin => whitePlayerId
      case BlackWin => blackPlayerId
      case Draw => -1
    }

    /** The loser's id, or -1 for a draw. */
    function GetLoserId(): (loser: int)
      requires result.Some?
      ensures result.value == WhiteWin ==> loser == blackPlayerId
      ensures result.value == BlackWin ==> loser == whitePlayerId
      ensures result.value == Draw ==> loser == -1
    {
      match result.value
      case WhiteWin => blackPlayerId
      case BlackWin => whitePlayerId
      case Draw => -1
    }

    predicate PlayerWon(playerId: int) {
      (result == Some(WhiteWin) && playerId == whitePlayerId) ||
      (result == Some(BlackWin) && playerId == blackPlayerId)
    }

    predicate PlayerLost(playerId: int) {
      (result == Some(WhiteWin) && playerId == blackPlayerId) ||
      (result == Some(BlackWin) && playerId == whitePlayerId)
    }

    predicate IsDraw() {
      result == Some(Draw)
    }

    /** The stored change of a participant (white first), 0 for anyone else. */
    function GetEloChangeForPlayer(playerId: int): (change: int)
      ensures playerId == whitePlayerId ==> change == whiteEloChange
      ensures playerId != whitePlayerId && playerId == blackPlayerId ==> change == blackEloChange
      ensures playerId != whitePlayerId && playerId != blackPlayerId ==> change == 0
    {
      if playerId == whitePlayerId then whiteEloChange
      else if playerId == blackPlayerId then blackEloChange
      else 0
    }
  }

  /**
   * playerWon / playerLost agree with the winner and loser ids: a player
   * won exactly when the game is decisive and the player is its winner,
   * and lost exactly when it is decisive and the player is its loser.
   */
  lemma WonMeansWinner(g: GameRecord, playerId: int)
    requires g.result.Some?
    ensures g.PlayerWon(playerId) <==> !g.IsDraw() && playerId == g.GetWinnerId()
    ensures g.PlayerLost(playerId) <==> !g.IsDraw() && playerId == g.GetLoserId()
  {
  }

  /** On a draw nobody won or lost, and there is no winner or loser id. */
  lemma DrawHasNoWinner(g: GameRecord, playerId: int)
    requires g.IsDraw()
    ensures !g.PlayerWon(playerId) && !g.PlayerLost(playerId)
    ensures g.GetWinnerId() == -1 && g.GetLoserId() == -1
  {
  }

  /** Between two different players, nobody both won and lost. */
  lemma WonAndLostExclusive(g: GameRecord, playerId: int)
    requires g.whitePlayerId != g.blackPlayerId
    ensures !(g.PlayerWon(playerId) && g.PlayerLost(playerId))
  {
  }

  /** A game against oneself both won and lost: white != black is needed. */
  lemma SelfGameWonAndLost(g: GameRecord)
    requires g.whitePlayerId == g.blackPlayerId && g.result == Some(WhiteWin)
    ensures g.PlayerWon(g.whitePlayerId) && g.PlayerLost(g.whitePlayerId)
  {
  }

  /** A decisive game between two players: one of them won, the other lost. */
  lemma DecisiveOneWinnerOneLoser(g: GameRecord)
    requires g.whitePlayerId != g.blackPlayerId
    requires g.result == Some(WhiteWin) || g.result == Some(BlackWin)
    ensures g.PlayerWon(g.whitePlayerId) != g.PlayerWon(g.blackPlayerId)
    ensures g.PlayerLost(g.whitePlayerId) == g.PlayerWon(g.blackPlayerId)
    ensures g.PlayerLost(g.blackPlayerId) == g.PlayerWon(g.whitePlayerId)
    ensures g.GetWinnerId() != g.GetLoserId()
  {
  }

  /** The outcome the ledger records for each side agrees with the queries. */
  lemma OutcomesAgreeWithQueries(g: GameRecord)
    requires g.whitePlayerId != g.blackPlayerId && g.result.Some?
    ensures WhiteOutcome(g.result.value) == PlayerJava.Won <==> g.PlayerWon(g.whitePlayerId)
    ensures WhiteOutcome(g.result.value) == PlayerJava.Lost <==> g.PlayerLost(g.whitePlayerId)
    ensures BlackOutcome(g.result.value) == PlayerJava.Won <==> g.PlayerWon(g.blackPlayerId)
    ensures BlackOutcome(g.result.value) == PlayerJava.Lost <==> g.PlayerLost(g.blackPlayerId)
    ensures WhiteOutcome(g.result.value) == PlayerJava.Drew <==> g.IsDraw()
  {
  }

  class Game {
    var id: int
    var whitePlayerId: int
    var blackPlayerId: int
    var result: Option<Result>
    var date: int
    var whiteEloChange: int
    var blackEloChange: int

    function Record(): (r: GameRecord)
      reads this
      ensures r.id == id && r.result == result
      ensures r.whitePlayerId == whitePlayerId && r.blackPlayerId == blackPlayerId
      ensures r.whiteEloChange == whiteEloChange && r.blackEloChange == blackEloChange
    {
      GameRecord(id, whitePlayerId, blackPlayerId, result, date, whiteEloChange, blackEloChange)
    }

    /** The default constructor stamps the current time; everything else is zero or null. */
    constructor (now: int)
      ensures Record() == GameRecord(0, 0, 0, None, now, 0, 0)
    {
      id, whitePlayerId, blackPlayerId := 0, 0, 0;
      result := None;
      date := now;
      whiteEloChange, blackEloChange := 0, 0;
    }

    constructor FromRecord(r: GameRecord)
      ensures Record() == r
    {
      id, whitePlayerId, blackPlayerId := r.id, r.whitePlayerId, r.blackPlayerId;
      result, date := r.result, r.date;
      whiteEloChange, blackEloChange := r.whiteEloChange, r.blackEloChange;
    }

    method SetId(id: int)
      modifies this
      ensures Record() == old(Record()).(id := id)
    {
      this.id := id;
    }

    method SetWhitePlayerId(whitePlayerId: int)
      modifies this
      ensures Record() == old(Record()).(whitePlayerId := whitePlayerId)
    {
      this.whitePlayerId := whitePlayerId;
    }

    method SetBlackPlayerId(blackPlayerId: int)
      modifies this
      ensures Record() == old(Record()).(blackPlayerId := blackPlayerId)
    {
      this.blackPlayerId := blackPlayerId;
    }

    method SetResult(result: Result)
      modifies this
      ensures Record() == old(Record()).(result := Some(result))
    {
      this.result := Some(result);
    }

    method SetDate(date: int)
      modifies this
      ensures Record() == old(Record()).(date := date)
    {
      this.date := date;
    }

    method SetWhiteEloChange(whiteEloChange: int)
      modifies this
      ensures Record() == old(Record()).(whiteEloChange := whiteEloChange)
    {
      this.whiteEloChange := whiteEloChange;
    }

    method SetBlackEloChange(blackEloChange: int)
      modifies this
      ensures Record() == old(Record()).(blackEloChange := blackEloChange)
    {
      this.blackEloChange := blackEloChange;
    }
  }
}
