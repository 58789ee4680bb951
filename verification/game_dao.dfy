/**
 * database/GameDao.java: deleteGame and the transactional
 * recordGameWithEloUpdate. The expected score is the parameter E; the
 * clock reading is the parameter now; whether SQLite's insert of the game
 * row succeeds is the parameter insertSucceeds.
 */
module GameDao {
  import opened Numeric
  import Wrappers
  import opened PlayerJava
  import opened GameJava
  import opened SqliteDb
  import EloJava
  import PlayerDao

  /** DELETE FROM games WHERE id = gameId; the number of rows removed. */
  method DeleteGame(db: Database, gameId: int) returns (rowsAffected: int)
    requires db.Valid()
    modifies db
    ensures db.Valid()
    ensures rowsAffected == if gameId in old(db.games) then 1 else 0
    ensures db.games == old(db.games) - {gameId}
    ensures db.players == old(db.players) && db.nextGameId == old(db.nextGameId)
  {
    rowsAffected := if gameId in db.games then 1 else 0;
    db.games := db.games - {gameId};
  }

  /** UPDATE players SET elo, games_played, wins, losses, draws WHERE id = p.id; other columns are kept. */
  method WriteStats(db: Database, p: Player)
    requires db.Valid()
    modifies db
    ensures db.Valid()
    ensures p.id in old(db.players) ==>
      db.players == old(db.players)[p.id := old(db.players)[p.id].(elo := p.elo, gamesPlayed := p.gamesPlayed,
                                                                  wins := p.wins, losses := p.losses, draws := p.draws)]
    ensures p.id !in old(db.players) ==> db.players == old(db.players)
    ensures db.games == old(db.games) && db.nextGameId == old(db.nextGameId)
  {
    if p.id in db.players {
      var row := db.players[p.id];
      db.players := db.players[p.id := row.(elo := p.elo, gamesPlayed := p.gamesPlayed,
                                            wins := p.wins, losses := p.losses, draws := p.draws)];
    }
  }

  /**
   * The changes as recordGameWithEloUpdate computes them inline: scores
   * from a switch on the enum, each side's expected score from its own
   * perspective, K = 32, Math.round. They are exactly the changes
   * EloCalculator.calculateEloChanges gives for the int encoding.
   */
  method InlineEloChanges(E: ExpectedScore, whiteElo: int, blackElo: int, result: Result)
    returns (whiteEloChange: int, blackEloChange: int)
    ensures (whiteEloChange, blackEloChange) == EloJava.CalculateEloChanges(E, whiteElo, blackElo, ResultSign(result))
  {
    var whiteScore: real, blackScore: real;
    match result {
      case WhiteWin => whiteScore, blackScore := 1.0, 0.0;
      case BlackWin => whiteScore, blackScore := 0.0, 1.0;
      case Draw => whiteScore, blackScore := 0.5, 0.5;
    }
    assert (whiteScore, blackScore) == EloJava.Scores(ResultSign(result));
    var whiteExpected := E(whiteElo, blackElo);
    var blackExpected := E(blackElo, whiteElo);
    var kFactor := 32;
    whiteEloChange := MathRound(kFactor as real * (whiteScore - whiteExpected));
    blackEloChange := MathRound(kFactor as real * (blackScore - blackExpected));
  }

  /** One more game, the rating moved by eloChange, and the outcome's counter raised by one. */
  method RecordForPlayer(p: Player, eloChange: int, outcome: Outcome)
    modifies p
    ensures p.Record() == AppliedGame(old(p.Record()), eloChange, outcome)
  {
    p.IncrementGamesPlayed();
    p.SetElo(p.elo + eloChange);
    match outcome {
      case Won => p.IncrementWins();
      case Lost => p.IncrementLosses();
      case Drew => p.IncrementDraws();
    }
  }

  /** The row recordGameWithEloUpdate stores: the changes calculateEloChanges gives for the pre-game ratings. */
  function RecordedGame(players: PlayerTable, E: ExpectedScore, gameId: int, whitePlayerId: int, blackPlayerId: int,
                        result: Result, now: int): (g: GameRecord)
    requires whitePlayerId in players && blackPlayerId in players
    ensures g.id == gameId && g.whitePlayerId == whitePlayerId && g.blackPlayerId == blackPlayerId
    ensures g.result == Wrappers.Some(result) && g.date == now
    ensures -EloJava.K_FACTOR <= g.whiteEloChange <= EloJava.K_FACTOR && -EloJava.K_FACTOR <= g.blackEloChange <= EloJava.K_FACTOR
    ensures result == WhiteWin ==> g.whiteEloChange >= 0 && g.blackEloChange <= 0
    ensures result == BlackWin ==> g.whiteEloChange <= 0 && g.blackEloChange >= 0
  {
    var changes := EloJava.CalculateEloChanges(E, players[whitePlayerId].elo, players[blackPlayerId].elo, ResultSign(result));
    GameRecord(gameId, whitePlayerId, blackPlayerId, Wrappers.Some(result), now, changes.0, changes.1)
  }

  /**
   * Records a game and updates both players inside one transaction.
   * Returns the new game id, or -1 (and changes nothing) when a player is
   * unknown or the insert fails. On success the stored changes are the
   * ones EloCalculator.calculateEloChanges gives for the pre-game ratings,
   * and each player's row has gone through AppliedGame with its own
   * stored change.
   */
  method RecordGameWithEloUpdate(db: Database, E: ExpectedScore, whitePlayerId: int, blackPlayerId: int,
                                 result: Result, now: int, insertSucceeds: bool) returns (gameId: int)
    requires db.Valid()
    modifies db
    ensures db.Valid()
    ensures gameId == -1 <==> whitePlayerId !in old(db.players) || blackPlayerId !in old(db.players) || !insertSucceeds
    ensures gameId == -1 ==>
      db.players == old(db.players) && db.games == old(db.games) && db.nextGameId == old(db.nextGameId)
    ensures gameId != -1 ==>
      && gameId == old(db.nextGameId) && db.nextGameId == gameId + 1
      && db.games == old(db.games)[gameId := RecordedGame(old(db.players), E, gameId, whitePlayerId, blackPlayerId, result, now)]
      && db.players == Applied(old(db.players), RecordedGame(old(db.players), E, gameId, whitePlayerId, blackPlayerId, result, now))
  {
    var whitePlayer := PlayerDao.GetPlayerById(db, whitePlayerId);
    var blackPlayer := PlayerDao.GetPlayerById(db, blackPlayerId);
    if whitePlayer == null || blackPlayer == null {
      return -1;
    }

    var whiteEloChange, blackEloChange := InlineEloChanges(E, whitePlayer.elo, blackPlayer.elo, result);

    var game := new Game(now);
    game.SetWhitePlayerId(whitePlayerId);
    game.SetBlackPlayerId(blackPlayerId);
    game.SetResult(result);
    game.SetDate(now);
    game.SetWhiteEloChange(whiteEloChange);
    game.SetBlackEloChange(blackEloChange);

    // the transaction: nothing is written before the insert, so a failed insert leaves the tables as they were
    if !insertSucceeds {
      return -1;
    }
    assert game.Record() == RecordedGame(old(db.players), E, 0, whitePlayerId, blackPlayerId, result, now);
    gameId := InsertAndApply(db, game, whitePlayer, blackPlayer);
  }

  /**
   * The successful transaction: insert the game row under the next id,
   * then raise both players' stats by the game's stored changes and write
   * their stat columns, white first.
   */
  method InsertAndApply(db: Database, game: Game, whitePlayer: Player, blackPlayer: Player) returns (gameId: int)
    requires db.Valid() && game.result.Some?
    requires whitePlayer != blackPlayer
    requires game.whitePlayerId in db.players && whitePlayer.Record() == db.players[game.whitePlayerId]
    requires game.blackPlayerId in db.players && blackPlayer.Record() == db.players[game.blackPlayerId]
    modifies db, game, whitePlayer, blackPlayer
    ensures db.Valid()
    ensures gameId == old(db.nextGameId) && db.nextGameId == gameId + 1
    ensures db.games == old(db.games)[gameId := old(game.Record()).(id := gameId)]
    ensures db.players == Applied(old(db.players), old(game.Record()).(id := gameId))
  {
    var result := game.result.value;
    gameId := db.nextGameId;
    db.games := db.games[gameId := game.Record().(id := gameId)];
    db.nextGameId := db.nextGameId + 1;
    game.SetId(gameId);

    // white: WHITE_WIN is a win, BLACK_WIN a loss, anything else a draw; black the other way round
    RecordForPlayer(whitePlayer, game.whiteEloChange, WhiteOutcome(result));
    RecordForPlayer(blackPlayer, game.blackEloChange, BlackOutcome(result));
    WriteStats(db, whitePlayer);
    WriteStats(db, blackPlayer);
  }
}
