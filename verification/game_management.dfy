/**
 * The reversal logic of ui/admin/GameManagementFragment.java: deleteGame
 * and revertGameStats. The toasts become the DeleteOutcome value.
 */
module GameManagement {
  import opened Numeric
  import Wrappers
  import opened PlayerJava
  import opened GameJava
  import opened SqliteDb
  import PlayerDao
  import GameDao

  datatype DeleteOutcome = PlayerNotFound | Deleted | DeleteFailed

  /**
   * Subtracts the game's stored changes from the two ratings (nothing is
   * recomputed), takes one game off both players and decrements exactly
   * the counter the result selects, without clamping; then writes both
   * players back with every column.
   */
  method RevertGameStats(db: Database, whitePlayer: Player, blackPlayer: Player, game: GameRecord)
    requires db.Valid() && game.result.Some?
    requires whitePlayer != blackPlayer
    modifies db, whitePlayer, blackPlayer
    ensures db.Valid()
    ensures whitePlayer.Record() == RevertedGame(old(whitePlayer.Record()), game.whiteEloChange, WhiteOutcome(game.result.value))
    ensures blackPlayer.Record() == RevertedGame(old(blackPlayer.Record()), game.blackEloChange, BlackOutcome(game.result.value))
    ensures db.players == Stored(Stored(old(db.players), whitePlayer.Record()), blackPlayer.Record())
    ensures db.games == old(db.games) && db.nextGameId == old(db.nextGameId)
  {
    whitePlayer.SetElo(whitePlayer.elo - game.whiteEloChange);
    blackPlayer.SetElo(blackPlayer.elo - game.blackEloChange);

    whitePlayer.SetGamesPlayed(whitePlayer.gamesPlayed - 1);
    blackPlayer.SetGamesPlayed(blackPlayer.gamesPlayed - 1);

    match game.result.value {
      case WhiteWin =>
        whitePlayer.SetWins(whitePlayer.wins - 1);
        blackPlayer.SetLosses(blackPlayer.losses - 1);
      case BlackWin =>
        blackPlayer.SetWins(blackPlayer.wins - 1);
        whitePlayer.SetLosses(whitePlayer.losses - 1);
      case Draw =>
        whitePlayer.SetDraws(whitePlayer.draws - 1);
        blackPlayer.SetDraws(blackPlayer.draws - 1);
    }

    var _ := PlayerDao.UpdatePlayer(db, whitePlayer);
    var _ := PlayerDao.UpdatePlayer(db, blackPlayer);
  }

  /**
   * With both players present: the stats are reverted and written first,
   * then the game row is deleted, so a failed delete leaves the stats
   * already reverted. With a player missing nothing changes.
   */
  method DeleteGame(db: Database, game: GameRecord) returns (outcome: DeleteOutcome)
    requires db.Valid() && game.result.Some?
    modifies db
    ensures db.Valid()
    ensures outcome == PlayerNotFound <==> game.whitePlayerId !in old(db.players) || game.blackPlayerId !in old(db.players)
    ensures outcome == PlayerNotFound ==>
      db.players == old(db.players) && db.games == old(db.games)
    ensures outcome != PlayerNotFound ==>
      && db.players == Reverted(old(db.players), game)
      && db.games == old(db.games) - {game.id}
      && (outcome == Deleted <==> game.id in old(db.games))
    ensures db.nextGameId == old(db.nextGameId)
  {
    var whitePlayer := PlayerDao.GetPlayerById(db, game.whitePlayerId);
    var blackPlayer := PlayerDao.GetPlayerById(db, game.blackPlayerId);
    if whitePlayer == null || blackPlayer == null {
      return PlayerNotFound;
    }
    ghost var before := db.players;
    RevertGameStats(db, whitePlayer, blackPlayer, game);
    assert db.players == Reverted(before, game);

    var rowsAffected := GameDao.DeleteGame(db, game.id);
    outcome := if rowsAffected > 0 then Deleted else DeleteFailed;
  }

  /**
   * Recording a game with both players present and then deleting it from
   * the admin screen leaves every player row exactly as it was, and the
   * games table as it was.
   */
  method RecordThenDelete(db: Database, E: ExpectedScore, whitePlayerId: int, blackPlayerId: int, result: Result, now: int)
    requires db.Valid()
    requires whitePlayerId in db.players && blackPlayerId in db.players
    modifies db
    ensures db.Valid()
    ensures db.players == old(db.players) && db.games == old(db.games)
  {
    var gameId := GameDao.RecordGameWithEloUpdate(db, E, whitePlayerId, blackPlayerId, result, now, true);
    ghost var recorded := GameDao.RecordedGame(old(db.players), E, gameId, whitePlayerId, blackPlayerId, result, now);
    var game := db.games[gameId];
    assert game == recorded;
    var outcome := DeleteGame(db, game);
    RevertRestoresPlayers(old(db.players), recorded);
    assert outcome == Deleted;
    assert old(db.games)[gameId := recorded] - {gameId} == old(db.games);
  }
}
