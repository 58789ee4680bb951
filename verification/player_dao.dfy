/**
 * database/PlayerDao.java: each operation loads a Player object from its
 * row, changes it in place and writes it back.
 */
module PlayerDao {
  import opened PlayerJava
  import opened GameJava
  import opened SqliteDb

  /** How updatePlayerAfterGame reads its int result: positive win, negative loss, zero draw. */
  function OutcomeOfSign(result: int): (o: Outcome)
    ensures o == Won <==> result > 0
    ensures o == Lost <==> result < 0
    ensures o == Drew <==> result == 0
  {
    if result > 0 then Won else if result < 0 then Lost else Drew
  }

  /** The int encoding agrees with the enum: white's sign and its negation give each side's outcome. */
  lemma SignsMatchOutcomes(r: Result)
    ensures OutcomeOfSign(ResultSign(r)) == WhiteOutcome(r)
    ensures OutcomeOfSign(-ResultSign(r)) == BlackOutcome(r)
  {
  }

  /** A fresh Player built from the row, or null. */
  method GetPlayerById(db: Database, playerId: int) returns (player: Player?)
    ensures player == null <==> playerId !in db.players
    ensures player != null ==> fresh(player) && player.Record() == db.players[playerId]
  {
    if playerId in db.players {
      player := new Player.FromRecord(db.players[playerId]);
    } else {
      player := null;
    }
  }

  /** Writes every column of the player's row; the number of rows affected is 0 or 1. */
  method UpdatePlayer(db: Database, player: Player) returns (rowsAffected: int)
    requires db.Valid()
    modifies db
    ensures db.Valid()
    ensures rowsAffected == if player.id in old(db.players) then 1 else 0
    ensures db.players == Stored(old(db.players), player.Record())
    ensures db.games == old(db.games) && db.nextGameId == old(db.nextGameId)
  {
    if player.id in db.players {
      db.players := db.players[player.id := player.Record()];
      rowsAffected := 1;
    } else {
      rowsAffected := 0;
    }
  }

  /**
   * One more game, the rating moved by eloChange, and exactly the counter
   * the sign of result selects raised by one; false and no write for an
   * unknown id.
   */
  method UpdatePlayerAfterGame(db: Database, playerId: int, eloChange: int, result: int) returns (ok: bool)
    requires db.Valid()
    modifies db
    ensures db.Valid()
    ensures ok <==> playerId in old(db.players)
    ensures ok ==> db.players == old(db.players)[playerId := AppliedGame(old(db.players)[playerId], eloChange, OutcomeOfSign(result))]
    ensures !ok ==> db.players == old(db.players)
    ensures db.games == old(db.games) && db.nextGameId == old(db.nextGameId)
  {
    var player := GetPlayerById(db, playerId);
    if player == null {
      return false;
    }
    player.IncrementGamesPlayed();
    player.SetElo(player.elo + eloChange);
    if result > 0 {
      player.IncrementWins();
    } else if result < 0 {
      player.IncrementLosses();
    } else {
      player.IncrementDraws();
    }
    var rowsAffected := UpdatePlayer(db, player);
    ok := rowsAffected > 0;
  }

  /** Replaces the stored pin by the hash of the new one (the hash is a parameter); false for an unknown id. */
  method UpdatePlayerPinCode(db: Database, playerId: int, newPinCode: string, HashPin: string -> string) returns (ok: bool)
    requires db.Valid()
    modifies db
    ensures db.Valid()
    ensures ok <==> playerId in old(db.players)
    ensures ok ==> db.players == old(db.players)[playerId := old(db.players)[playerId].(pinCode := HashPin(newPinCode))]
    ensures !ok ==> db.players == old(db.players)
    ensures db.games == old(db.games) && db.nextGameId == old(db.nextGameId)
  {
    var player := GetPlayerById(db, playerId);
    if player == null {
      return false;
    }
    var hashedPinCode := HashPin(newPinCode);
    player.SetPinCode(hashedPinCode);
    var rowsAffected := UpdatePlayer(db, player);
    ok := rowsAffected > 0;
  }

  /** An unknown id is not an admin. */
  method IsPlayerAdmin(db: Database, playerId: int) returns (admin: bool)
    ensures admin <==> playerId in db.players && db.players[playerId].isAdmin
  {
    var player := GetPlayerById(db, playerId);
    admin := player != null && player.isAdmin;
  }
}
