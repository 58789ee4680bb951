/**
 * database/DatabaseHelper.java, the older SQLite variant. Its players
 * table has no games-played column, its games store the result as an int
 * and its own Player and Game classes (not the ones in model/) are loaded,
 * changed and written back as whole rows. Game.isDraw/whiteWon/blackWon,
 * which it calls, are read as the sign convention of
 * EloCalculator.calculateEloChanges: 0 a draw, positive white won,
 * negative black won. Java null strings are "".
 */
module DatabaseHelper {
  import opened PlayerJava

  const SCHEMA_DEFAULT_ELO: int := 1200
  const DEFAULT_ADMIN_PIN: string := "1234"

  datatype PlayerRow = PlayerRow(
    id: int, name: string, pinHash: string, elo: int,
    wins: int, draws: int, losses: int, isAdmin: bool, email: string, phone: string)

  datatype GameRow = GameRow(
    id: int, whitePlayerId: int, blackPlayerId: int, result: int,
    date: int, whiteEloChange: int, blackEloChange: int)
  {
    predicate IsDraw() { result == 0 }
    predicate WhiteWon() { result > 0 }
    predicate BlackWon() { result < 0 }

    predicate Involves(playerId: int) {
      whitePlayerId == playerId || blackPlayerId == playerId
    }
  }

  /** The branch updatePlayerStatsAfterGame takes for white: isDraw first, then whiteWon, then blackWon. */
  function WhiteOutcome(g: GameRow): (o: Outcome)
    ensures o == Drew <==> g.IsDraw()
    ensures o == Won <==> g.WhiteWon()
    ensures o == Lost <==> g.BlackWon()
  {
    if g.IsDraw() then Drew else if g.WhiteWon() then Won else Lost
  }

  function BlackOutcome(g: GameRow): (o: Outcome)
    ensures o == Drew <==> g.IsDraw()
    ensures o == Won <==> g.BlackWon()
    ensures o == Lost <==> g.WhiteWon()
  {
    if g.IsDraw() then Drew else if g.WhiteWon() then Lost else Won
  }

  /** The row after one game: the rating plus the stored change, one more in the outcome's counter. */
  function AddGame(p: PlayerRow, eloChange: int, o: Outcome): (q: PlayerRow)
    ensures q.elo == p.elo + eloChange
    ensures q.wins + q.draws + q.losses == p.wins + p.draws + p.losses + 1
    ensures q.wins == p.wins + (if o == Won then 1 else 0)
    ensures q.losses == p.losses + (if o == Lost then 1 else 0)
    ensures q.draws == p.draws + (if o == Drew then 1 else 0)
    ensures q.(elo := p.elo, wins := p.wins, draws := p.draws, losses := p.losses) == p
  {
    var q := p.(elo := p.elo + eloChange);
    match o
    case Won => q.(wins := p.wins + 1)
    case Lost => q.(losses := p.losses + 1)
    case Drew => q.(draws := p.draws + 1)
  }

  /** The row after a game is reversed: the stored change subtracted, one less in the outcome's counter. */
  function RemoveGame(p: PlayerRow, eloChange: int, o: Outcome): (q: PlayerRow)
    ensures q.elo == p.elo - eloChange
    ensures q.wins + q.draws + q.losses == p.wins + p.draws + p.losses - 1
    ensures q.wins == p.wins - (if o == Won then 1 else 0)
    ensures q.losses == p.losses - (if o == Lost then 1 else 0)
    ensures q.draws == p.draws - (if o == Drew then 1 else 0)
    ensures q.(elo := p.elo, wins := p.wins, draws := p.draws, losses := p.losses) == p
  {
    var q := p.(elo := p.elo - eloChange);
    match o
    case Won => q.(wins := p.wins - 1)
    case Lost => q.(losses := p.losses - 1)
    case Drew => q.(draws := p.draws - 1)
  }

  lemma RemoveUndoesAdd(p: PlayerRow, eloChange: int, o: Outcome)
    ensures RemoveGame(AddGame(p, eloChange, o), eloChange, o) == p
  {
  }

  /**
   * updatePlayer's row: every column from p, except that an empty pin hash
   * keeps the stored one.
   */
  function UpdatedRow(stored: PlayerRow, p: PlayerRow): (r: PlayerRow)
    ensures r.pinHash == if p.pinHash == "" then stored.pinHash else p.pinHash
    ensures r.(pinHash := p.pinHash) == p
  {
    if p.pinHash == "" then p.(pinHash := stored.pinHash) else p
  }

  /** Writing back a row read from the table changes nothing. */
  lemma WriteBackIsIdentity(stored: PlayerRow)
    ensures UpdatedRow(stored, stored) == stored
  {
  }

  type PlayerTable = map<int, PlayerRow>
  type GameTable = map<int, GameRow>

  /** Both players' rows after updatePlayerStatsAfterGame; nothing changes unless both exist. */
  function Applied(players: PlayerTable, g: GameRow): (m: PlayerTable)
    ensures m.Keys == players.Keys
    ensures g.whitePlayerId !in players || g.blackPlayerId !in players ==> m == players
  {
    var w, b := g.whitePlayerId, g.blackPlayerId;
    if w in players && b in players then
      players[w := AddGame(players[w], g.whiteEloChange, WhiteOutcome(g))]
             [b := AddGame(players[b], g.blackEloChange, BlackOutcome(g))]
    else players
  }

  /** Both players' rows after reversePlayerStatsForGame; nothing changes unless both exist. */
  function Reverted(players: PlayerTable, g: GameRow): (m: PlayerTable)
    ensures m.Keys == players.Keys
    ensures g.whitePlayerId !in players || g.blackPlayerId !in players ==> m == players
  {
    var w, b := g.whitePlayerId, g.blackPlayerId;
    if w in players && b in players then
      players[w := RemoveGame(players[w], g.whiteEloChange, WhiteOutcome(g))]
             [b := RemoveGame(players[b], g.blackEloChange, BlackOutcome(g))]
    else players
  }

  /** Reversing a game restores both players' elo, wins, draws and losses. */
  lemma {:induction false} RevertRestoresPlayers(players: PlayerTable, g: GameRow)
    ensures Reverted(Applied(players, g), g) == players
  {
    var w, b := g.whitePlayerId, g.blackPlayerId;
    if w in players && b in players {
      RemoveUndoesAdd(players[w], g.whiteEloChange, WhiteOutcome(g));
      RemoveUndoesAdd(players[b], g.blackEloChange, BlackOutcome(g));
    }
  }

  /**
   * Between two different existing players: each rating moves by its
   * stored change; a decisive game gives the winner one win and the loser
   * one loss and leaves their other counters alone; a draw gives both one
   * draw.
   */
  lemma DecisiveGivesOneWinOneLoss(players: PlayerTable, g: GameRow)
    requires g.whitePlayerId in players && g.blackPlayerId in players && g.whitePlayerId != g.blackPlayerId
    ensures var m, w, b := Applied(players, g), g.whitePlayerId, g.blackPlayerId;
      && m[w].elo == players[w].elo + g.whiteEloChange
      && m[b].elo == players[b].elo + g.blackEloChange
      && (g.WhiteWon() ==>
            m[w].wins == players[w].wins + 1 && m[w].losses == players[w].losses && m[w].draws == players[w].draws &&
            m[b].losses == players[b].losses + 1 && m[b].wins == players[b].wins && m[b].draws == players[b].draws)
      && (g.BlackWon() ==>
            m[b].wins == players[b].wins + 1 && m[b].losses == players[b].losses && m[b].draws == players[b].draws &&
            m[w].losses == players[w].losses + 1 && m[w].wins == players[w].wins && m[w].draws == players[w].draws)
      && (g.IsDraw() ==>
            m[w].draws == players[w].draws + 1 && m[w].wins == players[w].wins && m[w].losses == players[w].losses &&
            m[b].draws == players[b].draws + 1 && m[b].wins == players[b].wins && m[b].losses == players[b].losses)
  {
  }

  /** Ids of the games in which the player is white or black. */
  function GamesOf(games: GameTable, playerId: int): set<int> {
    set id | id in games && games[id].Involves(playerId)
  }

  /** SELECT COUNT(*) FROM games WHERE white = ? OR black = ? */
  function GameCount(games: GameTable, playerId: int): (n: nat)
    ensures n == 0 <==> forall id :: id in games ==> !games[id].Involves(playerId)
  {
    var s := GamesOf(games, playerId);
    forall id | id in games && games[id].Involves(playerId)
      ensures id in s
    {
    }
    assert (forall id :: id in games ==> !games[id].Involves(playerId)) ==> s == {};
    |s|
  }

  class Helper {
    var players: PlayerTable
    var games: GameTable
    var nextPlayerId: int
    var nextGameId: int

    predicate Valid()
      reads this
    {
      && nextPlayerId >= 1 && nextGameId >= 1
      && (forall id :: id in players ==> players[id].id == id && id < nextPlayerId)
      && (forall id :: id in games ==> games[id].id == id && id < nextGameId)
    }

    /**
     * onCreate: empty tables, then the default admin inserted with only
     * name, pin hash, elo 1200 and the admin flag given; the other columns
     * take their defaults (0 counters). The pin hash function is a parameter.
     */
    constructor OnCreate(HashPin: string -> string)
      ensures Valid() && games == map[]
      ensures players == map[1 := PlayerRow(1, "Admin", HashPin(DEFAULT_ADMIN_PIN), SCHEMA_DEFAULT_ELO, 0, 0, 0, true, "", "")]
    {
      players := map[1 := PlayerRow(1, "Admin", HashPin(DEFAULT_ADMIN_PIN), SCHEMA_DEFAULT_ELO, 0, 0, 0, true, "", "")];
      games := map[];
      nextPlayerId, nextGameId := 2, 1;
    }

    /** The number of rows written: 1 for a stored id, 0 otherwise. */
    method UpdatePlayer(p: PlayerRow) returns (rowsAffected: int)
      requires Valid()
      modifies this
      ensures Valid()
      ensures rowsAffected == if p.id in old(players) then 1 else 0
      ensures p.id in old(players) ==> players == old(players)[p.id := UpdatedRow(old(players)[p.id], p)]
      ensures p.id !in old(players) ==> players == old(players)
      ensures games == old(games) && nextPlayerId == old(nextPlayerId) && nextGameId == old(nextGameId)
    {
      if p.id in players {
        var row := p;
        if p.pinHash == "" {
          row := row.(pinHash := players[p.id].pinHash);
        }
        players := players[p.id := row];
        rowsAffected := 1;
      } else {
        rowsAffected := 0;
      }
    }

    /** -1 and no change while any game names the player; otherwise the number of rows deleted. */
    method DeletePlayer(playerId: int) returns (r: int)
      requires Valid()
      modifies this
      ensures Valid()
      ensures GameCount(old(games), playerId) > 0 ==> r == -1 && players == old(players)
      ensures GameCount(old(games), playerId) == 0 ==>
        r == (if playerId in old(players) then 1 else 0) && players == old(players) - {playerId}
      ensures games == old(games) && nextPlayerId == old(nextPlayerId) && nextGameId == old(nextGameId)
    {
      var gameCount := GameCount(games, playerId);
      if gameCount > 0 {
        return -1;
      }
      r := if playerId in players then 1 else 0;
      players := players - {playerId};
    }

    /** updatePlayerStatsAfterGame: both rows are read, changed and written back, white first. */
    method UpdatePlayerStatsAfterGame(g: GameRow)
      requires Valid()
      modifies this
      ensures Valid()
      ensures players == Applied(old(players), g)
      ensures games == old(games) && nextPlayerId == old(nextPlayerId) && nextGameId == old(nextGameId)
    {
      if g.whitePlayerId in players && g.blackPlayerId in players {
        var whitePlayer := players[g.whitePlayerId];
        var blackPlayer := players[g.blackPlayerId];
        whitePlayer := whitePlayer.(elo := whitePlayer.elo + g.whiteEloChange);
        blackPlayer := blackPlayer.(elo := blackPlayer.elo + g.blackEloChange);
        if g.IsDraw() {
          whitePlayer := whitePlayer.(draws := whitePlayer.draws + 1);
          blackPlayer := blackPlayer.(draws := blackPlayer.draws + 1);
        } else if g.WhiteWon() {
          whitePlayer := whitePlayer.(wins := whitePlayer.wins + 1);
          blackPlayer := blackPlayer.(losses := blackPlayer.losses + 1);
        } else if g.BlackWon() {
          whitePlayer := whitePlayer.(losses := whitePlayer.losses + 1);
          blackPlayer := blackPlayer.(wins := blackPlayer.wins + 1);
        }
        var _ := UpdatePlayer(whitePlayer);
        var _ := UpdatePlayer(blackPlayer);
      }
    }

    /** reversePlayerStatsForGame: the same shape with every change subtracted. */
    method ReversePlayerStatsForGame(g: GameRow)
      requires Valid()
      modifies this
      ensures Valid()
      ensures players == Reverted(old(players), g)
      ensures games == old(games) && nextPlayerId == old(nextPlayerId) && nextGameId == old(nextGameId)
    {
      if g.whitePlayerId in players && g.blackPlayerId in players {
        var whitePlayer := players[g.whitePlayerId];
        var blackPlayer := players[g.blackPlayerId];
        whitePlayer := whitePlayer.(elo := whitePlayer.elo - g.whiteEloChange);
        blackPlayer := blackPlayer.(elo := blackPlayer.elo - g.blackEloChange);
        if g.IsDraw() {
          whitePlayer := whitePlayer.(draws := whitePlayer.draws - 1);
          blackPlayer := blackPlayer.(draws := blackPlayer.draws - 1);
        } else if g.WhiteWon() {
          whitePlayer := whitePlayer.(wins := whitePlayer.wins - 1);
          blackPlayer := blackPlayer.(losses := blackPlayer.losses - 1);
        } else if g.BlackWon() {
          whitePlayer := whitePlayer.(losses := whitePlayer.losses - 1);
          blackPlayer := blackPlayer.(wins := blackPlayer.wins - 1);
        }
        var _ := UpdatePlayer(whitePlayer);
        var _ := UpdatePlayer(blackPlayer);
      }
    }

    /**
     * Inserts the game (the new id, or -1 when SQLite's insert fails) and
     * then applies it to the players whether or not the insert succeeded.
     */
    method AddGame(game: GameRow, insertSucceeds: bool) returns (id: int)
      requires Valid()
      modifies this
      ensures Valid()
      ensures insertSucceeds ==> id == old(nextGameId) && nextGameId == id + 1 && games == old(games)[id := game.(id := id)]
      ensures !insertSucceeds ==> id == -1 && nextGameId == old(nextGameId) && games == old(games)
      ensures players == Applied(old(players), game.(id := id))
      ensures nextPlayerId == old(nextPlayerId)
    {
      if insertSucceeds {
        id := nextGameId;
        games := games[id := game.(id := id)];
        nextGameId := nextGameId + 1;
      } else {
        id := -1;
      }
      UpdatePlayerStatsAfterGame(game.(id := id));
    }

    /**
     * false and no change for an unknown id; otherwise the row is deleted,
     * the stats are reversed (only when both players still exist) and the
     * answer is true.
     */
    method DeleteGame(gameId: int) returns (ok: bool)
      requires Valid()
      modifies this
      ensures Valid()
      ensures ok <==> gameId in old(games)
      ensures !ok ==> players == old(players) && games == old(games)
      ensures ok ==> games == old(games) - {gameId} && players == Reverted(old(players), old(games)[gameId])
      ensures nextPlayerId == old(nextPlayerId) && nextGameId == old(nextGameId)
    {
      if gameId !in games {
        return false;
      }
      var game := games[gameId];
      var rowsAffected := if gameId in games then 1 else 0;
      games := games - {gameId};
      if rowsAffected > 0 {
        ReversePlayerStatsForGame(game);
        return true;
      }
      return false;
    }

    /** addGame then deleteGame of the returned id restores the players and the games table. */
    method AddThenDelete(game: GameRow)
      requires Valid()
      modifies this
      ensures Valid()
      ensures players == old(players) && games == old(games)
    {
      var id := AddGame(game, true);
      var ok := DeleteGame(id);
      assert ok;
      RevertRestoresPlayers(old(players), game.(id := id));
      assert old(games)[id := game.(id := id)] - {id} == old(games);
    }
  }
}
