/**
 * The Android app's SQLite database as used by the DAO classes: a players
 * table and a games table keyed by their ids, and the counter SQLite uses
 * to assign the next game id. The functions below say what one recorded
 * game does to the players table and what undoing it does.
 */
module SqliteDb {
  import opened Wrappers
  import opened PlayerJava
  import opened GameJava

  type PlayerTable = map<int, PlayerRecord>
  type GameTable = map<int, GameRecord>

  class Database {
    var players: PlayerTable
    var games: GameTable
    var nextGameId: int

    /** Rows are stored under their own ids; every stored game has a result and an id already handed out. */
    predicate Valid()
      reads this
    {
      && nextGameId >= 1
      && (forall id :: id in players ==> players[id].id == id)
      && (forall id :: id in games ==> games[id].id == id && 1 <= id < nextGameId && games[id].result.Some?)
    }

    constructor ()
      ensures Valid() && players == map[] && games == map[] && nextGameId == 1
    {
      players, games, nextGameId := map[], map[], 1;
    }
  }

  /** UPDATE players SET <every column> WHERE id = p.id: no row changes when the id is unknown. */
  function Stored(players: PlayerTable, p: PlayerRecord): (m: PlayerTable)
    ensures p.id in players ==> m == players[p.id := p]
    ensures p.id !in players ==> m == players
    ensures m.Keys == players.Keys
  {
    if p.id in players then players[p.id := p] else players
  }

  /** Both players' rows after game g is recorded (black's row is written last). */
  function Applied(players: PlayerTable, g: GameRecord): (m: PlayerTable)
    requires g.whitePlayerId in players && g.blackPlayerId in players && g.result.Some?
    ensures m.Keys == players.Keys
    ensures forall id :: id in players && id != g.whitePlayerId && id != g.blackPlayerId ==> m[id] == players[id]
  {
    var w, b := g.whitePlayerId, g.blackPlayerId;
    players[w := AppliedGame(players[w], g.whiteEloChange, WhiteOutcome(g.result.value))]
           [b := AppliedGame(players[b], g.blackEloChange, BlackOutcome(g.result.value))]
  }

  /** Both players' rows after game g is reverted with its stored changes. */
  function Reverted(players: PlayerTable, g: GameRecord): (m: PlayerTable)
    requires g.whitePlayerId in players && g.blackPlayerId in players && g.result.Some?
    ensures m.Keys == players.Keys
    ensures forall id :: id in players && id != g.whitePlayerId && id != g.blackPlayerId ==> m[id] == players[id]
  {
    var w, b := g.whitePlayerId, g.blackPlayerId;
    players[w := RevertedGame(players[w], g.whiteEloChange, WhiteOutcome(g.result.value))]
           [b := RevertedGame(players[b], g.blackEloChange, BlackOutcome(g.result.value))]
  }

  /**
   * Reverting a recorded game restores the players table exactly, also
   * in the degenerate case of a game against oneself, where black's row
   * write overwrites white's both times.
   */
  lemma {:induction false} RevertRestoresPlayers(players: PlayerTable, g: GameRecord)
    requires g.whitePlayerId in players && g.blackPlayerId in players && g.result.Some?
    ensures Reverted(Applied(players, g), g) == players
  {
    var w, b, r := g.whitePlayerId, g.blackPlayerId, g.result.value;
    RevertUndoesApply(players[w], g.whiteEloChange, WhiteOutcome(r));
    RevertUndoesApply(players[b], g.blackEloChange, BlackOutcome(r));
    if w == b {
      RevertUndoesApply(players[b], g.blackEloChange, BlackOutcome(r));
    }
  }

  predicate AllBalanced(players: PlayerTable) {
    forall id :: id in players ==> players[id].Balanced()
  }

  /** Recording and reverting keep gamesPlayed == wins + losses + draws for every player. */
  lemma {:induction false} ApplyRevertKeepBalance(players: PlayerTable, g: GameRecord)
    requires g.whitePlayerId in players && g.blackPlayerId in players && g.result.Some?
    ensures AllBalanced(players) ==> AllBalanced(Applied(players, g)) && AllBalanced(Reverted(players, g))
  {
    if AllBalanced(players) {
      var w, b, r := g.whitePlayerId, g.blackPlayerId, g.result.value;
      assert players[w].Balanced() && players[b].Balanced();
      forall id | id in Applied(players, g)
        ensures Applied(players, g)[id].Balanced() && Reverted(players, g)[id].Balanced()
      {
        assert id in players;
      }
    }
  }

  /**
   * Between two different players: a decisive game gives the winner one
   * win and the loser one loss and leaves their other counters alone; a
   * draw gives both one draw. Each rating moves by its stored change.
   */
  lemma DecisiveGivesOneWinOneLoss(players: PlayerTable, g: GameRecord)
    requires g.whitePlayerId in players && g.blackPlayerId in players && g.result.Some?
    requires g.whitePlayerId != g.blackPlayerId
    ensures var m, w, b := Applied(players, g), g.whitePlayerId, g.blackPlayerId;
      && m[w].elo == players[w].elo + g.whiteEloChange
      && m[b].elo == players[b].elo + g.blackEloChange
      && m[w].gamesPlayed == players[w].gamesPlayed + 1
      && m[b].gamesPlayed == players[b].gamesPlayed + 1
      && (g.result == Some(WhiteWin) ==>
            m[w].wins == players[w].wins + 1 && m[w].losses == players[w].losses && m[w].draws == players[w].draws &&
            m[b].losses == players[b].losses + 1 && m[b].wins == players[b].wins && m[b].draws == players[b].draws)
      && (g.result == Some(BlackWin) ==>
            m[b].wins == players[b].wins + 1 && m[b].losses == players[b].losses && m[b].draws == players[b].draws &&
            m[w].losses == players[w].losses + 1 && m[w].wins == players[w].wins && m[w].draws == players[w].draws)
      && (g.result == Some(Draw) ==>
            m[w].draws == players[w].draws + 1 && m[w].wins == players[w].wins && m[w].losses == players[w].losses &&
            m[b].draws == players[b].draws + 1 && m[b].wins == players[b].wins && m[b].losses == players[b].losses)
  {
  }
}
