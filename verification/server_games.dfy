/**
 * The Node server's game service (server/services/gameService.js) over
 * the Postgres tables of server/schema.js. Players carry only ratings:
 * an initial one and the current one. Games store the two changes when
 * they are created; a verified game's changes are in the ratings, an
 * unverified game's are not. Every operation is one transaction: a thrown
 * error leaves both tables as they were.
 */
module ServerGames {
  import opened Numeric
  import opened Wrappers
  import EloServer

  const SCHEMA_DEFAULT_ELO: int := 1200

  datatype ServerPlayer = ServerPlayer(id: int, name: string, pin: string, isAdmin: bool, initialElo: int, currentElo: int)

  datatype ServerGame = ServerGame(
    id: int, whitePlayerId: int, blackPlayerId: int, result: string,
    whiteEloChange: int, blackEloChange: int, verified: bool)

  type PlayerTable = map<int, ServerPlayer>
  type GameTable = map<int, ServerGame>

  /** The game_result enum: any other string is refused by the insert. */
  predicate IsGameResult(s: string) {
    s == "1-0" || s == "0-1" || s == "1/2-1/2"
  }

  /** A new player row with the schema defaults: both ratings 1200, not an admin. */
  function NewPlayer(id: int, name: string, pin: string): (p: ServerPlayer)
    ensures p.initialElo == p.currentElo == SCHEMA_DEFAULT_ELO && !p.isAdmin
  {
    ServerPlayer(id, name, pin, false, SCHEMA_DEFAULT_ELO, SCHEMA_DEFAULT_ELO)
  }

  // ----- the ledger: ratings are initial ratings plus verified changes -----

  /** What game g contributes to player pid's rating: its stored change once verified. */
  function Share(pid: int, g: ServerGame): int {
    if !g.verified then 0
    else (if g.whitePlayerId == pid then g.whiteEloChange else 0) + (if g.blackPlayerId == pid then g.blackEloChange else 0)
  }

  /** A table that is not empty has a key to pick. */
  lemma HasKey(games: GameTable)
    requires games != map[]
    ensures exists k :: k in games
  {
    if forall k :: k !in games {
      assert false;
    }
  }

  /** The sum of pid's shares over all games, in any order. */
  ghost function Total(pid: int, games: GameTable): int
    decreases |games|
  {
    if games == map[] then 0
    else
      HasKey(games);
      var k :| k in games;
      Share(pid, games[k]) + Total(pid, games - {k})
  }

  /** Any game can be taken out of the sum first. */
  lemma {:induction false} TotalRemove(pid: int, games: GameTable, k: int)
    requires k in games
    ensures Total(pid, games) == Share(pid, games[k]) + Total(pid, games - {k})
    decreases |games|
  {
    var j :| j in games && Total(pid, games) == Share(pid, games[j]) + Total(pid, games - {j});
    if j != k {
      var rest := games - {j};
      assert k in rest && |rest| < |games|;
      TotalRemove(pid, rest, k);
      var rest2 := games - {k};
      assert j in rest2 && |rest2| < |games|;
      TotalRemove(pid, rest2, j);
      assert rest - {k} == rest2 - {j};
    }
  }

  /** Writing game g under key k replaces k's share (if any) by g's. */
  lemma TotalAfterPut(pid: int, games: GameTable, k: int, g: ServerGame)
    ensures Total(pid, games[k := g]) == Total(pid, games) - (if k in games then Share(pid, games[k]) else 0) + Share(pid, g)
  {
    TotalRemove(pid, games[k := g], k);
    if k in games {
      TotalRemove(pid, games, k);
      assert games[k := g] - {k} == games - {k};
    } else {
      assert games[k := g] - {k} == games;
    }
  }

  /** Removing key k takes k's share (if any) out of the sum. */
  lemma TotalAfterRemove(pid: int, games: GameTable, k: int)
    ensures Total(pid, games - {k}) == Total(pid, games) - (if k in games then Share(pid, games[k]) else 0)
  {
    if k in games {
      TotalRemove(pid, games, k);
    } else {
      assert games - {k} == games;
    }
  }

  /**
   * Every game names two different, existing players (the schema's
   * foreign keys and the submit form's check), and every player's current
   * rating is the initial rating plus the changes of the verified games.
   */
  ghost predicate Ledger(players: PlayerTable, games: GameTable) {
    && (forall id :: id in games ==>
          games[id].whitePlayerId in players && games[id].blackPlayerId in players &&
          games[id].whitePlayerId != games[id].blackPlayerId)
    && (forall pid :: pid in players ==> players[pid].currentElo == players[pid].initialElo + Total(pid, games))
  }

  /** The two ratings after g's stored changes are added (sign 1) or taken off (sign -1). */
  function Shifted(players: PlayerTable, g: ServerGame, sign: int): (m: PlayerTable)
    requires g.whitePlayerId in players && g.blackPlayerId in players
    ensures m.Keys == players.Keys
  {
    var w, b := players[g.whitePlayerId], players[g.blackPlayerId];
    players[g.whitePlayerId := w.(currentElo := w.currentElo + sign * g.whiteEloChange)]
           [g.blackPlayerId := b.(currentElo := b.currentElo + sign * g.blackEloChange)]
  }

  /**
   * The server accepts a game against oneself. Verifying it reads the
   * player once and writes white's new rating and then black's, so the
   * stored rating gains only black's change, while the player's share of
   * the game is both changes: whenever white's change is not zero, the
   * rating no longer equals the initial rating plus the verified changes.
   */
  lemma SelfGameDropsWhiteChange(players: PlayerTable, g: ServerGame)
    requires g.whitePlayerId == g.blackPlayerId && g.whitePlayerId in players && g.verified
    ensures var pid := g.whitePlayerId;
      && Shifted(players, g, 1)[pid].currentElo == players[pid].currentElo + g.blackEloChange
      && Share(pid, g) == g.whiteEloChange + g.blackEloChange
      && (g.whiteEloChange != 0 ==> Shifted(players, g, 1)[pid].currentElo != players[pid].currentElo + Share(pid, g))
  {
  }

  /** Taking a game's changes off again restores the ratings, even for a game against oneself. */
  lemma ShiftedUndo(players: PlayerTable, g: ServerGame)
    requires g.whitePlayerId in players && g.blackPlayerId in players
    ensures Shifted(Shifted(players, g, 1), g, -1) == players
  {
  }

  /**
   * Putting game g under key k keeps the ledger when the ratings move by
   * exactly g's share minus the share of the game it replaces: no move
   * for an unverified game, g's changes when it becomes verified.
   */
  lemma {:induction false} LedgerAfterPut(players: PlayerTable, games: GameTable, k: int, g: ServerGame)
    requires Ledger(players, games)
    requires g.whitePlayerId in players && g.blackPlayerId in players && g.whitePlayerId != g.blackPlayerId
    requires k in games ==> games[k].whitePlayerId == g.whitePlayerId && games[k].blackPlayerId == g.blackPlayerId
    requires k in games ==> games[k].whiteEloChange == g.whiteEloChange && games[k].blackEloChange == g.blackEloChange
    requires k in games ==> !games[k].verified
    ensures !g.verified ==> Ledger(players, games[k := g])
    ensures g.verified ==> Ledger(Shifted(players, g, 1), games[k := g])
  {
    var after := if g.verified then Shifted(players, g, 1) else players;
    forall pid | pid in after
      ensures after[pid].currentElo == after[pid].initialElo + Total(pid, games[k := g])
    {
      TotalAfterPut(pid, games, k, g);
    }
    assert Ledger(after, games[k := g]);
  }

  /** Removing game k keeps the ledger when a verified game's changes are taken off the ratings. */
  lemma {:induction false} LedgerAfterRemove(players: PlayerTable, games: GameTable, k: int)
    requires Ledger(players, games) && k in games
    ensures !games[k].verified ==> Ledger(players, games - {k})
    ensures games[k].verified ==> Ledger(Shifted(players, games[k], -1), games - {k})
  {
    var g := games[k];
    var after := if g.verified then Shifted(players, g, -1) else players;
    forall pid | pid in after
      ensures after[pid].currentElo == after[pid].initialElo + Total(pid, games - {k})
    {
      TotalAfterRemove(pid, games, k);
    }
    assert Ledger(after, games - {k});
  }

  datatype VerifyOutcome = NotFound | AlreadyVerified(game: ServerGame) | Verified(game: ServerGame) | Failed

  class GameStore {
    var players: PlayerTable
    var games: GameTable
    var nextGameId: int

    predicate Valid()
      reads this
    {
      && nextGameId >= 1
      && (forall id :: id in players ==> players[id].id == id)
      && (forall id :: id in games ==> games[id].id == id && 1 <= id < nextGameId)
    }

    /**
     * createGame: fails (and writes nothing) when a player is missing or
     * the result is not one of the enum's strings; otherwise stores the
     * game with the changes calculateNewRatings gives for the current
     * ratings, and adds them to the ratings only when the game is created
     * verified.
     */
    method CreateGame(E: ExpectedScore, whitePlayerId: int, blackPlayerId: int, result: string, verified: bool)
      returns (r: Result<ServerGame, string>)
      requires Valid()
      modifies this
      ensures Valid()
      ensures r.Failure? <==> whitePlayerId !in old(players) || blackPlayerId !in old(players) || !IsGameResult(result)
      ensures r.Failure? ==> players == old(players) && games == old(games) && nextGameId == old(nextGameId)
      ensures r.Success? ==>
        var ratings := EloServer.CalculateNewRatings(E, old(players)[whitePlayerId].currentElo, old(players)[blackPlayerId].currentElo, result);
        && r.value == ServerGame(old(nextGameId), whitePlayerId, blackPlayerId, result,
                                 ratings.whiteEloChange, ratings.blackEloChange, verified)
        && games == old(games)[r.value.id := r.value]
        && nextGameId == old(nextGameId) + 1
        && players == if verified then Shifted(old(players), r.value, 1) else old(players)
      ensures r.Success? && whitePlayerId != blackPlayerId ==> (old(Ledger(players, games)) ==> Ledger(players, games))
    {
      if whitePlayerId !in players || blackPlayerId !in players {
        return Failure("One or both players not found");
      }
      var whitePlayer, blackPlayer := players[whitePlayerId], players[blackPlayerId];
      var ratings := EloServer.CalculateNewRatings(E, whitePlayer.currentElo, blackPlayer.currentElo, result);
      if !IsGameResult(result) {
        // the insert violates the enum and the transaction is rolled back
        return Failure("invalid input value for enum game_result");
      }
      var newGame := ServerGame(nextGameId, whitePlayerId, blackPlayerId, result,
                                ratings.whiteEloChange, ratings.blackEloChange, verified);
      ghost var oldPlayers, oldGames := players, games;
      games := games[newGame.id := newGame];
      nextGameId := nextGameId + 1;
      if verified {
        players := players[whitePlayer.id := whitePlayer.(currentElo := ratings.whiteNewElo)];
        players := players[blackPlayer.id := blackPlayer.(currentElo := ratings.blackNewElo)];
      }
      if whitePlayerId != blackPlayerId && Ledger(oldPlayers, oldGames) {
        LedgerAfterPut(oldPlayers, oldGames, newGame.id, newGame);
      }
      r := Success(newGame);
    }

    /**
     * verifyGame: null for an unknown id; an already-verified game is
     * returned with nothing changed; otherwise both ratings move by the
     * stored changes and the game is marked verified. A missing player
     * makes the rating read throw, and nothing is written.
     */
    method VerifyGame(id: int) returns (r: VerifyOutcome)
      requires Valid()
      modifies this
      ensures Valid()
      ensures r == NotFound <==> id !in old(games)
      ensures r.AlreadyVerified? <==> id in old(games) && old(games)[id].verified
      ensures r.AlreadyVerified? ==> r.game == old(games)[id]
      ensures r.NotFound? || r.AlreadyVerified? || r.Failed? ==>
        players == old(players) && games == old(games)
      ensures r.Failed? <==>
        id in old(games) && !old(games)[id].verified &&
        (old(games)[id].whitePlayerId !in old(players) || old(games)[id].blackPlayerId !in old(players))
      ensures r.Verified? ==>
        && r.game == old(games)[id].(verified := true)
        && games == old(games)[id := r.game]
        && players == Shifted(old(players), old(games)[id], 1)
      ensures old(Ledger(players, games)) ==> Ledger(players, games)
      ensures nextGameId == old(nextGameId)
    {
      if id !in games {
        return NotFound;
      }
      var game := games[id];
      if game.verified {
        return AlreadyVerified(game);
      }
      if game.whitePlayerId !in players || game.blackPlayerId !in players {
        return Failed;
      }
      var whitePlayer, blackPlayer := players[game.whitePlayerId], players[game.blackPlayerId];
      var whiteNewElo := whitePlayer.currentElo + game.whiteEloChange;
      var blackNewElo := blackPlayer.currentElo + game.blackEloChange;
      ghost var oldPlayers, oldGames := players, games;
      players := players[whitePlayer.id := whitePlayer.(currentElo := whiteNewElo)];
      players := players[blackPlayer.id := blackPlayer.(currentElo := blackNewElo)];
      var updatedGame := game.(verified := true);
      games := games[id := updatedGame];
      if Ledger(oldPlayers, oldGames) {
        LedgerAfterPut(oldPlayers, oldGames, id, updatedGame);
      }
      r := Verified(updatedGame);
    }

    /**
     * deleteGame: false for an unknown id. A verified game's stored
     * changes are taken off both ratings when both players exist; the
     * game is deleted in every case and the answer is true.
     */
    method DeleteGame(id: int) returns (deleted: bool)
      requires Valid()
      modifies this
      ensures Valid()
      ensures deleted <==> id in old(games)
      ensures !deleted ==> players == old(players) && games == old(games)
      ensures deleted ==>
        var g := old(games)[id];
        && games == old(games) - {id}
        && players == if g.verified && g.whitePlayerId in old(players) && g.blackPlayerId in old(players)
                      then Shifted(old(players), g, -1) else old(players)
      ensures old(Ledger(players, games)) ==> Ledger(players, games)
      ensures nextGameId == old(nextGameId)
    {
      if id !in games {
        return false;
      }
      var game := games[id];
      ghost var oldPlayers, oldGames := players, games;
      if game.verified {
        if game.whitePlayerId in players && game.blackPlayerId in players {
          var whitePlayer, blackPlayer := players[game.whitePlayerId], players[game.blackPlayerId];
          var whiteRevertedElo := whitePlayer.currentElo - game.whiteEloChange;
          var blackRevertedElo := blackPlayer.currentElo - game.blackEloChange;
          players := players[whitePlayer.id := whitePlayer.(currentElo := whiteRevertedElo)];
          players := players[blackPlayer.id := blackPlayer.(currentElo := blackRevertedElo)];
        }
      }
      games := games - {id};
      if Ledger(oldPlayers, oldGames) {
        LedgerAfterRemove(oldPlayers, oldGames, id);
      }
      deleted := true;
    }

    /**
     * Creating a game unverified, verifying it and deleting it again
     * restores both tables exactly.
     */
    method CreateVerifyDelete(E: ExpectedScore, whitePlayerId: int, blackPlayerId: int, result: string)
      requires Valid()
      requires whitePlayerId in players && blackPlayerId in players && IsGameResult(result)
      modifies this
      ensures Valid()
      ensures players == old(players) && games == old(games)
    {
      var created := CreateGame(E, whitePlayerId, blackPlayerId, result, false);
      var id := created.value.id;
      ghost var g := created.value.(verified := true);
      var verified := VerifyGame(id);
      assert players == Shifted(old(players), g, 1);
      assert games == old(games)[id := g];
      var deleted := DeleteGame(id);
      ShiftedUndo(old(players), g);
      assert games == old(games)[id := g] - {id} == old(games);
    }
  }
}
