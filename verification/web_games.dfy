/**
 * The web client's game service (web/src/firebase/gameService.js) over
 * two Firestore collections keyed by document id. Games store the ratings
 * before and after; verifying writes the stored after-ratings, deleting a
 * verified game writes the stored before-ratings back, and counters are
 * never lowered below 0. Player writes are partial updates: a field the
 * update object leaves out keeps its stored value.
 */
module WebGames {
  import opened Numeric
  import opened Wrappers
  import opened PlayerJava
  import EloWeb

  datatype WebPlayer = WebPlayer(
    name: string, pinHash: string, isAdmin: bool,
    elo: int, gamesPlayed: int, wins: int, losses: int, draws: int)

  datatype WebGame = WebGame(
    whitePlayerId: string, blackPlayerId: string, whitePlayerName: string, blackPlayerName: string,
    whiteEloBefore: int, blackEloBefore: int, whiteEloAfter: int, blackEloAfter: int,
    whiteEloChange: int, blackEloChange: int, result: string, verified: bool)

  /** White's outcome: "1-0" a win, "0-1" a loss, any other string a draw. */
  function WhiteOutcomeOf(result: string): (o: Outcome)
    ensures o == Won <==> result == "1-0"
    ensures o == Lost <==> result == "0-1"
  {
    if result == "1-0" then Won else if result == "0-1" then Lost else Drew
  }

  /** Black's outcome is the mirror of white's. */
  function BlackOutcomeOf(result: string): (o: Outcome)
    ensures o == Won <==> WhiteOutcomeOf(result) == Lost
    ensures o == Lost <==> WhiteOutcomeOf(result) == Won
    ensures o == Drew <==> WhiteOutcomeOf(result) == Drew
  {
    if result == "1-0" then Lost else if result == "0-1" then Won else Drew
  }

  /** Math.max(0, n). */
  function Max0(n: int): (m: int)
    ensures m >= 0 && m >= n && (m == n || m == 0)
  {
    if n < 0 then 0 else n
  }

  /** The counter an outcome selects. */
  function Count(p: WebPlayer, o: Outcome): int {
    match o
    case Won => p.wins
    case Lost => p.losses
    case Drew => p.draws
  }

  predicate Balanced(p: WebPlayer) {
    p.gamesPlayed == p.wins + p.losses + p.draws
  }

  // ----- player update objects, built as values -----

  /** The fields an update object names; None is a field it leaves out. */
  datatype PlayerUpdate = PlayerUpdate(
    elo: Option<int>, gamesPlayed: Option<int>, wins: Option<int>, losses: Option<int>, draws: Option<int>)

  const NoFields := PlayerUpdate(None, None, None, None, None)

  /** updateDoc: the named fields are overwritten, every other field is kept. */
  function Merged(p: WebPlayer, u: PlayerUpdate): (q: WebPlayer)
    ensures q.name == p.name && q.pinHash == p.pinHash && q.isAdmin == p.isAdmin
  {
    WebPlayer(p.name, p.pinHash, p.isAdmin,
              if u.elo.Some? then u.elo.value else p.elo,
              if u.gamesPlayed.Some? then u.gamesPlayed.value else p.gamesPlayed,
              if u.wins.Some? then u.wins.value else p.wins,
              if u.losses.Some? then u.losses.value else p.losses,
              if u.draws.Some? then u.draws.value else p.draws)
  }

  /** The counter field of an update object that an outcome selects. */
  function CountField(u: PlayerUpdate, o: Outcome): Option<int> {
    match o
    case Won => u.wins
    case Lost => u.losses
    case Drew => u.draws
  }

  /** Names o's counter with value v; every other field of u is kept. */
  function WithCount(u: PlayerUpdate, o: Outcome, v: int): (r: PlayerUpdate)
    ensures CountField(r, o) == Some(v)
    ensures forall o' :: o' != o ==> CountField(r, o') == CountField(u, o')
    ensures r.elo == u.elo && r.gamesPlayed == u.gamesPlayed
  {
    match o
    case Won => u.(wins := Some(v))
    case Lost => u.(losses := Some(v))
    case Drew => u.(draws := Some(v))
  }

  /** A merge changes a counter exactly when the update names it. */
  lemma MergedCount(p: WebPlayer, u: PlayerUpdate, o: Outcome)
    ensures Count(Merged(p, u), o) == if CountField(u, o).Some? then CountField(u, o).value else Count(p, o)
  {
  }

  /**
   * verifyGame's update for one side: the stored after-rating as an
   * absolute value, one more game, and one more of the outcome's counter.
   */
  function VerifyUpdate(p: WebPlayer, eloAfter: int, o: Outcome): (u: PlayerUpdate)
    ensures var q := Merged(p, u);
      && q.elo == eloAfter && q.gamesPlayed == p.gamesPlayed + 1
      && Count(q, o) == Count(p, o) + 1
      && (forall o' :: o' != o ==> Count(q, o') == Count(p, o'))
      && (Balanced(p) <==> Balanced(q))
  {
    var u := WithCount(PlayerUpdate(Some(eloAfter), Some(p.gamesPlayed + 1), None, None, None), o, Count(p, o) + 1);
    MergedCount(p, u, Won);
    MergedCount(p, u, Lost);
    MergedCount(p, u, Drew);
    u
  }

  /**
   * deleteGame's update for one side of a verified game: the stored
   * before-rating, one game fewer and one fewer of the outcome's counter,
   * neither below 0.
   */
  function RevertUpdate(p: WebPlayer, eloBefore: int, o: Outcome): (u: PlayerUpdate)
    ensures var q := Merged(p, u);
      && q.elo == eloBefore && q.gamesPlayed == Max0(p.gamesPlayed - 1)
      && Count(q, o) == Max0(Count(p, o) - 1)
      && (forall o' :: o' != o ==> Count(q, o') == Count(p, o'))
      && (p.gamesPlayed >= 1 && Count(p, o) >= 1 ==> (Balanced(p) <==> Balanced(q)))
  {
    var u := WithCount(PlayerUpdate(Some(eloBefore), Some(Max0(p.gamesPlayed - 1)), None, None, None), o, Max0(Count(p, o) - 1));
    MergedCount(p, u, Won);
    MergedCount(p, u, Lost);
    MergedCount(p, u, Drew);
    u
  }

  /** Verifying and then deleting restores a player whose counters are not negative. */
  lemma {:induction false} RevertUndoesVerify(p: WebPlayer, eloAfter: int, o: Outcome)
    requires p.gamesPlayed >= 0 && Count(p, o) >= 0
    ensures Merged(Merged(p, VerifyUpdate(p, eloAfter, o)), RevertUpdate(Merged(p, VerifyUpdate(p, eloAfter, o)), p.elo, o)) == p
  {
    var q := Merged(p, VerifyUpdate(p, eloAfter, o));
    var r := Merged(q, RevertUpdate(q, p.elo, o));
    assert Count(r, Won) == Count(p, Won) && Count(r, Lost) == Count(p, Lost) && Count(r, Drew) == Count(p, Drew);
  }

  /**
   * updateGameResult's update for one side of a verified game, as it is
   * evidently meant: take one off the old outcome's counter (not below 0),
   * then add one to the new outcome's counter as it stands after that;
   * the rating becomes the recomputed after-rating, games played is kept.
   */
  function ResultChangeUpdate(p: WebPlayer, newElo: int, oldOutcome: Outcome, newOutcome: Outcome): (u: PlayerUpdate)
    ensures var q := Merged(p, u);
      && q.elo == newElo && q.gamesPlayed == p.gamesPlayed
      && (oldOutcome != newOutcome ==>
            Count(q, oldOutcome) == Max0(Count(p, oldOutcome) - 1) && Count(q, newOutcome) == Count(p, newOutcome) + 1)
      && (oldOutcome == newOutcome ==> Count(q, oldOutcome) == Max0(Count(p, oldOutcome) - 1) + 1)
      && (forall o' :: o' != oldOutcome && o' != newOutcome ==> Count(q, o') == Count(p, o'))
      && (Count(p, oldOutcome) >= 1 ==> (Balanced(p) <==> Balanced(q)))
  {
    var reverted := WithCount(NoFields.(elo := Some(newElo)), oldOutcome, Max0(Count(p, oldOutcome) - 1));
    var mid := Merged(p, reverted);
    var u := WithCount(reverted, newOutcome, Count(mid, newOutcome) + 1);
    MergedCount(p, reverted, newOutcome);
    MergedCount(p, u, Won);
    MergedCount(p, u, Lost);
    MergedCount(p, u, Drew);
    u
  }

  /**
   * A result change on a counted game is the same as deleting the game's
   * effect and verifying it again with the new outcome and rating.
   */
  lemma {:induction false} ResultChangeIsRevertThenVerify(p: WebPlayer, eloBefore: int, newElo: int, oldOutcome: Outcome, newOutcome: Outcome)
    requires p.gamesPlayed >= 1 && Count(p, oldOutcome) >= 1
    ensures Merged(p, ResultChangeUpdate(p, newElo, oldOutcome, newOutcome)) ==
            var mid := Merged(p, RevertUpdate(p, eloBefore, oldOutcome));
            Merged(mid, VerifyUpdate(mid, newElo, newOutcome))
  {
    var q := Merged(p, ResultChangeUpdate(p, newElo, oldOutcome, newOutcome));
    var mid := Merged(p, RevertUpdate(p, eloBefore, oldOutcome));
    var r := Merged(mid, VerifyUpdate(mid, newElo, newOutcome));
    assert Count(q, Won) == Count(r, Won) && Count(q, Lost) == Count(r, Lost) && Count(q, Drew) == Count(r, Drew);
  }

  /** JavaScript's `x || fallback` for a field that may be absent: absent or 0 gives the fallback. */
  function OrElse(x: Option<int>, fallback: int): (r: int)
    ensures x.Some? && x.value != 0 ==> r == x.value
    ensures x.None? || x.value == 0 ==> r == fallback
  {
    if x.Some? && x.value != 0 then x.value else fallback
  }

  /**
   * updateGameResult's update as written: the new counter is
   * `(prevStats.c || player.c || 0) + 1`, so a decrement that reached 0
   * is passed over and the counter read before the decrement is used.
   */
  function ResultChangeUpdateAsWritten(p: WebPlayer, newElo: int, oldOutcome: Outcome, newOutcome: Outcome): (u: PlayerUpdate)
    ensures Merged(p, u).elo == newElo && Merged(p, u).gamesPlayed == p.gamesPlayed
  {
    var prevStats := WithCount(NoFields, oldOutcome, Max0(Count(p, oldOutcome) - 1));
    var withNew := WithCount(prevStats, newOutcome, OrElse(CountField(prevStats, newOutcome), OrElse(Some(Count(p, newOutcome)), 0)) + 1);
    withNew.(elo := Some(newElo))
  }

  /**
   * The written update agrees with the intended one except when the
   * result changes between two strings with the same outcome and that
   * counter was 1 (or negative): then the counter is not restored.
   */
  lemma {:induction false} AsWrittenDiffersExactly(p: WebPlayer, newElo: int, oldOutcome: Outcome, newOutcome: Outcome)
    ensures Merged(p, ResultChangeUpdateAsWritten(p, newElo, oldOutcome, newOutcome)) !=
            Merged(p, ResultChangeUpdate(p, newElo, oldOutcome, newOutcome))
            <==> oldOutcome == newOutcome && Count(p, oldOutcome) != 0 && Count(p, oldOutcome) <= 1
  {
    var prevStats := WithCount(NoFields, oldOutcome, Max0(Count(p, oldOutcome) - 1));
    var withNew := WithCount(prevStats, newOutcome, OrElse(CountField(prevStats, newOutcome), OrElse(Some(Count(p, newOutcome)), 0)) + 1);
    var written := Merged(p, withNew.(elo := Some(newElo)));
    var intended := Merged(p, ResultChangeUpdate(p, newElo, oldOutcome, newOutcome));
    MergedCount(p, withNew.(elo := Some(newElo)), Won);
    MergedCount(p, withNew.(elo := Some(newElo)), Lost);
    MergedCount(p, withNew.(elo := Some(newElo)), Drew);
    if oldOutcome == newOutcome && Count(p, oldOutcome) != 0 && Count(p, oldOutcome) <= 1 {
      assert Count(written, oldOutcome) != Count(intended, oldOutcome);
    } else {
      assert Count(written, Won) == Count(intended, Won);
      assert Count(written, Lost) == Count(intended, Lost);
      assert Count(written, Drew) == Count(intended, Drew);
    }
  }

  /**
   * A verified draw with one draw on record, re-entered as another draw
   * string ("1/2-1/2" to "draw"): the written update leaves two draws for
   * one game and breaks games played = wins + losses + draws.
   */
  lemma DrawToDrawCountsTwice(newElo: int)
    ensures var p := WebPlayer("A", "", false, 1200, 1, 0, 0, 1);
      && WhiteOutcomeOf("1/2-1/2") == WhiteOutcomeOf("draw") == Drew
      && Merged(p, ResultChangeUpdateAsWritten(p, newElo, Drew, Drew)).draws == 2
      && !Balanced(Merged(p, ResultChangeUpdateAsWritten(p, newElo, Drew, Drew)))
      && Merged(p, ResultChangeUpdate(p, newElo, Drew, Drew)).draws == 1
      && Balanced(Merged(p, ResultChangeUpdate(p, newElo, Drew, Drew)))
  {
    var p := WebPlayer("A", "", false, 1200, 1, 0, 0, 1);
    assert "1/2-1/2" != "1-0" && "1/2-1/2" != "0-1";
    assert "draw" != "1-0" && "draw" != "0-1";
    MergedCount(p, ResultChangeUpdateAsWritten(p, newElo, Drew, Drew), Drew);
  }

  // ----- the two player writes of one operation -----

  /**
   * White's update is written, then black's; both update objects were
   * built from the player documents read before either write.
   */
  function BothWritten(players: map<string, WebPlayer>, whiteId: string, blackId: string,
                       whiteUpdate: PlayerUpdate, blackUpdate: PlayerUpdate): (m: map<string, WebPlayer>)
    requires whiteId in players && blackId in players
    ensures m.Keys == players.Keys
    ensures whiteId != blackId ==> m == players[whiteId := Merged(players[whiteId], whiteUpdate)]
                                               [blackId := Merged(players[blackId], blackUpdate)]
  {
    var afterWhite := players[whiteId := Merged(players[whiteId], whiteUpdate)];
    afterWhite[blackId := Merged(afterWhite[blackId], blackUpdate)]
  }

  /** Non-empty, as the `!value` checks demand of ids and results. */
  predicate Present(s: string) {
    s != ""
  }

  class GameService {
    var players: map<string, WebPlayer>
    var games: map<string, WebGame>

    constructor (players: map<string, WebPlayer>)
      ensures this.players == players && games == map[]
    {
      this.players := players;
      games := map[];
    }

    /**
     * createGame: fails when an id or the result is empty or a player
     * does not exist; otherwise adds one unverified game holding both
     * players' current ratings as before-ratings and calculateElo's
     * after-ratings and differences. No player document is written.
     * newId is the id Firestore assigns, which no document has yet.
     */
    method CreateGame(E: ExpectedScore, whitePlayerId: string, blackPlayerId: string, result: string, newId: string)
      returns (r: Result<WebGame, string>)
      requires newId !in games
      modifies this
      ensures r.Failure? <==>
        !Present(whitePlayerId) || !Present(blackPlayerId) || !Present(result) ||
        whitePlayerId !in old(players) || blackPlayerId !in old(players)
      ensures r.Failure? ==> games == old(games)
      ensures r.Success? ==>
        var white, black := old(players)[whitePlayerId], old(players)[blackPlayerId];
        var ratings := EloWeb.CalculateElo(E, white.elo, black.elo, result);
        && games == old(games)[newId := r.value]
        && r.value.whitePlayerId == whitePlayerId && r.value.blackPlayerId == blackPlayerId
        && r.value.whitePlayerName == white.name && r.value.blackPlayerName == black.name
        && r.value.whiteEloBefore == white.elo && r.value.blackEloBefore == black.elo
        && r.value.whiteEloAfter == ratings.whiteNewElo && r.value.blackEloAfter == ratings.blackNewElo
        && r.value.whiteEloChange == ratings.whiteEloDiff && r.value.blackEloChange == ratings.blackEloDiff
        && r.value.whiteEloAfter == r.value.whiteEloBefore + r.value.whiteEloChange
        && r.value.blackEloAfter == r.value.blackEloBefore + r.value.blackEloChange
        && -EloWeb.K <= r.value.whiteEloChange <= EloWeb.K && -EloWeb.K <= r.value.blackEloChange <= EloWeb.K
        && r.value.result == result && !r.value.verified
      ensures players == old(players)
    {
      if !Present(whitePlayerId) || !Present(blackPlayerId) || !Present(result) {
        return Failure("Invalid game data. Required fields: white_player_id, black_player_id, result");
      }
      if whitePlayerId !in players || blackPlayerId !in players {
        return Failure("Player not found");
      }
      var whitePlayer, blackPlayer := players[whitePlayerId], players[blackPlayerId];
      var ratings := EloWeb.CalculateElo(E, whitePlayer.elo, blackPlayer.elo, result);
      var newGame := WebGame(whitePlayerId, blackPlayerId, whitePlayer.name, blackPlayer.name,
                             whitePlayer.elo, blackPlayer.elo, ratings.whiteNewElo, ratings.blackNewElo,
                             ratings.whiteEloDiff, ratings.blackEloDiff, result, false);
      games := games[newId := newGame];
      r := Success(newGame);
    }

    /**
     * verifyGame: fails for an unknown id; an already-verified game is
     * returned and nothing is written; a missing player fails before any
     * write. Otherwise the game is marked verified and each player gets
     * the stored after-rating, one more game and one more of its counter.
     */
    method VerifyGame(gameId: string) returns (r: Result<WebGame, string>)
      modifies this
      ensures gameId !in old(games) ==> r.Failure?
      ensures gameId in old(games) && old(games)[gameId].verified ==> r == Success(old(games)[gameId])
      ensures r.Failure? <==>
        gameId !in old(games) ||
        (!old(games)[gameId].verified &&
         (old(games)[gameId].whitePlayerId !in old(players) || old(games)[gameId].blackPlayerId !in old(players)))
      ensures r.Failure? || old(games)[gameId].verified ==> players == old(players) && games == old(games)
      ensures r.Success? && !old(games)[gameId].verified ==>
        var g := old(games)[gameId];
        var white, black := old(players)[g.whitePlayerId], old(players)[g.blackPlayerId];
        && r.value == g.(verified := true)
        && games == old(games)[gameId := r.value]
        && players == BothWritten(old(players), g.whitePlayerId, g.blackPlayerId,
                                  VerifyUpdate(white, g.whiteEloAfter, WhiteOutcomeOf(g.result)),
                                  VerifyUpdate(black, g.blackEloAfter, BlackOutcomeOf(g.result)))
    {
      if gameId !in games {
        return Failure("Game not found");
      }
      var gameData := games[gameId];
      if gameData.verified {
        return Success(gameData);
      }
      if gameData.whitePlayerId !in players || gameData.blackPlayerId !in players {
        return Failure("Player not found");
      }
      var whitePlayer, blackPlayer := players[gameData.whitePlayerId], players[gameData.blackPlayerId];
      games := games[gameId := gameData.(verified := true)];
      var whitePlayerUpdate := VerifyUpdate(whitePlayer, gameData.whiteEloAfter, WhiteOutcomeOf(gameData.result));
      var blackPlayerUpdate := VerifyUpdate(blackPlayer, gameData.blackEloAfter, BlackOutcomeOf(gameData.result));
      players := players[gameData.whitePlayerId := Merged(players[gameData.whitePlayerId], whitePlayerUpdate)];
      players := players[gameData.blackPlayerId := Merged(players[gameData.blackPlayerId], blackPlayerUpdate)];
      r := Success(games[gameId]);
    }

    /**
     * deleteGame: fails for an unknown id. A verified game first writes
     * both players back to their stored before-ratings with one game and
     * one counter fewer (not below 0), and fails before any write when a
     * player is missing; an unverified game touches no player. Then the
     * game is deleted.
     */
    method DeleteGame(gameId: string) returns (ok: bool)
      modifies this
      ensures ok <==>
        gameId in old(games) &&
        (old(games)[gameId].verified ==>
           old(games)[gameId].whitePlayerId in old(players) && old(games)[gameId].blackPlayerId in old(players))
      ensures !ok ==> players == old(players) && games == old(games)
      ensures ok ==>
        var g := old(games)[gameId];
        && games == old(games) - {gameId}
        && (!g.verified ==> players == old(players))
        && (g.verified ==>
              players == BothWritten(old(players), g.whitePlayerId, g.blackPlayerId,
                                     RevertUpdate(old(players)[g.whitePlayerId], g.whiteEloBefore, WhiteOutcomeOf(g.result)),
                                     RevertUpdate(old(players)[g.blackPlayerId], g.blackEloBefore, BlackOutcomeOf(g.result))))
    {
      if gameId !in games {
        return false;
      }
      var gameData := games[gameId];
      if gameData.verified {
        if gameData.whitePlayerId !in players || gameData.blackPlayerId !in players {
          return false;
        }
        var whitePlayer, blackPlayer := players[gameData.whitePlayerId], players[gameData.blackPlayerId];
        var whitePlayerUpdate := RevertUpdate(whitePlayer, gameData.whiteEloBefore, WhiteOutcomeOf(gameData.result));
        var blackPlayerUpdate := RevertUpdate(blackPlayer, gameData.blackEloBefore, BlackOutcomeOf(gameData.result));
        players := players[gameData.whitePlayerId := Merged(players[gameData.whitePlayerId], whitePlayerUpdate)];
        players := players[gameData.blackPlayerId := Merged(players[gameData.blackPlayerId], blackPlayerUpdate)];
      }
      games := games - {gameId};
      ok := true;
    }

    /**
     * updateGameResult: fails for an unknown id or a missing player
     * before any write; the same result string returns the game with
     * nothing written. Otherwise the game's after-ratings and differences
     * are recomputed from its before-ratings, and a verified game's
     * players get the recomputed ratings and have one count moved from the
     * old outcome's counter to the new one's, games played unchanged.
     */
    method UpdateGameResult(E: ExpectedScore, gameId: string, newResult: string) returns (r: Result<WebGame, string>)
      modifies this
      ensures gameId !in old(games) ==> r.Failure?
      ensures gameId in old(games) && old(games)[gameId].result == newResult ==> r == Success(old(games)[gameId])
      ensures r.Failure? <==>
        gameId !in old(games) ||
        (old(games)[gameId].result != newResult &&
         (old(games)[gameId].whitePlayerId !in old(players) || old(games)[gameId].blackPlayerId !in old(players)))
      ensures r.Failure? || old(games)[gameId].result == newResult ==> players == old(players) && games == old(games)
      ensures r.Success? && old(games)[gameId].result != newResult ==>
        var g := old(games)[gameId];
        var ratings := EloWeb.CalculateElo(E, g.whiteEloBefore, g.blackEloBefore, newResult);
        && r.value == g.(result := newResult, whiteEloAfter := ratings.whiteNewElo, blackEloAfter := ratings.blackNewElo,
                         whiteEloChange := ratings.whiteEloDiff, blackEloChange := ratings.blackEloDiff)
        && games == old(games)[gameId := r.value]
        && (!g.verified ==> players == old(players))
        && (g.verified ==>
              players == BothWritten(old(players), g.whitePlayerId, g.blackPlayerId,
                                     ResultChangeUpdate(old(players)[g.whitePlayerId], ratings.whiteNewElo,
                                                        WhiteOutcomeOf(g.result), WhiteOutcomeOf(newResult)),
                                     ResultChangeUpdate(old(players)[g.blackPlayerId], ratings.blackNewElo,
                                                        BlackOutcomeOf(g.result), BlackOutcomeOf(newResult))))
    {
      if gameId !in games {
        return Failure("Game not found");
      }
      var gameData := games[gameId];
      if gameData.result == newResult {
        return Success(gameData);
      }
      if gameData.whitePlayerId !in players || gameData.blackPlayerId !in players {
        return Failure("Player not found");
      }
      var whitePlayer, blackPlayer := players[gameData.whitePlayerId], players[gameData.blackPlayerId];
      var ratings := EloWeb.CalculateElo(E, gameData.whiteEloBefore, gameData.blackEloBefore, newResult);
      var updatedGame := gameData.(result := newResult, whiteEloAfter := ratings.whiteNewElo, blackEloAfter := ratings.blackNewElo,
                                   whiteEloChange := ratings.whiteEloDiff, blackEloChange := ratings.blackEloDiff);
      games := games[gameId := updatedGame];
      if gameData.verified {
        var whitePrevStats := ResultChangeUpdate(whitePlayer, ratings.whiteNewElo, WhiteOutcomeOf(gameData.result), WhiteOutcomeOf(newResult));
        var blackPrevStats := ResultChangeUpdate(blackPlayer, ratings.blackNewElo, BlackOutcomeOf(gameData.result), BlackOutcomeOf(newResult));
        players := players[gameData.whitePlayerId := Merged(players[gameData.whitePlayerId], whitePrevStats)];
        players := players[gameData.blackPlayerId := Merged(players[gameData.blackPlayerId], blackPrevStats)];
      }
      r := Success(updatedGame);
    }

    /**
     * Creating a game, verifying it and deleting it again restores every
     * player document and the games collection, provided the two players
     * differ and their counters are not negative.
     */
    method CreateVerifyDelete(E: ExpectedScore, whitePlayerId: string, blackPlayerId: string, result: string, newId: string)
      requires newId !in games
      requires Present(whitePlayerId) && Present(blackPlayerId) && Present(result)
      requires whitePlayerId in players && blackPlayerId in players && whitePlayerId != blackPlayerId
      requires players[whitePlayerId].gamesPlayed >= 0 && Count(players[whitePlayerId], WhiteOutcomeOf(result)) >= 0
      requires players[blackPlayerId].gamesPlayed >= 0 && Count(players[blackPlayerId], BlackOutcomeOf(result)) >= 0
      modifies this
      ensures players == old(players) && games == old(games)
    {
      var created := CreateGame(E, whitePlayerId, blackPlayerId, result, newId);
      var g := created.value;
      var verified := VerifyGame(newId);
      var white, black := old(players)[whitePlayerId], old(players)[blackPlayerId];
      var whiteAfter := Merged(white, VerifyUpdate(white, g.whiteEloAfter, WhiteOutcomeOf(result)));
      var blackAfter := Merged(black, VerifyUpdate(black, g.blackEloAfter, BlackOutcomeOf(result)));
      assert players == old(players)[whitePlayerId := whiteAfter][blackPlayerId := blackAfter];
      var deleted := DeleteGame(newId);
      RevertUndoesVerify(white, g.whiteEloAfter, WhiteOutcomeOf(result));
      RevertUndoesVerify(black, g.blackEloAfter, BlackOutcomeOf(result));
      assert games == old(games)[newId := g][newId := g.(verified := true)] - {newId} == old(games);
    }
  }
}
