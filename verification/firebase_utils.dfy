/**
 * The Kotlin app's writes to Firestore: FirebaseUtils.createGame and the
 * duplicate-name check of FirebaseUtils.createPlayer. A game and both
 * player updates go in one batch, so they are written together or not at
 * all; whether the batch (or the player write) commits is a parameter, as
 * are the ids Firestore assigns and the clock reading.
 */
module FirebaseUtils {
  import opened Numeric
  import opened Wrappers
  import opened KotlinModel
  import EloKotlin

  type PlayerDocs = map<string, KPlayer>
  type GameDocs = map<string, KGame>

  /** The flags createGame derives from the exact result strings: (whiteWins, blackWins, draws). */
  function ResultFlags(result: string): (f: (int, int, int))
    ensures f.0 + f.1 + f.2 == if IsCanonical(result) then 1 else 0
    ensures f.0 == 1 <==> result == "1-0"
    ensures f.1 == 1 <==> result == "0-1"
    ensures f.2 == 1 <==> result == "1/2-1/2"
    ensures 0 <= f.0 <= 1 && 0 <= f.1 <= 1 && 0 <= f.2 <= 1
  {
    (if result == "1-0" then 1 else 0, if result == "0-1" then 1 else 0, if result == "1/2-1/2" then 1 else 0)
  }

  predicate Balanced(p: KPlayer) {
    p.gamesPlayed == p.gamesWon + p.gamesLost + p.gamesDrawn
  }

  /**
   * The fields one side's update map writes: the new rating, one more
   * game, and the three counters raised by the flags that side scores.
   */
  function Updated(p: KPlayer, newRating: int, won: int, lost: int, drawn: int): (q: KPlayer)
    ensures q.id == p.id && q.name == p.name && q.isAdmin == p.isAdmin && q.pin == p.pin && q.createdAt == p.createdAt
    ensures q.rating == newRating && q.gamesPlayed == p.gamesPlayed + 1
    ensures q.gamesWon == p.gamesWon + won && q.gamesLost == p.gamesLost + lost && q.gamesDrawn == p.gamesDrawn + drawn
    ensures q.gamesWon + q.gamesLost + q.gamesDrawn == p.gamesWon + p.gamesLost + p.gamesDrawn + won + lost + drawn
  {
    p.(rating := newRating, gamesPlayed := p.gamesPlayed + 1,
       gamesWon := p.gamesWon + won, gamesLost := p.gamesLost + lost, gamesDrawn := p.gamesDrawn + drawn)
  }

  /** White scores (whiteWins, blackWins, draws) as (won, lost, drawn). */
  function WhiteUpdated(p: KPlayer, newRating: int, result: string): KPlayer {
    var f := ResultFlags(result);
    Updated(p, newRating, f.0, f.1, f.2)
  }

  /** Black scores (blackWins, whiteWins, draws) as (won, lost, drawn). */
  function BlackUpdated(p: KPlayer, newRating: int, result: string): KPlayer {
    var f := ResultFlags(result);
    Updated(p, newRating, f.1, f.0, f.2)
  }

  /**
   * For the three result codes each side gains exactly one counter,
   * white's win pairs with black's loss and a draw is a draw for both, so
   * games played = won + lost + drawn is kept on both sides.
   */
  lemma {:induction false} CanonicalResultKeepsBalance(white: KPlayer, black: KPlayer, whiteNew: int, blackNew: int, result: string)
    requires IsCanonical(result)
    ensures Balanced(WhiteUpdated(white, whiteNew, result)) <==> Balanced(white)
    ensures Balanced(BlackUpdated(black, blackNew, result)) <==> Balanced(black)
    ensures var w, b := WhiteUpdated(white, whiteNew, result), BlackUpdated(black, blackNew, result);
      && (w.gamesWon == white.gamesWon + 1 <==> b.gamesLost == black.gamesLost + 1)
      && (w.gamesLost == white.gamesLost + 1 <==> b.gamesWon == black.gamesWon + 1)
      && (w.gamesDrawn == white.gamesDrawn + 1 <==> b.gamesDrawn == black.gamesDrawn + 1)
  {
    var f := ResultFlags(result);
    assert f.0 + f.1 + f.2 == 1;
  }

  /**
   * Any other result string (a draw for the rating rule) raises games
   * played but no counter, so a balanced player stops being balanced.
   */
  lemma {:induction false} OtherResultBreaksBalance(white: KPlayer, black: KPlayer, whiteNew: int, blackNew: int, result: string)
    requires !IsCanonical(result)
    ensures WhiteUpdated(white, whiteNew, result).gamesPlayed == white.gamesPlayed + 1
    ensures Balanced(white) ==> !Balanced(WhiteUpdated(white, whiteNew, result))
    ensures Balanced(black) ==> !Balanced(BlackUpdated(black, blackNew, result))
    ensures EloKotlin.WhiteActual(result) == 0.5
  {
    var f := ResultFlags(result);
    assert f == (0, 0, 0);
  }

  /**
   * The winner shown for a game agrees with the flags its creation
   * counted: white is the winner exactly when white's win flag is set,
   * black exactly when black's is, and a game with neither flag has no
   * winner id and the name "Draw". With two different, non-empty player
   * ids, the winner id names the one side whose gamesWon rises.
   */
  lemma WinnerMatchesFlags(g: KGame, white: KPlayer, black: KPlayer, whiteNew: int, blackNew: int)
    ensures var f := ResultFlags(g.result);
      && (f.0 == 1 ==> GetWinnerId(g) == g.whitePlayerId && GetWinnerName(g) == g.whitePlayerName)
      && (f.1 == 1 ==> GetWinnerId(g) == g.blackPlayerId && GetWinnerName(g) == g.blackPlayerName)
      && (f.0 + f.1 == 0 ==> GetWinnerId(g) == "" && GetWinnerName(g) == "Draw")
      && (f.0 + f.1 == 1 <==> IsDecisive(g.result))
    ensures GetWinnerId(g) == "" || GetWinnerId(g) == g.whitePlayerId || GetWinnerId(g) == g.blackPlayerId
    ensures g.whitePlayerId != g.blackPlayerId && g.whitePlayerId != "" && g.blackPlayerId != "" ==>
      && (GetWinnerId(g) == g.whitePlayerId <==> WhiteUpdated(white, whiteNew, g.result).gamesWon == white.gamesWon + 1)
      && (GetWinnerId(g) == g.blackPlayerId <==> BlackUpdated(black, blackNew, g.result).gamesWon == black.gamesWon + 1)
      && (GetWinnerId(g) == "" <==> !IsDecisive(g.result))
  {
  }

  predicate UniqueNames(players: PlayerDocs) {
    forall a, b :: a in players && b in players && players[a].name == players[b].name ==> a == b
  }

  predicate NameTaken(players: PlayerDocs, name: string) {
    exists id :: id in players && players[id].name == name
  }

  class FirestoreDb {
    var players: PlayerDocs
    var games: GameDocs

    /**
     * createGame: null when a player is missing or the batch fails, and
     * then nothing is written. Otherwise the game document is stored,
     * verified, with both players' prior ratings and the ratings
     * calculateNewRatings gives, and each player's document gets that new
     * rating, one more game and the counters the result flags select.
     * newId is the id Firestore assigns, which no document has yet.
     */
    method CreateGame(E: ExpectedScore, whitePlayerId: string, blackPlayerId: string, result: string,
                      newId: string, now: int, batchCommits: bool) returns (r: Option<string>)
      requires newId !in games
      modifies this
      ensures r.None? <==> whitePlayerId !in old(players) || blackPlayerId !in old(players) || !batchCommits
      ensures r.None? ==> players == old(players) && games == old(games)
      ensures r.Some? ==>
        var white, black := old(players)[whitePlayerId], old(players)[blackPlayerId];
        var ratings := EloKotlin.CalculateNewRatings(E, white.rating, black.rating, result);
        && r.value == newId
        && games == old(games)[newId := KGame(newId, whitePlayerId, blackPlayerId, result, now, true,
                                               white.name, black.name, white.rating, black.rating, ratings.0, ratings.1)]
        && players == old(players)[whitePlayerId := WhiteUpdated(white, ratings.0, result)]
                                  [blackPlayerId := BlackUpdated(black, ratings.1, result)]
      ensures r.Some? ==>
        var g := games[newId];
        && g.verified
        && Abs(g.whitePlayerRatingAfter - g.whitePlayerRatingBefore) <= EloKotlin.K_FACTOR
        && Abs(g.blackPlayerRatingAfter - g.blackPlayerRatingBefore) <= EloKotlin.K_FACTOR
        && players[blackPlayerId].rating == g.blackPlayerRatingAfter
        && (whitePlayerId != blackPlayerId ==> players[whitePlayerId].rating == g.whitePlayerRatingAfter)
    {
      if whitePlayerId !in players || blackPlayerId !in players {
        return None;
      }
      var whitePlayer, blackPlayer := players[whitePlayerId], players[blackPlayerId];
      var (whiteNewRating, blackNewRating) := EloKotlin.CalculateNewRatings(E, whitePlayer.rating, blackPlayer.rating, result);
      var game := KGame(newId, whitePlayerId, blackPlayerId, result, now, true,
                        whitePlayer.name, blackPlayer.name, whitePlayer.rating, blackPlayer.rating,
                        whiteNewRating, blackNewRating);
      var (whiteWins, blackWins, draws) := ResultFlags(result);
      var whiteUpdates := Updated(whitePlayer, whiteNewRating, whiteWins, blackWins, draws);
      var blackUpdates := Updated(blackPlayer, blackNewRating, blackWins, whiteWins, draws);
      if !batchCommits {
        return None;
      }
      // the batch: set the game, update white, update black (each update writes all five fields)
      games := games[newId := game];
      players := players[whitePlayerId := whiteUpdates];
      players := players[blackPlayerId := blackUpdates];
      r := Some(newId);
    }

    /**
     * createPlayer: null when a player already has this name (or the
     * write fails); otherwise a new document with rating 1500, no games,
     * the given pin and admin flag. A store with unique names keeps them.
     * newId is the id Firestore assigns, which no document has yet.
     */
    method CreatePlayer(name: string, pin: string, isAdmin: bool, newId: string, now: int, writeSucceeds: bool)
      returns (r: Option<string>)
      requires newId !in players
      modifies this
      ensures r.None? <==> NameTaken(old(players), name) || !writeSucceeds
      ensures r.None? ==> players == old(players)
      ensures r.Some? ==>
        && r.value == newId
        && players == old(players)[newId := KPlayer(newId, name, DEFAULT_RATING, 0, 0, 0, 0, isAdmin, pin, now)]
        && Balanced(players[newId])
      ensures UniqueNames(old(players)) ==> UniqueNames(players)
      ensures games == old(games)
    {
      var existing := exists id :: id in players && players[id].name == name;
      if existing {
        return None;
      }
      if !writeSucceeds {
        return None;
      }
      var player := DefaultPlayer(now).(id := newId, name := name, rating := DEFAULT_RATING, pin := pin, isAdmin := isAdmin);
      players := players[newId := player];
      r := Some(newId);
    }

    /**
     * With two different players and one of the three result codes, a
     * committed game keeps every player's games played = won + lost +
     * drawn.
     */
    method CreateGameKeepsBalance(E: ExpectedScore, whitePlayerId: string, blackPlayerId: string, result: string,
                                  newId: string, now: int)
      requires newId !in games && whitePlayerId != blackPlayerId && IsCanonical(result)
      requires forall id :: id in players ==> Balanced(players[id])
      modifies this
      ensures forall id :: id in players ==> Balanced(players[id])
    {
      ghost var before := players;
      var r := CreateGame(E, whitePlayerId, blackPlayerId, result, newId, now, true);
      if r.Some? {
        var ratings := EloKotlin.CalculateNewRatings(E, before[whitePlayerId].rating, before[blackPlayerId].rating, result);
        CanonicalResultKeepsBalance(before[whitePlayerId], before[blackPlayerId], ratings.0, ratings.1, result);
      }
    }
  }
}
