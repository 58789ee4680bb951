# Chess club rating ledger in Dafny

The chess club keeps a rating (Elo) for each member and a record of the
games between members. Recording a game computes a rating change for each
side, stores those changes on the game, and updates both players' ratings
and win/loss/draw counters. Deleting or reverting a game subtracts the
stored changes again. The repository does this in four back-ends. Each
one is modelled here:

- the Android app's SQLite storage (Java): the `Player` and `Game`
  classes, `EloCalculator`, `PlayerDao`, `GameDao`, the older
  `DatabaseHelper` and the reversal logic of the admin
  `GameManagementFragment`;
- the Node server's game service (`server/services/gameService.js`) and
  its rating calculator;
- the web client's Firestore game service
  (`web/src/firebase/gameService.js`) and its calculator;
- the Kotlin app's data classes, its calculator and the Firestore writes of
  `FirebaseUtils`.

Pure code is modelled as functions and lemmas: the calculators, the Kotlin
data classes and the per-player updates. Code that updates objects or
stores in place is modelled as classes with `modifies` clauses: the Java
`Player`/`Game` objects, the SQLite tables, the server's tables and the
Firestore collections. Each such method states its whole new state in terms
of the old one. The partners of these methods are lemmas such as "revert
undoes apply", "the ledger invariant is preserved" and "games played =
wins + losses + draws is kept".

The expected score `1 / (1 + 10^((opp - self) / 400))` is floating
point. It is the parameter `E: ExpectedScore`, a function from two
ratings to a probability in [0, 1]. Every bound proved here holds for any
such function. The concrete values at equal ratings assume only
`E(r, r) == 0.5`. Rounding is modelled exactly:

- `Math.round` (Java and JavaScript) is `MathRound`, floor(x + 0.5);
- Kotlin's `toInt()` is `ToInt`, truncation toward zero.

The four back-ends differ from one another, and from the textbook Elo rule, in these ways. The model follows each back-end's own code:

- Rounding is half-up (`Math.round`), so -0.5 rounds to 0. The Kotlin
  calculator truncates the new rating toward zero instead of rounding a
  change.
- K is 32 in the Java app and the server, but 20 in the web client and the
  Kotlin app.
- Players start at 1200 in SQLite and on the server, but at 1500 in the
  Kotlin model (`KotlinModel.DEFAULT_RATING`).
- The two changes of a game are computed independently and need not
  cancel (`EloJava.ChangesNeedNotCancel`).
- Reverting in the Java app does not clamp at zero
  (`PlayerJava.RevertIsNotClamped`); the web client clamps each counter
  at 0.
- The web client changes a game's result in place
  (`updateGameResult`) and writes several documents without a
  transaction. Every failure it checks happens before its first write, so
  its failure paths still leave everything unchanged.
- `DatabaseHelper.addGame` applies the players' stats even when the
  insert of the game row fails (id -1): `DatabaseHelper.Helper.AddGame`
  states this.
- `DatabaseHelper` calls `Game.isDraw/whiteWon/blackWon` on an int
  result. These are read with the sign convention of
  `EloCalculator.calculateEloChanges`: 0 is a draw, positive means white
  won, negative means black won.
- The Java DAOs do not forbid a game of a player against themself. Only
  the submit screen checks this (app/src/main/java/com/chessclub/app/ui/game/SubmitGameActivity.java:188-191).
  The model keeps that case: the second row write wins, and the lemmas say
  what holds for it.

The server's ledger invariant (`ServerGames.Ledger`) has three parts:
- every game refers to two existing, distinct players;
- a player's current rating is the initial rating plus the sum of that
  player's stored changes over the verified games;
- verifying and deleting games keep it, and so does creating a game
  between two different players.

The server does not reject a game of a player against themself: the
route checks only that the fields are present
(server/routes/game.js:77). Verifying such a game reads the player once
and writes white's new rating and then black's, so only black's change is
kept (server/services/gameService.js:222-234 and 280-293).
`ServerGames.SelfGameDropsWhiteChange` states this, and with it the
ledger breaks whenever white's change is not zero.

## Model

| member | source | states |
|---|---|---|
| Numeric.MathRound | app/src/main/java/com/chessclub/app/utils/EloCalculator.java:23 | Math.round gives the integer within half of x: x - 0.5 < n <= x + 0.5 |
| Numeric.ToInt | ChessClubAndroid/app/src/main/java/com/chessclub/android/utils/EloCalculator.kt:33-34 | toInt() truncates toward zero: at most x and above x - 1 for x >= 0, and symmetrically below 0 |
| Numeric.MathRoundWithin | app/src/main/java/com/chessclub/app/utils/EloCalculator.java:23 | rounding a value within [-k, k] stays within [-k, k], which bounds every change by K |
| Numeric.MathRoundBetween | app/src/main/java/com/chessclub/app/utils/EloCalculator.java:84 | rounding a value between two integers stays between them |
| Numeric.ToIntShift | ChessClubAndroid/app/src/main/java/com/chessclub/android/utils/EloCalculator.kt:33-34 | truncating old + d with abs(d) <= k moves old by at most k |
| Numeric.Min | app/src/main/java/com/chessclub/app/utils/EloCalculator.java:83 | Math.min is a lower bound of both arguments and equal to one of them |
| Numeric.Abs | ChessClubAndroid/app/src/main/java/com/chessclub/android/utils/EloCalculator.kt:33-34 | the absolute value is n or -n |
| Numeric.DecimalString | app/src/main/java/com/chessclub/app/model/Player.java:160-162 | decimal text of an int: non-empty, starts with '-' exactly for negative numbers, never with '+' |
| Numeric.ParseNatString | app/src/main/java/com/chessclub/app/model/Player.java:160-162 | the digits of a natural number parse back to it |
| Numeric.DecimalRoundTrip | app/src/main/java/com/chessclub/app/model/Player.java:160-162 | the decimal text of every int parses back to that int |
| EloJava.CalculateEloChange | app/src/main/java/com/chessclub/app/utils/EloCalculator.java:18-24 | for a score in [0, 1] the change lies in [-32, 32]; a win never loses rating and a loss never gains |
| EloJava.Scores | app/src/main/java/com/chessclub/app/utils/EloCalculator.java:37-49 | positive result (1, 0), negative (0, 1), zero (0.5, 0.5); the scores sum to 1 |
| EloJava.CalculateEloChanges | app/src/main/java/com/chessclub/app/utils/EloCalculator.java:33-55 | both changes in [-32, 32]; the winner's change is >= 0 and the loser's <= 0 |
| EloJava.ChangesAreIndependent | app/src/main/java/com/chessclub/app/utils/EloCalculator.java:51-52 | each side's change depends only on that side's expected score |
| EloJava.ChangesNeedNotCancel | app/src/main/java/com/chessclub/app/utils/EloCalculator.java:51-52 | with expected scores 0.484375/0.515625 a white win gives (17, -16): the changes are not each other's negatives |
| EloJava.EqualRatings | app/src/main/java/com/chessclub/app/utils/EloCalculator.java:33-55 | at equal ratings a win gives (16, -16), a loss (-16, 16) and a draw (0, 0) |
| EloJava.GetChangeDescription | app/src/main/java/com/chessclub/app/utils/EloCalculator.java:62-68 | the text starts with '+' exactly for positive changes and with '-' exactly for negative ones |
| EloJava.ChangeDescriptionReadsBack | app/src/main/java/com/chessclub/app/utils/EloCalculator.java:62-68 | the number after an optional '+' parses back to the change |
| EloJava.CalculateProvisionalElo | app/src/main/java/com/chessclub/app/utils/EloCalculator.java:77-85 | no games gives the initial rating, 20 or more the performance rating, and otherwise a value between the two |
| EloJava.BlendBetween | app/src/main/java/com/chessclub/app/utils/EloCalculator.java:83-84 | a weighted blend with weight in [0, 1] lies between its two endpoints |
| EloServer.ActualScores | server/utils/eloCalculator.js:20-32 | "1-0" gives (1, 0), "0-1" gives (0, 1), any other string (0.5, 0.5) |
| EloServer.CalculateNewRatings | server/utils/eloCalculator.js:9-48 | new = old + change for both sides, changes in [-32, 32], signs follow the winner |
| EloServer.EqualRatings | server/utils/eloCalculator.js:9-48 | at equal ratings: +16/-16 for a decisive game, no change for a draw |
| EloServer.ChangesAreIndependent | server/utils/eloCalculator.js:14-15 | each change depends only on that side's own expected score |
| EloWeb.ActualScores | web/src/utils/eloCalculator.js:31-41 | "1-0" gives (1, 0), "0-1" gives (0, 1), anything else (0.5, 0.5) |
| EloWeb.CalculateElo | web/src/utils/eloCalculator.js:16-56 | new = old + diff, diffs in [-20, 20], signs follow the winner |
| EloWeb.EqualRatings | web/src/utils/eloCalculator.js:16-56 | at equal ratings: +10/-10 for a decisive game, no change for a draw |
| EloWeb.Ratings | web/src/utils/eloCalculator.js:76 | the ratings as numbers, element by element |
| EloWeb.SumConstant | web/src/utils/eloCalculator.js:79 | a sum of n equal results v is n * v |
| EloWeb.CalculatePerformanceRating | web/src/utils/eloCalculator.js:70-90 | 0 for no ratings or mismatched lengths; average - 400 for all losses and average + 400 for all wins |
| EloKotlin.WhiteActual | ChessClubAndroid/app/src/main/java/com/chessclub/android/utils/EloCalculator.kt:25-29 | "1-0" gives 1, "0-1" gives 0, any other string 0.5 |
| EloKotlin.CalculateNewRatings | ChessClubAndroid/app/src/main/java/com/chessclub/android/utils/EloCalculator.kt:19-37 | each new rating is within 20 of the old; the winner's rating never falls and the loser's never rises |
| EloKotlin.EqualRatingsDraw | ChessClubAndroid/app/src/main/java/com/chessclub/android/utils/EloCalculator.kt:19-37 | a draw at equal ratings changes nothing |
| EloKotlin.NearlyZeroSum | ChessClubAndroid/app/src/main/java/com/chessclub/android/utils/EloCalculator.kt:22-34 | for ratings >= 20 the two truncated changes sum to 0 or -1: truncation can lose one point |
| EloKotlin.CalculatePerformanceRating | ChessClubAndroid/app/src/main/java/com/chessclub/android/utils/EloCalculator.kt:58-69 | 0 for no games; +800 for a perfect score and -800 for zero |
| PlayerJava.AppliedGame | app/src/main/java/com/chessclub/app/database/GameDao.java:298-319 | rating + change, one more game, exactly the outcome's counter + 1, other fields kept, balance kept |
| PlayerJava.RevertedGame | app/src/main/java/com/chessclub/app/ui/admin/GameManagementFragment.java:163-191 | rating - change, one game fewer, exactly the outcome's counter - 1 and the other two kept, other fields kept, balance kept |
| PlayerJava.RevertUndoesApply | app/src/main/java/com/chessclub/app/ui/admin/GameManagementFragment.java:163-191 | reverting a game undoes applying it, and the other way round |
| PlayerJava.RevertIsNotClamped | app/src/main/java/com/chessclub/app/ui/admin/GameManagementFragment.java:169-175 | reverting from zero games drives games played and wins to -1 |
| PlayerJava.Player.constructor | app/src/main/java/com/chessclub/app/model/Player.java:20-27 | a new player has rating 1200, no games, no admin flag, id 0, and its unset (null) strings as "" |
| PlayerJava.Player.FromRecord | app/src/main/java/com/chessclub/app/model/Player.java:30-44 | the full constructor stores every given field |
| PlayerJava.Player.SetId | app/src/main/java/com/chessclub/app/model/Player.java:51 | only the id changes |
| PlayerJava.Player.SetName | app/src/main/java/com/chessclub/app/model/Player.java:59 | only the name changes |
| PlayerJava.Player.SetPinCode | app/src/main/java/com/chessclub/app/model/Player.java:67 | only the pin code changes |
| PlayerJava.Player.SetElo | app/src/main/java/com/chessclub/app/model/Player.java:75 | only the rating changes |
| PlayerJava.Player.SetGamesPlayed | app/src/main/java/com/chessclub/app/model/Player.java:83 | only games played changes |
| PlayerJava.Player.SetWins | app/src/main/java/com/chessclub/app/model/Player.java:91 | only wins change |
| PlayerJava.Player.SetLosses | app/src/main/java/com/chessclub/app/model/Player.java:99 | only losses change |
| PlayerJava.Player.SetDraws | app/src/main/java/com/chessclub/app/model/Player.java:107 | only draws change |
| PlayerJava.Player.SetAdmin | app/src/main/java/com/chessclub/app/model/Player.java:115 | only the admin flag changes |
| PlayerJava.Player.SetEmail | app/src/main/java/com/chessclub/app/model/Player.java:123 | only the email changes |
| PlayerJava.Player.SetPhoneNumber | app/src/main/java/com/chessclub/app/model/Player.java:131 | only the phone number changes |
| PlayerJava.Player.IncrementGamesPlayed | app/src/main/java/com/chessclub/app/model/Player.java:136-138 | games played + 1, nothing else |
| PlayerJava.Player.IncrementWins | app/src/main/java/com/chessclub/app/model/Player.java:140-142 | wins + 1, nothing else |
| PlayerJava.Player.IncrementLosses | app/src/main/java/com/chessclub/app/model/Player.java:144-146 | losses + 1, nothing else |
| PlayerJava.Player.IncrementDraws | app/src/main/java/com/chessclub/app/model/Player.java:148-150 | draws + 1, nothing else |
| PlayerJava.Player.GetWinRate | app/src/main/java/com/chessclub/app/model/Player.java:152-157 | 0 without games; a percentage in [0, 100] when 0 <= wins <= games played |
| PlayerJava.Player.ToString | app/src/main/java/com/chessclub/app/model/Player.java:160-162 | the name, " (", the rating's decimal text that parses back to the rating, and ")" |
| PlayerJava.WinRateBound | app/src/main/java/com/chessclub/app/model/Player.java:152-157 | wins / games * 100 lies in [0, 100] |
| GameJava.ResultSign | app/src/main/java/com/chessclub/app/utils/EloCalculator.java:30 | white win positive, black win negative, draw zero, in both directions |
| GameJava.OutcomesMirror | app/src/main/java/com/chessclub/app/database/GameDao.java:298-319 | white wins exactly when black loses, and so on; the outcomes differ exactly for decisive results |
| GameJava.GameRecord.GetWinnerId | app/src/main/java/com/chessclub/app/model/Game.java:99-109 | white's id for a white win, black's for a black win, -1 for a draw |
| GameJava.GameRecord.GetLoserId | app/src/main/java/com/chessclub/app/model/Game.java:115-125 | black's id for a white win, white's for a black win, -1 for a draw |
| GameJava.GameRecord.GetEloChangeForPlayer | app/src/main/java/com/chessclub/app/model/Game.java:160-167 | white's stored change for white (checked first), black's for black, 0 for anyone else |
| GameJava.WonMeansWinner | app/src/main/java/com/chessclub/app/model/Game.java:132-145 | playerWon/playerLost hold exactly for the winner/loser id of a decisive game |
| GameJava.DrawHasNoWinner | app/src/main/java/com/chessclub/app/model/Game.java:151-153 | in a draw nobody won or lost, and both ids are -1 |
| GameJava.WonAndLostExclusive | app/src/main/java/com/chessclub/app/model/Game.java:132-145 | between two different players nobody both won and lost |
| GameJava.SelfGameWonAndLost | app/src/main/java/com/chessclub/app/model/Game.java:132-145 | in a game against oneself a white win is both a win and a loss for that player |
| GameJava.DecisiveOneWinnerOneLoser | app/src/main/java/com/chessclub/app/model/Game.java:99-145 | a decisive game between two players has exactly one winner and one loser, and they differ |
| GameJava.OutcomesAgreeWithQueries | app/src/main/java/com/chessclub/app/model/Game.java:132-153 | the outcome applied to each side agrees with playerWon, playerLost and isDraw |
| GameJava.Game.constructor | app/src/main/java/com/chessclub/app/model/Game.java:22-24 | a new game has no result, zero ids and changes, and today's date |
| GameJava.Game.FromRecord | app/src/main/java/com/chessclub/app/model/Game.java:27-36 | the full constructor stores every given field |
| GameJava.Game.SetId | app/src/main/java/com/chessclub/app/model/Game.java:43-45 | only the id changes |
| GameJava.Game.SetWhitePlayerId | app/src/main/java/com/chessclub/app/model/Game.java:51-53 | only white's id changes |
| GameJava.Game.SetBlackPlayerId | app/src/main/java/com/chessclub/app/model/Game.java:59-61 | only black's id changes |
| GameJava.Game.SetResult | app/src/main/java/com/chessclub/app/model/Game.java:67-69 | only the result changes |
| GameJava.Game.SetDate | app/src/main/java/com/chessclub/app/model/Game.java:75-77 | only the date changes |
| GameJava.Game.SetWhiteEloChange | app/src/main/java/com/chessclub/app/model/Game.java:83-85 | only white's change changes |
| GameJava.Game.SetBlackEloChange | app/src/main/java/com/chessclub/app/model/Game.java:91-93 | only black's change changes |
| SqliteDb.Stored | app/src/main/java/com/chessclub/app/database/PlayerDao.java:57-81 | UPDATE by id replaces the row when the id exists and otherwise changes nothing; the keys are kept |
| SqliteDb.Applied | app/src/main/java/com/chessclub/app/database/GameDao.java:298-349 | only the two players' rows change; the key set is kept |
| SqliteDb.Reverted | app/src/main/java/com/chessclub/app/ui/admin/GameManagementFragment.java:163-191 | only the two players' rows change; the key set is kept |
| SqliteDb.RevertRestoresPlayers | app/src/main/java/com/chessclub/app/ui/admin/GameManagementFragment.java:163-191 | reverting a recorded game restores the players table exactly, even for a self-game |
| SqliteDb.ApplyRevertKeepBalance | app/src/main/java/com/chessclub/app/database/GameDao.java:298-319 | recording and reverting keep games played = wins + losses + draws for every player |
| SqliteDb.DecisiveGivesOneWinOneLoss | app/src/main/java/com/chessclub/app/database/GameDao.java:298-319 | between two players: ratings move by the stored changes; a decisive game gives exactly one win and one loss, a draw a draw each |
| PlayerDao.OutcomeOfSign | app/src/main/java/com/chessclub/app/database/PlayerDao.java:274-280 | a positive result is a win, negative a loss, zero a draw, in both directions |
| PlayerDao.SignsMatchOutcomes | app/src/main/java/com/chessclub/app/database/PlayerDao.java:264-285 | the int convention and the enum give each side the same outcome |
| PlayerDao.GetPlayerById | app/src/main/java/com/chessclub/app/database/PlayerDao.java:104-125 | null exactly when no row has the id; otherwise a fresh object holding that row |
| PlayerDao.UpdatePlayer | app/src/main/java/com/chessclub/app/database/PlayerDao.java:57-81 | one row affected exactly when the id exists; the table becomes Stored(old, player) |
| PlayerDao.UpdatePlayerAfterGame | app/src/main/java/com/chessclub/app/database/PlayerDao.java:264-285 | succeeds exactly when the player exists, and then applies the game to that row alone |
| PlayerDao.UpdatePlayerPinCode | app/src/main/java/com/chessclub/app/database/PlayerDao.java:293-306 | succeeds exactly when the player exists, and then stores the hashed pin and nothing else |
| PlayerDao.IsPlayerAdmin | app/src/main/java/com/chessclub/app/database/PlayerDao.java:313-316 | true exactly for an existing admin |
| GameDao.DeleteGame | app/src/main/java/com/chessclub/app/database/GameDao.java:81-89 | one row affected exactly when the game exists; it is removed and players are untouched |
| GameDao.WriteStats | app/src/main/java/com/chessclub/app/database/GameDao.java:322-349 | the five stat columns of an existing row are overwritten from the object |
| GameDao.InlineEloChanges | app/src/main/java/com/chessclub/app/database/GameDao.java:242-264 | the inlined computation gives the same changes as EloCalculator.calculateEloChanges |
| GameDao.RecordForPlayer | app/src/main/java/com/chessclub/app/database/GameDao.java:298-319 | the object's stats become AppliedGame of the old ones |
| GameDao.RecordedGame | app/src/main/java/com/chessclub/app/database/GameDao.java:267-273 | the stored game carries both ids, the result, the date and changes in [-32, 32] with the winner's signs |
| GameDao.RecordGameWithEloUpdate | app/src/main/java/com/chessclub/app/database/GameDao.java:227-357 | -1 exactly when a player is missing or the insert fails, and then nothing changes; otherwise the game is stored and both rows are Applied |
| GameDao.InsertAndApply | app/src/main/java/com/chessclub/app/database/GameDao.java:276-355 | the game gets the next id and both players' rows are Applied in one transaction |
| GameManagement.RevertGameStats | app/src/main/java/com/chessclub/app/ui/admin/GameManagementFragment.java:163-191 | both objects become RevertedGame of their old stats and both rows are written |
| GameManagement.DeleteGame | app/src/main/java/com/chessclub/app/ui/admin/GameManagementFragment.java:133-155 | a missing player stops it with no change; otherwise the stats are reverted and the game row deleted |
| GameManagement.RecordThenDelete | app/src/main/java/com/chessclub/app/ui/admin/GameManagementFragment.java:133-191 | recording a game and then deleting it restores both tables |
| DatabaseHelper.WhiteOutcome | app/src/main/java/com/chessclub/app/database/DatabaseHelper.java:329-338 | white drew, won or lost exactly when the result is zero, positive or negative |
| DatabaseHelper.BlackOutcome | app/src/main/java/com/chessclub/app/database/DatabaseHelper.java:329-338 | black drew, won or lost exactly when the result is zero, negative or positive |
| DatabaseHelper.AddGame | app/src/main/java/com/chessclub/app/database/DatabaseHelper.java:325-338 | rating + change, exactly the outcome's counter + 1 and the other two kept, every other column kept |
| DatabaseHelper.RemoveGame | app/src/main/java/com/chessclub/app/database/DatabaseHelper.java:379-392 | rating - change, exactly the outcome's counter - 1 and the other two kept, every other column kept |
| DatabaseHelper.RemoveUndoesAdd | app/src/main/java/com/chessclub/app/database/DatabaseHelper.java:319-398 | removing a game's stats undoes adding them |
| DatabaseHelper.UpdatedRow | app/src/main/java/com/chessclub/app/database/DatabaseHelper.java:138-156 | every column comes from the new row, except that an empty pin keeps the stored hash |
| DatabaseHelper.WriteBackIsIdentity | app/src/main/java/com/chessclub/app/database/DatabaseHelper.java:138-156 | writing a row back unchanged changes nothing |
| DatabaseHelper.Applied | app/src/main/java/com/chessclub/app/database/DatabaseHelper.java:319-344 | nothing happens unless both players exist; the key set is kept |
| DatabaseHelper.Reverted | app/src/main/java/com/chessclub/app/database/DatabaseHelper.java:373-398 | nothing happens unless both players exist; the key set is kept |
| DatabaseHelper.RevertRestoresPlayers | app/src/main/java/com/chessclub/app/database/DatabaseHelper.java:349-398 | reversing a game's stats restores the players table exactly |
| DatabaseHelper.DecisiveGivesOneWinOneLoss | app/src/main/java/com/chessclub/app/database/DatabaseHelper.java:319-344 | between two players: ratings move by the stored changes; a decisive game gives exactly one win and one loss, a draw a draw each |
| DatabaseHelper.GameCount | app/src/main/java/com/chessclub/app/database/DatabaseHelper.java:161-180 | the count is zero exactly when no game involves the player |
| DatabaseHelper.Helper.OnCreate | app/src/main/java/com/chessclub/app/database/DatabaseHelper.java:60-109 | the new database holds only the admin player with the hashed default pin "1234" and rating 1200 |
| DatabaseHelper.Helper.UpdatePlayer | app/src/main/java/com/chessclub/app/database/DatabaseHelper.java:138-156 | one row exactly when the id exists, and then it becomes UpdatedRow |
| DatabaseHelper.Helper.DeletePlayer | app/src/main/java/com/chessclub/app/database/DatabaseHelper.java:161-180 | a player with games is kept (-1); otherwise the row is removed and the count of removed rows returned |
| DatabaseHelper.Helper.UpdatePlayerStatsAfterGame | app/src/main/java/com/chessclub/app/database/DatabaseHelper.java:319-344 | the players table becomes Applied |
| DatabaseHelper.Helper.ReversePlayerStatsForGame | app/src/main/java/com/chessclub/app/database/DatabaseHelper.java:373-398 | the players table becomes Reverted |
| DatabaseHelper.Helper.AddGame | app/src/main/java/com/chessclub/app/database/DatabaseHelper.java:296-314 | a successful insert stores the game under the next id; the stats are applied in both cases |
| DatabaseHelper.Helper.DeleteGame | app/src/main/java/com/chessclub/app/database/DatabaseHelper.java:349-368 | true exactly when the game exists; its stats are reversed and its row removed |
| DatabaseHelper.Helper.AddThenDelete | app/src/main/java/com/chessclub/app/database/DatabaseHelper.java:296-368 | adding a game and deleting it restores both tables |
| ServerGames.NewPlayer | server/schema.js:8-10 | a new player is not an admin and starts with initial and current rating 1200 |
| ServerGames.TotalRemove | server/services/gameService.js:280-281 | the ledger sum splits into one game's share plus the rest |
| ServerGames.TotalAfterPut | server/services/gameService.js:212-219 | storing a game changes the sum by the new share minus the replaced one |
| ServerGames.TotalAfterRemove | server/services/gameService.js:362-365 | removing a game takes its share off the sum |
| ServerGames.Shifted | server/services/gameService.js:222-234 | only the game's two players change; the key set is kept |
| ServerGames.SelfGameDropsWhiteChange | server/services/gameService.js:222-234 | for a verified game against oneself the rating gains only black's change, while the game's share is both changes, so the ledger breaks when white's change is not zero |
| ServerGames.ShiftedUndo | server/services/gameService.js:344-357 | subtracting a game's changes undoes adding them |
| ServerGames.LedgerAfterPut | server/services/gameService.js:212-300 | storing an unverified game keeps the ledger; storing a verified one keeps it once both ratings are shifted |
| ServerGames.LedgerAfterRemove | server/services/gameService.js:328-365 | removing a game keeps the ledger, after shifting back if it was verified |
| ServerGames.GameStore.CreateGame | server/services/gameService.js:183-242 | fails exactly for a missing player or an unknown result, changing nothing; otherwise stores the calculated changes, applies them when verified, and keeps the ledger when the players differ |
| ServerGames.GameStore.VerifyGame | server/services/gameService.js:247-308 | not found, already verified and missing player each change nothing; otherwise both ratings move by the stored changes, the game is verified and the ledger kept |
| ServerGames.GameStore.DeleteGame | server/services/gameService.js:313-373 | true exactly when the game exists; a verified game's changes are subtracted when both players exist; the ledger is kept |
| ServerGames.GameStore.CreateVerifyDelete | server/services/gameService.js:183-373 | create, verify and delete restore players and games exactly |
| WebGames.WhiteOutcomeOf | web/src/firebase/gameService.js:192-202 | white won exactly for "1-0" and lost exactly for "0-1" |
| WebGames.BlackOutcomeOf | web/src/firebase/gameService.js:196-202 | black's outcome mirrors white's |
| WebGames.Max0 | web/src/firebase/gameService.js:241-262 | Math.max(0, n): non-negative, at least n, either n or 0 |
| WebGames.Merged | web/src/firebase/playerService.js:128-156 | updateDoc writes only the fields present; name, pin and admin flag are kept |
| WebGames.WithCount | web/src/firebase/gameService.js:340-350 | sets the outcome's counter field and no other field |
| WebGames.MergedCount | web/src/firebase/playerService.js:128-156 | a counter after the merge is the written value if present and the old one otherwise |
| WebGames.VerifyUpdate | web/src/firebase/gameService.js:188-202 | rating = after-rating, games + 1, the outcome's counter + 1, other counters kept; balance kept |
| WebGames.RevertUpdate | web/src/firebase/gameService.js:241-262 | rating = before-rating, games and the counter lowered by one but not below 0; balance kept when both are >= 1 |
| WebGames.RevertUndoesVerify | web/src/firebase/gameService.js:188-262 | reverting a verified game's update restores the player exactly, for non-negative counters |
| WebGames.ResultChangeUpdate | web/src/firebase/gameService.js:327-350 | corrected: new rating, games kept, old counter lowered (not below 0) then new counter + 1; balance kept |
| WebGames.ResultChangeIsRevertThenVerify | web/src/firebase/gameService.js:327-350 | the corrected result change equals reverting the old outcome and then verifying the new one |
| WebGames.OrElse | web/src/firebase/gameService.js:340-350 | JavaScript's x \|\| y: x unless it is missing or 0, otherwise y |
| WebGames.ResultChangeUpdateAsWritten | web/src/firebase/gameService.js:327-350 | as written: new rating, games kept |
| WebGames.AsWrittenDiffersExactly | web/src/firebase/gameService.js:340-350 | the code as written differs from the corrected update exactly when the outcome is unchanged and its counter is 1 |
| WebGames.DrawToDrawCountsTwice | web/src/firebase/gameService.js:340-350 | "1/2-1/2" to "draw" with one draw: as written draws becomes 2 and balance breaks; corrected it stays 1 |
| WebGames.BothWritten | web/src/firebase/gameService.js:205-206 | white's update and then black's; for distinct players exactly those two documents change |
| WebGames.GameService.constructor | web/src/firebase/gameService.js:102-153 | a service over the given players with no games |
| WebGames.GameService.CreateGame | web/src/firebase/gameService.js:102-153 | fails exactly for a missing field or player; otherwise stores an unverified game with before-ratings, after-ratings and diffs from calculateElo; players never change |
| WebGames.GameService.VerifyGame | web/src/firebase/gameService.js:158-218 | not found or missing player fail with no change; a verified game is returned unchanged; otherwise both players get VerifyUpdate and the game is verified |
| WebGames.GameService.DeleteGame | web/src/firebase/gameService.js:223-277 | true exactly when the game exists and, if verified, both players exist; a verified game's players get RevertUpdate; the game is removed |
| WebGames.GameService.UpdateGameResult | web/src/firebase/gameService.js:282-374 | the same result is a no-op; otherwise the ratings are recomputed from the before-ratings and, if verified, both players get the corrected ResultChangeUpdate |
| WebGames.GameService.CreateVerifyDelete | web/src/firebase/gameService.js:102-277 | create, verify and delete restore players and games exactly |
| KotlinModel.DefaultPlayer | ChessClubAndroid/app/src/main/java/com/chessclub/android/model/Player.kt:3-14 | rating 1500, no games, not an admin, empty pin |
| KotlinModel.GetWinRate | ChessClubAndroid/app/src/main/java/com/chessclub/android/model/Player.kt:16-19 | 0 without games; in [0, 1] when 0 <= won <= played |
| KotlinModel.GetDrawRate | ChessClubAndroid/app/src/main/java/com/chessclub/android/model/Player.kt:22-25 | 0 without games; in [0, 1] when 0 <= drawn <= played |
| KotlinModel.Ratio | ChessClubAndroid/app/src/main/java/com/chessclub/android/model/Player.kt:16-25 | a part of a whole lies in [0, 1] |
| KotlinModel.RatioBound | ChessClubAndroid/app/src/main/java/com/chessclub/android/model/Player.kt:16-25 | part / whole lies in [0, 1] for 0 <= part <= whole |
| KotlinModel.ToDisplayPlayer | ChessClubAndroid/app/src/main/java/com/chessclub/android/model/Player.kt:28-30 | the display copy has an empty pin |
| KotlinModel.DisplayHidesOnlyPin | ChessClubAndroid/app/src/main/java/com/chessclub/android/model/Player.kt:28-30 | two display copies are equal exactly when the players differ at most in their pins; copying twice changes nothing more |
| KotlinModel.DefaultGame | ChessClubAndroid/app/src/main/java/com/chessclub/android/model/Game.kt:3-15 | unverified, empty ids and result, zero ratings, dated now |
| KotlinModel.GetWinnerId | ChessClubAndroid/app/src/main/java/com/chessclub/android/model/Game.kt:18-24 | white's id for "1-0", black's for "0-1", "" otherwise; FirebaseUtils.WinnerMatchesFlags relates it to the counted flags |
| KotlinModel.GetWinnerName | ChessClubAndroid/app/src/main/java/com/chessclub/android/model/Game.kt:27-33 | white's name for "1-0", black's for "0-1", "Draw" otherwise; FirebaseUtils.WinnerMatchesFlags pairs it with the winner id |
| KotlinModel.GetResultDisplayText | ChessClubAndroid/app/src/main/java/com/chessclub/android/model/Game.kt:36-43 | fixed labels for the three result codes; any other string shown as it is |
| KotlinModel.DisplayTextRelabelsOnlyCodes | ChessClubAndroid/app/src/main/java/com/chessclub/android/model/Game.kt:36-43 | the text differs from the stored result exactly for the three codes |
| FirebaseUtils.ResultFlags | ChessClubAndroid/app/src/main/java/com/chessclub/android/utils/FirebaseUtils.kt:172-174 | each flag is 1 exactly for its own code; the flags sum to 1 for a code and 0 otherwise |
| FirebaseUtils.Updated | ChessClubAndroid/app/src/main/java/com/chessclub/android/utils/FirebaseUtils.kt:177-192 | new rating, one more game, each of won, lost and drawn raised by its own flag, identity fields kept |
| FirebaseUtils.WinnerMatchesFlags | ChessClubAndroid/app/src/main/java/com/chessclub/android/model/Game.kt:18-33 | the winner id and name agree with the result flags createGame counts: white or black exactly when its win flag is set, "" and "Draw" when neither is; for distinct non-empty ids the winner is the side whose gamesWon rises |
| FirebaseUtils.CanonicalResultKeepsBalance | ChessClubAndroid/app/src/main/java/com/chessclub/android/utils/FirebaseUtils.kt:172-192 | for a result code each side's balance is kept, and white's win pairs with black's loss |
| FirebaseUtils.OtherResultBreaksBalance | ChessClubAndroid/app/src/main/java/com/chessclub/android/utils/FirebaseUtils.kt:172-192 | any other result raises games played but no counter, so a balanced player becomes unbalanced, though it rates as a draw |
| FirebaseUtils.FirestoreDb.CreateGame | ChessClubAndroid/app/src/main/java/com/chessclub/android/utils/FirebaseUtils.kt:141-207 | null exactly for a missing player or a failed batch, with no change; otherwise the verified game and both player updates are written together, each rating within 20 |
| FirebaseUtils.FirestoreDb.CreatePlayer | ChessClubAndroid/app/src/main/java/com/chessclub/android/utils/FirebaseUtils.kt:238-268 | null exactly for a taken name or a failed write; otherwise a balanced player at 1500; unique names stay unique |
| FirebaseUtils.FirestoreDb.CreateGameKeepsBalance | ChessClubAndroid/app/src/main/java/com/chessclub/android/utils/FirebaseUtils.kt:141-207 | a committed game between two players with a result code keeps every player balanced |

## Left out

- The expected score and `Math.log10` are floating point. They are the parameters `E` and `Log10`. Double rounding of intermediate values is not modelled; rounding and truncation of the final value are.
- Ratings that are not whole numbers (a JavaScript `Number`, or `Number(rating)` of a string) are not modelled. Ratings are integers.
- Web counters are integers. A missing counter (`undefined + 1`) is not captured.
- The clock, Firestore's generated ids, SQLite's insert result, the batch or write outcome and the pin hash are parameters (`now`, `newId`, `insertSucceeds`, `batchCommits`, `writeSucceeds`, `HashPin`).
- The model does not cover concurrency, network failures between the web client's separate writes, or the websocket notifications.
- Queries, cursors, sorting and the SQL and Drizzle plumbing are left out. Rows and documents are maps from ids to values.
- The server's player service, routes and authentication are not part of this model. So is the cascading delete of a player's games (server/schema.js:20-21).
- The UI, other than the reversal logic of the admin game screen, is not part of this model. Seed and reset scripts are not part of it either.
- PlayerJava.Player.constructor: Java leaves name, pinCode, email and phoneNumber null; the model has no null strings and uses "", so `toString()` of a default player reads " (1200)" here where Java prints "null (1200)".
- GameJava.GameRecord.GetWinnerId: a game with no result makes Java throw a NullPointerException at the switch (model/Game.java:100); the model requires a result instead of modelling the exception.
- GameJava.GameRecord.GetLoserId: likewise for a game with no result (model/Game.java:116).
- PlayerJava.Player.GetWinRate: the result is the exact quotient; Java's double division is not modelled.
- KotlinModel.GetWinRate: the result is the exact quotient; Kotlin's Float division is not modelled.
- KotlinModel.GetDrawRate: the result is the exact quotient; Kotlin's Float division is not modelled.
- EloKotlin.CalculatePerformanceRating: states only the two fixed cases; the logarithm case depends on `Log10`.
- EloWeb.CalculatePerformanceRating: states only the guard and the two fixed cases; the logarithm case depends on `Log10`.
- Java int overflow of ratings and counters is not modelled (integers are unbounded).

## Findings

| source | as written | input that shows it | evidently intended | confidence | as-written member | corrected member |
|---|---|---|---|---|---|---|
| web/src/firebase/gameService.js:340-350 | when a verified game's result is changed, the new outcome's counter is `(prevStats.c \|\| player.c \|\| 0) + 1`, so a counter that the revert step set to 0 falls back to the player's old value | a verified game changed from "1/2-1/2" to "draw" for a player with one game and one draw: draws becomes 2 while games played stays 1 | revert the old outcome and then count the new one: draws stays 1 | medium, not executed; the function has no caller in the web pages | WebGames.ResultChangeUpdateAsWritten (WebGames.DrawToDrawCountsTwice, WebGames.AsWrittenDiffersExactly) | WebGames.ResultChangeUpdate (used by WebGames.GameService.UpdateGameResult) |
