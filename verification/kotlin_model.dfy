/**
 * The Kotlin app's immutable data classes: model/Player.kt and
 * model/Game.kt. Every field is a `val`, so each is a datatype here and no
 * operation changes its receiver; `copy` is an update expression. The
 * clock reading a default takes is the parameter now.
 */
module KotlinModel {
  const DEFAULT_RATING: int := 1500

  datatype KPlayer = KPlayer(
    id: string, name: string, rating: int, gamesPlayed: int,
    gamesWon: int, gamesLost: int, gamesDrawn: int,
    isAdmin: bool, pin: string, createdAt: int)

  /** Player() with every default: rating 1500, no games, not an admin, empty pin. */
  function DefaultPlayer(now: int): (p: KPlayer)
    ensures p.rating == DEFAULT_RATING
    ensures p.gamesPlayed == 0 && p.gamesWon == 0 && p.gamesLost == 0 && p.gamesDrawn == 0
    ensures !p.isAdmin && p.pin == "" && p.id == "" && p.name == "" && p.createdAt == now
  {
    KPlayer("", "", DEFAULT_RATING, 0, 0, 0, 0, false, "", now)
  }

  /** gamesWon / gamesPlayed, or 0 with no games; Float rounding is not modelled. */
  function GetWinRate(p: KPlayer): (r: real)
    ensures p.gamesPlayed == 0 ==> r == 0.0
    ensures 0 <= p.gamesWon <= p.gamesPlayed ==> 0.0 <= r <= 1.0
  {
    if p.gamesPlayed == 0 then 0.0 else Ratio(p.gamesWon, p.gamesPlayed)
  }

  /** gamesDrawn / gamesPlayed, or 0 with no games. */
  function GetDrawRate(p: KPlayer): (r: real)
    ensures p.gamesPlayed == 0 ==> r == 0.0
    ensures 0 <= p.gamesDrawn <= p.gamesPlayed ==> 0.0 <= r <= 1.0
  {
    if p.gamesPlayed == 0 then 0.0 else Ratio(p.gamesDrawn, p.gamesPlayed)
  }

  /** part / whole as a fraction, for whole != 0. */
  function Ratio(part: int, whole: int): (r: real)
    requires whole != 0
    ensures 0 <= part <= whole ==> 0.0 <= r <= 1.0
  {
    RatioBound(part, whole);
    part as real / whole as real
  }

  lemma RatioBound(part: int, whole: int)
    requires whole != 0
    ensures 0 <= part <= whole ==> 0.0 <= part as real / whole as real <= 1.0
  {
    if 0 <= part <= whole {
      assert part as real / whole as real * whole as real == part as real;
    }
  }

  /** copy(pin = ""). */
  function ToDisplayPlayer(p: KPlayer): (q: KPlayer)
    ensures q.pin == ""
  {
    p.(pin := "")
  }

  /**
   * The display copy hides the pin and nothing else: two players have the
   * same display copy exactly when they differ at most in their pins, and
   * taking the copy twice changes nothing more.
   */
  lemma DisplayHidesOnlyPin(p: KPlayer, p': KPlayer)
    ensures ToDisplayPlayer(p) == ToDisplayPlayer(p') <==> p.(pin := p'.pin) == p'
    ensures ToDisplayPlayer(ToDisplayPlayer(p)) == ToDisplayPlayer(p)
  {
    if ToDisplayPlayer(p) == ToDisplayPlayer(p') {
      assert ToDisplayPlayer(p).rating == ToDisplayPlayer(p').rating;
    }
  }

  datatype KGame = KGame(
    id: string, whitePlayerId: string, blackPlayerId: string, result: string, date: int, verified: bool,
    whitePlayerName: string, blackPlayerName: string,
    whitePlayerRatingBefore: int, blackPlayerRatingBefore: int,
    whitePlayerRatingAfter: int, blackPlayerRatingAfter: int)

  /** Game() with every default: unverified, empty ids, names and result, zero ratings. */
  function DefaultGame(now: int): (g: KGame)
    ensures !g.verified && g.id == "" && g.whitePlayerId == "" && g.blackPlayerId == "" && g.result == ""
    ensures g.whitePlayerRatingBefore == 0 && g.blackPlayerRatingBefore == 0
    ensures g.whitePlayerRatingAfter == 0 && g.blackPlayerRatingAfter == 0
    ensures g.date == now
  {
    KGame("", "", "", "", now, false, "", "", 0, 0, 0, 0)
  }

  predicate IsDecisive(result: string) {
    result == "1-0" || result == "0-1"
  }

  /** The winner's id; "" for a draw or any other string. */
  function GetWinnerId(g: KGame): (id: string)
    ensures g.result == "1-0" ==> id == g.whitePlayerId
    ensures g.result == "0-1" ==> id == g.blackPlayerId
    ensures !IsDecisive(g.result) ==> id == ""
  {
    if g.result == "1-0" then g.whitePlayerId
    else if g.result == "0-1" then g.blackPlayerId
    else ""
  }

  /** The winner's name; "Draw" for a draw or any other string. */
  function GetWinnerName(g: KGame): (name: string)
    ensures g.result == "1-0" ==> name == g.whitePlayerName
    ensures g.result == "0-1" ==> name == g.blackPlayerName
    ensures !IsDecisive(g.result) ==> name == "Draw"
  {
    if g.result == "1-0" then g.whitePlayerName
    else if g.result == "0-1" then g.blackPlayerName
    else "Draw"
  }

  const WHITE_WINS_TEXT: string := "1-0 (White wins)"
  const BLACK_WINS_TEXT: string := "0-1 (Black wins)"
  const DRAW_TEXT: string := "\U{BD}-\U{BD} (Draw)"

  predicate IsCanonical(result: string) {
    result == "1-0" || result == "0-1" || result == "1/2-1/2"
  }

  /** The three result codes get fixed labels; any other string is shown as it is. */
  function GetResultDisplayText(g: KGame): (text: string)
    ensures g.result == "1-0" ==> text == WHITE_WINS_TEXT
    ensures g.result == "0-1" ==> text == BLACK_WINS_TEXT
    ensures g.result == "1/2-1/2" ==> text == DRAW_TEXT
    ensures !IsCanonical(g.result) ==> text == g.result
  {
    match g.result
    case "1-0" => WHITE_WINS_TEXT
    case "0-1" => BLACK_WINS_TEXT
    case "1/2-1/2" => DRAW_TEXT
    case _ => g.result
  }

  /** The text differs from the stored result exactly for the three result codes. */
  lemma DisplayTextRelabelsOnlyCodes(g: KGame)
    ensures GetResultDisplayText(g) != g.result <==> IsCanonical(g.result)
  {
    if g.result == "1-0" {
      assert |WHITE_WINS_TEXT| != |g.result|;
    } else if g.result == "0-1" {
      assert |BLACK_WINS_TEXT| != |g.result|;
    } else if g.result == "1/2-1/2" {
      assert DRAW_TEXT[0] != g.result[0];
    }
  }
}
