/**
 * The Android (SQLite) app's player: model/Player.java.
 * A mutable object whose counters are changed in place; its value as a
 * row of the players table is a PlayerRecord. Java's null strings are
 * modelled as "".
 */
module PlayerJava {
  import opened Numeric

  const DEFAULT_ELO: int := 1200

  datatype PlayerRecord = PlayerRecord(
    id: int, name: string, pinCode: string, elo: int,
    gamesPlayed: int, wins: int, losses: int, draws: int,
    isAdmin: bool, email: string, phoneNumber: string)
  {
    /** Every game played is exactly one of a win, a loss or a draw. */
    predicate Balanced() {
      gamesPlayed == wins + losses + draws
    }
  }

  /** How one game ended for one of its two players. */
  datatype Outcome = Won | Lost | Drew

  /**
   * The stats of one player after one recorded game: the rating moves by
   * the game's stored change, gamesPlayed and the counter of the outcome
   * rise by one; identity fields are kept.
   */
  function AppliedGame(p: PlayerRecord, eloChange: int, outcome: Outcome): (q: PlayerRecord)
    ensures q.elo == p.elo + eloChange && q.gamesPlayed == p.gamesPlayed + 1
    ensures q.wins + q.losses + q.draws == p.wins + p.losses + p.draws + 1
    ensures q.wins == p.wins + (if outcome == Won then 1 else 0)
    ensures q.losses == p.losses + (if outcome == Lost then 1 else 0)
    ensures q.draws == p.draws + (if outcome == Drew then 1 else 0)
    ensures p.Balanced() <==> q.Balanced()
    ensures q.(elo := p.elo, gamesPlayed := p.gamesPlayed, wins := p.wins, losses := p.losses, draws := p.draws) == p
  {
    var q := p.(elo := p.elo + eloChange, gamesPlayed := p.gamesPlayed + 1);
    match outcome
    case Won => q.(wins := p.wins + 1)
    case Lost => q.(losses := p.losses + 1)
    case Drew => q.(draws := p.draws + 1)
  }

  /**
   * The stats of one player after a game is removed: the stored change is
   * subtracted, gamesPlayed and the counter of the outcome fall by one,
   * with no clamping at zero.
   */
  function RevertedGame(p: PlayerRecord, eloChange: int, outcome: Outcome): (q: PlayerRecord)
    ensures q.elo == p.elo - eloChange && q.gamesPlayed == p.gamesPlayed - 1
    ensures q.wins + q.losses + q.draws == p.wins + p.losses + p.draws - 1
    ensures q.wins == p.wins - (if outcome == Won then 1 else 0)
    ensures q.losses == p.losses - (if outcome == Lost then 1 else 0)
    ensures q.draws == p.draws - (if outcome == Drew then 1 else 0)
    ensures p.Balanced() <==> q.Balanced()
    ensures q.(elo := p.elo, gamesPlayed := p.gamesPlayed, wins := p.wins, losses := p.losses, draws := p.draws) == p
  {
    var q := p.(elo := p.elo - eloChange, gamesPlayed := p.gamesPlayed - 1);
    match outcome
    case Won => q.(wins := p.wins - 1)
    case Lost => q.(losses := p.losses - 1)
    case Drew => q.(draws := p.draws - 1)
  }

  /** Reverting with the stored change and outcome restores the player exactly. */
  lemma RevertUndoesApply(p: PlayerRecord, eloChange: int, outcome: Outcome)
    ensures RevertedGame(AppliedGame(p, eloChange, outcome), eloChange, outcome) == p
    ensures AppliedGame(RevertedGame(p, eloChange, outcome), eloChange, outcome) == p
  {
  }

  /** Reverting a game that was never applied drives a zero counter negative. */
  lemma RevertIsNotClamped(p: PlayerRecord, eloChange: int)
    requires p.gamesPlayed == 0 && p.wins == 0
    ensures RevertedGame(p, eloChange, Won).gamesPlayed == -1
    ensures RevertedGame(p, eloChange, Won).wins == -1
  {
  }

  class Player {
    var id: int
    var name: string
    var pinCode: string
    var elo: int
    var gamesPlayed: int
    var wins: int
    var losses: int
    var draws: int
    var isAdmin: bool
    var email: string
    var phoneNumber: string

    function Record(): (r: PlayerRecord)
      reads this
      ensures r.id == id && r.elo == elo && r.gamesPlayed == gamesPlayed
      ensures r.wins == wins && r.losses == losses && r.draws == draws
    {
      PlayerRecord(id, name, pinCode, elo, gamesPlayed, wins, losses, draws, isAdmin, email, phoneNumber)
    }

    /** The default constructor: rating 1200, no games, not an admin. */
    constructor ()
      ensures Record() == PlayerRecord(0, "", "", DEFAULT_ELO, 0, 0, 0, 0, false, "", "")
    {
      id, name, pinCode := 0, "", "";
      elo := DEFAULT_ELO;
      gamesPlayed, wins, losses, draws := 0, 0, 0, 0;
      isAdmin := false;
      email, phoneNumber := "", "";
    }

    /** The all-fields constructor, as used when a row is read back. */
    constructor FromRecord(r: PlayerRecord)
      ensures Record() == r
    {
      id, name, pinCode, elo := r.id, r.name, r.pinCode, r.elo;
      gamesPlayed, wins, losses, draws := r.gamesPlayed, r.wins, r.losses, r.draws;
      isAdmin, email, phoneNumber := r.isAdmin, r.email, r.phoneNumber;
    }

    method SetId(id: int)
      modifies this
      ensures Record() == old(Record()).(id := id)
    {
      this.id := id;
    }

    method SetName(name: string)
      modifies this
      ensures Record() == old(Record()).(name := name)
    {
      this.name := name;
    }

    method SetPinCode(pinCode: string)
      modifies this
      ensures Record() == old(Record()).(pinCode := pinCode)
    {
      this.pinCode := pinCode;
    }

    method SetElo(elo: int)
      modifies this
      ensures Record() == old(Record()).(elo := elo)
    {
      this.elo := elo;
    }

    method SetGamesPlayed(gamesPlayed: int)
      modifies this
      ensures Record() == old(Record()).(gamesPlayed := gamesPlayed)
    {
      this.gamesPlayed := gamesPlayed;
    }

    method SetWins(wins: int)
      modifies this
      ensures Record() == old(Record()).(wins := wins)
    {
      this.wins := wins;
    }

    method SetLosses(losses: int)
      modifies this
      ensures Record() == old(Record()).(losses := losses)
    {
      this.losses := losses;
    }

    method SetDraws(draws: int)
      modifies this
      ensures Record() == old(Record()).(draws := draws)
    {
      this.draws := draws;
    }

    method SetAdmin(admin: bool)
      modifies this
      ensures Record() == old(Record()).(isAdmin := admin)
    {
      isAdmin := admin;
    }

    method SetEmail(email: string)
      modifies this
      ensures Record() == old(Record()).(email := email)
    {
      this.email := email;
    }

    method SetPhoneNumber(phoneNumber: string)
      modifies this
      ensures Record() == old(Record()).(phoneNumber := phoneNumber)
    {
      this.phoneNumber := phoneNumber;
    }

    method IncrementGamesPlayed()
      modifies this
      ensures Record() == old(Record()).(gamesPlayed := old(gamesPlayed) + 1)
    {
      gamesPlayed := gamesPlayed + 1;
    }

    method IncrementWins()
      modifies this
      ensures Record() == old(Record()).(wins := old(wins) + 1)
    {
      wins := wins + 1;
    }

    method IncrementLosses()
      modifies this
      ensures Record() == old(Record()).(losses := old(losses) + 1)
    {
      losses := losses + 1;
    }

    method IncrementDraws()
      modifies this
      ensures Record() == old(Record()).(draws := old(draws) + 1)
    {
      draws := draws + 1;
    }

    /** Percentage of games won; 0 before the first game. */
    function GetWinRate(): (rate: real)
      reads this
      ensures gamesPlayed == 0 ==> rate == 0.0
      ensures 0 < gamesPlayed && 0 <= wins <= gamesPlayed ==> 0.0 <= rate <= 100.0
    {
      if gamesPlayed == 0 then 0.0
      else
        WinRateBound(wins, gamesPlayed);
        wins as real / gamesPlayed as real * 100.0
    }

    /** name + " (" + elo + ")" */
    function ToString(): (s: string)
      reads this
      ensures |s| >= |name| + 4
      ensures s[..|name|] == name && s[|name|..|name| + 2] == " (" && s[|s| - 1] == ')'
      ensures var digits := s[|name| + 2..|s| - 1];
              DecimalParsable(digits) && ParseDecimal(digits) == elo
    {
      var s := name + " (" + DecimalString(elo) + ")";
      assert s[|name| + 2..|s| - 1] == DecimalString(elo);
      DecimalRoundTrip(elo);
      s
    }
  }

  lemma WinRateBound(wins: int, gamesPlayed: int)
    requires gamesPlayed != 0
    ensures 0 < gamesPlayed && 0 <= wins <= gamesPlayed ==> 0.0 <= wins as real / gamesPlayed as real * 100.0 <= 100.0
  {
    if 0 < gamesPlayed && 0 <= wins <= gamesPlayed {
      var q := wins as real / gamesPlayed as real;
      assert q * gamesPlayed as real == wins as real;
      assert 0.0 <= q <= 1.0;
    }
  }
}
