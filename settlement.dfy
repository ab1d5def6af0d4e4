/**
 * BaccaratAPI.placeBet of api/games/baccarat.js: checks the player's chips,
 * plays a round, works out the payout, then moves the chips and records the
 * bet in the store.
 */
module Settlement {
  import opened Wrappers
  import opened Tableau
  import opened Game
  import opened Database

  /** The stake limits the HTTP route enforces before a bet reaches placeBet. */
  const MinBet: int := 50
  const MaxBet: int := 5000

  /** What a bet brings back, and whether it is recorded as a win. */
  datatype Payout = Payout(winAmount: int, won: bool)

  datatype BetError = PlayerNotFound | InsufficientFunds

  datatype BetOutcome = BetOutcome(round: Round, betOn: Side, betAmount: int, winAmount: int, netChange: int, player: User)

  /**
   * The payout as coded: a bet on the winning side is a win; a winning player
   * bet brings back the stake, a winning banker bet the stake less 5% rounded
   * down, and a winning tie bet nothing, because it takes the first branch.
   * The eightfold tie payout behind it is never reached.
   */
  function Settle(betOn: Side, winner: Side, bet: int): (p: Payout)
    ensures p.won <==> winner == betOn
    ensures !p.won ==> p.winAmount == 0
    ensures betOn == Tie ==> p.winAmount == 0
    ensures bet >= 0 ==> 0 <= p.winAmount <= bet
  {
    if winner == betOn then
      if betOn == Player then Payout(bet, true)
      else if betOn == Banker then Payout(bet * 95 / 100, true)
      else Payout(0, true)
    else if winner == Tie && betOn == Tie then
      Payout(bet * 8, true)
    else
      Payout(0, false)
  }

  /**
   * The chip change of a settled bet: a won player bet breaks even, a won
   * banker bet loses the 5% commission rounded up, a won tie bet and a lost
   * bet lose the whole stake. It never exceeds 0 and never goes below -bet.
   */
  lemma ChipChange(betOn: Side, winner: Side, bet: int)
    requires bet >= 0
    ensures var change := Settle(betOn, winner, bet).winAmount - bet;
      && -bet <= change <= 0
      && (betOn == Player && winner == Player ==> change == 0)
      && (betOn == Banker && winner == Banker ==> change == -((bet * 5 + 99) / 100))
      && (betOn == Tie || winner != betOn ==> change == -bet)
  {
    if betOn == Banker && winner == Banker {
      var q := bet * 95 / 100;
      assert 100 * q <= bet * 95 < 100 * q + 100;
      var c := (bet * 5 + 99) / 100;
      assert 100 * c <= bet * 5 + 99 < 100 * c + 100;
    }
  }

  class BaccaratApi {
    var game: BaccaratGame

    ghost predicate Valid()
      reads this, game, game.shoe
    {
      game.Valid()
    }

    constructor ()
      ensures Valid() && fresh(game) && fresh(game.shoe)
    {
      game := new BaccaratGame();
    }

    /**
     * The settlement half of a bet, once the round is played: the payout, the
     * chip update with its win or loss count, and the history entry.
     */
    static method SettleRound(db: MemoryAuthDatabase, playerId: PlayerId, betOn: Side, betAmount: int, round: Round, now: int)
      returns (o: BetOutcome)
      requires db.Valid()
      requires playerId in db.users && db.users[playerId].chips >= betAmount >= 0
      modifies db
      ensures db.Valid()
      ensures db.sessions == old(db.sessions)
      ensures
        var p := Settle(betOn, round.winner, betAmount);
        && o.round == round && o.betOn == betOn && o.betAmount == betAmount
        && o.winAmount == p.winAmount
        && o.netChange == p.winAmount - betAmount
        && -betAmount <= o.netChange <= 0
        && db.users == old(db.users)[playerId := Credited(old(db.users)[playerId], o.netChange, p.won, now)]
        && o.player == db.users[playerId] && o.player.chips >= 0
        && db.gameHistory == old(db.gameHistory) + [HistoryEntry(|old(db.gameHistory)| + 1,
             GameRecord(playerId, "baccarat", betAmount, p.winAmount, if p.won then Win else Lose, betOn, round), now)]
      ensures old(db.Solvent()) ==> db.Solvent()
    {
      var payout := Settle(betOn, round.winner, betAmount);
      ChipChange(betOn, round.winner, betAmount);
      var chipChange := payout.winAmount - betAmount;
      var updated := db.UpdatePlayerChips(playerId, chipChange, payout.won, now);
      assert updated.Ok?;

      var result := if payout.won then Win else Lose;
      var _ := db.SaveGameHistory(GameRecord(playerId, "baccarat", betAmount, payout.winAmount, result, betOn, round), now);

      o := BetOutcome(round, betOn, betAmount, payout.winAmount, chipChange, updated.value);
    }

    /**
     * Settles one bet. A player unknown to the store, or one with fewer chips
     * than the stake, is refused before any card is drawn and nothing changes.
     * Otherwise a round is dealt from the game's shoe, the chips move by the payout less the stake,
     * which lies in [-stake, 0], so a solvent store stays solvent, and one
     * history entry is appended.
     */
    method PlaceBet(db: MemoryAuthDatabase, playerId: PlayerId, betOn: Side, betAmount: int, now: int)
      returns (res: Result<BetOutcome, BetError>)
      requires Valid() && db.Valid()
      requires MinBet <= betAmount <= MaxBet
      modifies game, game.shoe, db
      ensures Valid() && db.Valid() && game == old(game)
      ensures db.sessions == old(db.sessions)
      ensures res == Err(PlayerNotFound) <==> playerId !in old(db.users)
      ensures res == Err(InsufficientFunds) <==>
        playerId in old(db.users) && old(db.users)[playerId].chips < betAmount
      ensures res.Err? ==>
        && db.users == old(db.users) && db.gameHistory == old(db.gameHistory)
        && game.cursor == old(game.cursor) && game.shoe[..] == old(game.shoe[..])
      ensures res.Ok? ==>
        var o := res.value;
        var p := Settle(betOn, o.round.winner, betAmount);
        && playerId in old(db.users)
        && FollowsTableau(o.round)
        && DrawnFrom(old(game.shoe[..]), old(game.cursor), game.shoe[..], game.cursor, DealOrder(o.round))
        && o.betOn == betOn && o.betAmount == betAmount
        && o.winAmount == p.winAmount
        && o.netChange == p.winAmount - betAmount
        && -betAmount <= o.netChange <= 0
        && db.users == old(db.users)[playerId := Credited(old(db.users)[playerId], o.netChange, p.won, now)]
        && o.player == db.users[playerId] && o.player.chips >= 0
        && db.gameHistory == old(db.gameHistory) + [HistoryEntry(|old(db.gameHistory)| + 1,
             GameRecord(playerId, "baccarat", betAmount, p.winAmount, if p.won then Win else Lose, betOn, o.round), now)]
      ensures old(db.Solvent()) ==> db.Solvent()
    {
      if playerId !in db.users {
        return Err(PlayerNotFound);
      }
      var chips := db.users[playerId].chips;
      if chips < betAmount {
        return Err(InsufficientFunds);
      }

      var round := game.PlayRound();
      var outcome := SettleRound(db, playerId, betOn, betAmount, round, now);
      res := Ok(outcome);
    }
  }
}
