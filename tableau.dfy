/**
 * The drawing rules and the outcome of one baccarat round, as dealt by
 * BaccaratGame.playRound in api/games/baccarat.js. The rules here are those of
 * the code, which differ from the textbook tableau: there is no stop on a
 * natural 8 or 9, and a banker on 3, 4 or 5 stands whenever the player did
 * not take a third card.
 */
module Tableau {
  import opened Cards

  datatype Side = Player | Banker | Tie

  /** A finished round: both hands as dealt, their final points and the winner. */
  datatype Round = Round(player: seq<Card>, banker: seq<Card>, playerPoints: nat, bankerPoints: nat, winner: Side)

  /** The player takes a third card when the first two cards score at most 5. */
  predicate PlayerDraws(player: seq<Card>)
  {
    FirstTwoPoints(player) <= 5
  }

  /**
   * The banker's third-card decision, branch for branch as the dealer codes it.
   * `player` is the player's hand after the player's own decision; on 3 the
   * code compares the third card's label with "8", on 4, 5 and 6 its value.
   */
  predicate BankerDraws(bankerPoints: int, player: seq<Card>)
  {
    if bankerPoints <= 2 then true
    else if bankerPoints == 3 then |player| == 3 && player[2] != Eight
    else if bankerPoints == 4 then |player| == 3 && CardValue(player[2]) !in {0, 1, 8, 9}
    else if bankerPoints == 5 then |player| == 3 && CardValue(player[2]) !in {0, 1, 2, 3, 8, 9}
    else if bankerPoints == 6 then |player| == 3 && CardValue(player[2]) in {6, 7}
    else false
  }

  /** For a banker on 3 to 6, the values of the player's third card on which the banker draws. */
  function DrawValues(bankerPoints: int): (vs: set<nat>)
    ensures forall v :: v in vs ==> v <= 9
  {
    if bankerPoints == 3 then {0, 1, 2, 3, 4, 5, 6, 7, 9}
    else if bankerPoints == 4 then {2, 3, 4, 5, 6, 7}
    else if bankerPoints == 5 then {4, 5, 6, 7}
    else if bankerPoints == 6 then {6, 7}
    else {}
  }

  /**
   * The coded decision is the table: the banker draws exactly on 0 to 2, or
   * when the player drew a third card whose value is listed for the banker's
   * points. In particular the banker never draws on 7 or more, and stands on
   * 3 to 6 whenever the player did not draw.
   */
  lemma BankerDrawsTable(bankerPoints: int, player: seq<Card>)
    ensures BankerDraws(bankerPoints, player) <==>
      bankerPoints <= 2 || (|player| == 3 && CardValue(player[2]) in DrawValues(bankerPoints))
    ensures bankerPoints >= 7 ==> !BankerDraws(bankerPoints, player)
    ensures |player| != 3 ==> (BankerDraws(bankerPoints, player) <==> bankerPoints <= 2)
  {
    if |player| == 3 && bankerPoints == 3 {
      assert player[2] == Eight <==> CardValue(player[2]) == 8;
    }
  }

  /** The winner is the side with more points; equal points are a tie. */
  function WinnerOf(playerPoints: int, bankerPoints: int): (w: Side)
    ensures w == Player <==> playerPoints > bankerPoints
    ensures w == Banker <==> bankerPoints > playerPoints
    ensures w == Tie <==> playerPoints == bankerPoints
  {
    if playerPoints > bankerPoints then Player
    else if bankerPoints > playerPoints then Banker
    else Tie
  }

  /**
   * A round dealt by the rules: each hand has two or three cards, the player
   * holds a third card exactly when the first two scored at most 5, the banker
   * exactly when BankerDraws held, and the points and the winner are those of
   * the final hands.
   */
  predicate FollowsTableau(r: Round)
  {
    && 2 <= |r.player| <= 3
    && 2 <= |r.banker| <= 3
    && (|r.player| == 3 <==> PlayerDraws(r.player))
    && (|r.banker| == 3 <==> BankerDraws(FirstTwoPoints(r.banker), r.player))
    && r.playerPoints == Points(r.player)
    && r.bankerPoints == Points(r.banker)
    && r.winner == WinnerOf(r.playerPoints, r.bankerPoints)
  }

  /** The cards of a round in the order they leave the shoe: player, player, banker, banker, then any third cards. */
  function DealOrder(r: Round): seq<Card>
    requires |r.player| >= 2 && |r.banker| >= 2
  {
    r.player[..2] + r.banker[..2] + r.player[2..] + r.banker[2..]
  }

  /** A round takes four to six cards from the shoe. */
  lemma DealOrderLength(r: Round)
    requires FollowsTableau(r)
    ensures 4 <= |DealOrder(r)| <= 6
    ensures |DealOrder(r)| == |r.player| + |r.banker|
  {
  }

  /** The cards in deal order determine the whole round: the rules leave no choice. */
  lemma DealOrderDeterminesRound(r1: Round, r2: Round)
    requires FollowsTableau(r1) && FollowsTableau(r2)
    requires DealOrder(r1) == DealOrder(r2)
    ensures r1 == r2
  {
    var d := DealOrder(r1);
    assert r1.player[..2] == d[..2] == r2.player[..2];
    assert r1.banker[..2] == d[2..4] == r2.banker[..2];
    assert FirstTwoPoints(r1.player) == FirstTwoPoints(r2.player);
    assert |r1.player| == |r2.player|;
    if |r1.player| == 3 {
      assert r1.player[2] == d[4] == r2.player[2];
    }
    assert r1.player == r2.player;
    assert FirstTwoPoints(r1.banker) == FirstTwoPoints(r2.banker);
    assert |r1.banker| == |r2.banker|;
    if |r1.banker| == 3 {
      assert r1.banker[2] == d[|d| - 1] == r2.banker[2];
    }
    assert r1.banker == r2.banker;
  }
}
