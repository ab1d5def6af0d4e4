/**
 * Card ranks and the baccarat scorer of api/games/baccarat.js.
 * The engine keeps suitless rank labels, so a card is just its rank.
 */
module Cards {

  datatype Card = Ace | King | Queen | Jack | Ten | Nine | Eight | Seven | Six | Five | Four | Three | Two

  /** The thirteen ranks in the order in which the engine lays out each deck. */
  const Ranks: seq<Card> := [Ace, King, Queen, Jack, Ten, Nine, Eight, Seven, Six, Five, Four, Three, Two]

  /** Baccarat point value: an ace counts 1, a ten or a court card 0, any other card its face value. */
  function CardValue(c: Card): (v: nat)
    ensures v <= 9
    ensures v == 0 <==> c in {Ten, Jack, Queen, King}
    ensures v == 1 <==> c == Ace
  {
    match c
    case Ace => 1
    case King | Queen | Jack | Ten => 0
    case Nine => 9
    case Eight => 8
    case Seven => 7
    case Six => 6
    case Five => 5
    case Four => 4
    case Three => 3
    case Two => 2
  }

  /** Sum of the point values of a hand, before the modulo is taken. */
  function HandTotal(h: seq<Card>): nat
  {
    if h == [] then 0 else HandTotal(h[..|h| - 1]) + CardValue(h[|h| - 1])
  }

  /** The points of a hand: the last digit of its total. */
  function Points(h: seq<Card>): nat
  {
    HandTotal(h) % 10
  }

  /** Points of the first two cards only; a hand with fewer than two cards scores 0. */
  function FirstTwoPoints(h: seq<Card>): nat
  {
    if |h| < 2 then 0 else Points(h[..2])
  }

  /** Adding a card to a hand adds its value to the points, modulo 10. */
  lemma {:induction false} PointsAddCard(h: seq<Card>, c: Card)
    ensures Points(h + [c]) == (Points(h) + CardValue(c)) % 10
  {
    assert (h + [c])[..|h|] == h;
    assert HandTotal(h + [c]) == HandTotal(h) + CardValue(c);
    var t := HandTotal(h);
    assert t == 10 * (t / 10) + t % 10;
    assert t + CardValue(c) == 10 * (t / 10) + (t % 10 + CardValue(c));
  }

  /** Cards added after the first two do not change the first-two points. */
  lemma FirstTwoPointsKept(h: seq<Card>, more: seq<Card>)
    requires |h| == 2
    ensures FirstTwoPoints(h + more) == FirstTwoPoints(h)
  {
    assert (h + more)[..2] == h == h[..2];
  }

  /**
   * The scoring loop: adds up the values of the cards of a hand and keeps the
   * last digit. Its result is the points of the hand, always between 0 and 9.
   */
  method CalculatePoints(cards: seq<Card>) returns (points: nat)
    ensures points == Points(cards)
    ensures points <= 9
  {
    var total := 0;
    var i := 0;
    while i < |cards|
      invariant 0 <= i <= |cards|
      invariant total == HandTotal(cards[..i])
    {
      assert cards[..i + 1][..i] == cards[..i];
      total := total + CardValue(cards[i]);
      i := i + 1;
    }
    assert cards[..|cards|] == cards;
    points := total % 10;
  }

  /** Scores the first two cards of a hand by the scoring loop; 0 for a hand of fewer than two cards. */
  method CalculateFirstTwoPoints(cards: seq<Card>) returns (points: nat)
    ensures points == FirstTwoPoints(cards)
    ensures |cards| < 2 ==> points == 0
    ensures |cards| >= 2 ==> points == Points(cards[..2]) && points <= 9
  {
    if |cards| < 2 {
      return 0;
    }
    points := CalculatePoints(cards[..2]);
  }
}
