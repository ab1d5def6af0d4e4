/**
 * The composition of a fresh shoe in api/games/baccarat.js: four decks, each
 * laid out rank by rank in the order of Cards.Ranks with four copies of every
 * rank, for 208 cards in all.
 */
module Decks {
  import opened Cards

  const DeckCount: nat := 4
  const CopiesPerRank: nat := 4
  const DeckSize: nat := 52
  const ShoeSize: nat := 208

  /** n copies of the card r. */
  function Copies(r: Card, n: nat): (s: seq<Card>)
  {
    if n == 0 then [] else Copies(r, n - 1) + [r]
  }

  /** One deck laid out over the given ranks, four copies of each rank in turn. */
  function Deck(ranks: seq<Card>): (s: seq<Card>)
  {
    if ranks == [] then [] else Deck(ranks[..|ranks| - 1]) + Copies(ranks[|ranks| - 1], CopiesPerRank)
  }

  /** n copies of one deck, one after the other. */
  function Stack(deck: seq<Card>, n: nat): (s: seq<Card>)
  {
    if n == 0 then [] else Stack(deck, n - 1) + deck
  }

  /** The shoe as freshly laid out, before any shuffle. */
  function FourDecks(): seq<Card>
  {
    Stack(Deck(Ranks), DeckCount)
  }

  lemma {:induction false} CopiesRankCount(r: Card, n: nat, c: Card)
    ensures |Copies(r, n)| == n
    ensures multiset(Copies(r, n))[c] == if c == r then n else 0
  {
    if n > 0 {
      CopiesRankCount(r, n - 1, c);
    }
  }

  lemma {:induction false} DeckRankCount(ranks: seq<Card>, c: Card)
    ensures |Deck(ranks)| == CopiesPerRank * |ranks|
    ensures multiset(Deck(ranks))[c] == CopiesPerRank * multiset(ranks)[c]
  {
    if ranks != [] {
      var init, last := ranks[..|ranks| - 1], ranks[|ranks| - 1];
      assert ranks == init + [last];
      DeckRankCount(init, c);
      CopiesRankCount(last, CopiesPerRank, c);
    }
  }

  /** Every rank is listed exactly once. */
  lemma RanksOnce(c: Card)
    ensures multiset(Ranks)[c] == 1
  {
  }

  /** One deck holds 52 cards, four of every rank. */
  lemma OneDeck(c: Card)
    ensures |Deck(Ranks)| == DeckSize
    ensures multiset(Deck(Ranks))[c] == CopiesPerRank
  {
    DeckRankCount(Ranks, c);
    RanksOnce(c);
  }

  lemma {:induction false} StackRankCount(deck: seq<Card>, n: nat, c: Card)
    requires |deck| == DeckSize && multiset(deck)[c] == CopiesPerRank
    ensures |Stack(deck, n)| == DeckSize * n
    ensures multiset(Stack(deck, n))[c] == CopiesPerRank * n
  {
    if n > 0 {
      StackRankCount(deck, n - 1, c);
    }
  }

  /** A fresh shoe fills all 208 slots and holds every rank exactly 16 times. */
  lemma FourDecksComposition(c: Card)
    ensures |FourDecks()| == ShoeSize
    ensures multiset(FourDecks())[c] == 16
  {
    OneDeck(c);
    StackRankCount(Deck(Ranks), DeckCount, c);
  }
}
