/**
 * BaccaratGame of api/games/baccarat.js: a 208-slot shoe held in an array,
 * a cursor to the next card, and the dealer that plays one round from it.
 */
module Game {
  import opened Cards
  import opened Decks
  import opened Tableau

  /** Cards kept in reserve: the shoe is reshuffled before a draw once this many or fewer remain past the cursor. */
  const Reserve: nat := 10

  /**
   * `dealt` is what a run of draws took from a shoe holding `before` with the
   * cursor at `from`, leaving it holding `after` with the cursor at `to`: the
   * cards from the cursor on while the reserve margin is not reached, so the
   * shoe is untouched; once it is reached, the cards up to the margin followed
   * by the first cards of the reshuffled shoe.
   */
  ghost predicate DrawnFrom(before: seq<Card>, from: nat, after: seq<Card>, to: nat, dealt: seq<Card>)
  {
    && |before| == ShoeSize && from <= ShoeSize - Reserve
    && if from + |dealt| <= ShoeSize - Reserve then
         && after == before
         && to == from + |dealt|
         && dealt == before[from..to]
       else
         && to == from + |dealt| - (ShoeSize - Reserve)
         && to <= |after|
         && dealt == before[from..ShoeSize - Reserve] + after[..to]
  }

  /** Whatever has been shuffled and dealt, the shoe holds 208 cards, 16 of every rank. */
  lemma ShoeComposition(g: BaccaratGame, c: Card)
    requires g.Valid()
    ensures g.shoe.Length == 208
    ensures multiset(g.shoe[..])[c] == 16
  {
    FourDecksComposition(c);
    assert Stack(Deck(g.ranks), DeckCount) == FourDecks();
  }

  class BaccaratGame {
    /** The rank labels one deck is laid out from. */
    const ranks: seq<Card>
    var shoe: array<Card>
    var cursor: nat

    /**
     * The shoe has its 208 slots, is always some ordering of four fresh decks,
     * and the cursor never passes the reserve margin.
     */
    ghost predicate Valid()
      reads this, shoe
    {
      && ranks == Ranks
      && shoe.Length == ShoeSize
      && cursor <= ShoeSize - Reserve
      && multiset(shoe[..]) == multiset(Stack(Deck(ranks), DeckCount))
    }

    /** Lays out four decks and shuffles them. */
    constructor ()
      ensures Valid() && fresh(shoe)
      ensures cursor == 0
    {
      ranks := Ranks;
      shoe := new Card[ShoeSize];
      cursor := 0;
      new;
      InitDecks();
      ShuffleCards();
    }

    /** Fills the shoe deck by deck, rank by rank, four copies of each rank. */
    method InitDecks()
      requires |ranks| == 13 && shoe.Length == ShoeSize
      modifies shoe
      ensures shoe[..] == Stack(Deck(ranks), DeckCount)
    {
      var index := 0;
      var deck := 0;
      while deck < DeckCount
        invariant 0 <= deck <= DeckCount
        invariant index == DeckSize * deck
        invariant shoe[..index] == Stack(Deck(ranks), deck)
      {
        var i := 0;
        while i < |ranks|
          invariant 0 <= i <= |ranks|
          invariant index == DeckSize * deck + CopiesPerRank * i
          invariant shoe[..index] == Stack(Deck(ranks), deck) + Deck(ranks[..i])
        {
          var j := 0;
          while j < CopiesPerRank
            invariant 0 <= j <= CopiesPerRank
            invariant index == DeckSize * deck + CopiesPerRank * i + j
            invariant shoe[..index] == Stack(Deck(ranks), deck) + Deck(ranks[..i]) + Copies(ranks[i], j)
          {
            shoe[index] := ranks[i];
            assert shoe[..index + 1] == shoe[..index] + [ranks[i]];
            index := index + 1;
            j := j + 1;
          }
          assert ranks[..i + 1][..i] == ranks[..i];
          i := i + 1;
        }
        assert ranks[..|ranks|] == ranks;
        deck := deck + 1;
      }
      assert shoe[..] == shoe[..index];
    }

    /** Fisher-Yates: every slot from the last down to the second swaps with a slot at or below it; the cursor restarts. */
    method ShuffleCards()
      modifies this`cursor, shoe
      ensures multiset(shoe[..]) == old(multiset(shoe[..]))
      ensures cursor == 0
    {
      var i := shoe.Length - 1;
      while i > 0
        invariant i < shoe.Length
        invariant multiset(shoe[..]) == old(multiset(shoe[..]))
      {
        var j :| 0 <= j <= i;
        shoe[i], shoe[j] := shoe[j], shoe[i];
        i := i - 1;
      }
      cursor := 0;
    }

    /**
     * Reshuffles when the cursor has reached the reserve margin, then deals the
     * card under the cursor and advances it. The read is always in bounds.
     */
    method DrawCard() returns (c: Card)
      requires Valid()
      modifies this`cursor, shoe
      ensures Valid()
      ensures 1 <= cursor && c == shoe[cursor - 1]
      ensures old(cursor) < ShoeSize - Reserve ==>
        shoe[..] == old(shoe[..]) && cursor == old(cursor) + 1 && c == old(shoe[cursor])
      ensures old(cursor) >= ShoeSize - Reserve ==>
        cursor == 1 && c == shoe[0]
    {
      if cursor >= shoe.Length - Reserve {
        ShuffleCards();
      }
      c := shoe[cursor];
      cursor := cursor + 1;
    }

    /** The cards dealt so far in this round were drawn from the shoe `s` with the cursor at `start`. */
    ghost predicate DealtFrom(s: seq<Card>, start: nat, dealt: seq<Card>)
      reads this, shoe
    {
      DrawnFrom(s, start, shoe[..], cursor, dealt)
    }

    /** DrawCard, with the cards dealt so far in this round kept as a ghost record. */
    method DealNext(ghost s: seq<Card>, ghost start: nat, ghost dealt: seq<Card>) returns (c: Card)
      requires Valid() && DealtFrom(s, start, dealt) && |dealt| < 6
      modifies this`cursor, shoe
      ensures Valid() && DealtFrom(s, start, dealt + [c])
    {
      c := DrawCard();
      if start + |dealt| < ShoeSize - Reserve {
        assert s[start..start + |dealt| + 1] == s[start..start + |dealt|] + [s[start + |dealt|]];
      } else if start + |dealt| > ShoeSize - Reserve {
        assert shoe[..cursor] == shoe[..cursor - 1] + [shoe[cursor - 1]];
      } else {
        assert shoe[..1] == [shoe[0]];
      }
    }

    /** The first four cards: player, player, banker, banker. */
    method DealOpening(ghost s: seq<Card>, ghost start: nat) returns (playerCards: seq<Card>, bankerCards: seq<Card>, ghost dealt: seq<Card>)
      requires Valid() && DealtFrom(s, start, [])
      modifies this`cursor, shoe
      ensures Valid() && DealtFrom(s, start, dealt)
      ensures |playerCards| == 2 && |bankerCards| == 2
      ensures dealt == playerCards + bankerCards
    {
      var c1 := DealNext(s, start, []);
      var c2 := DealNext(s, start, [c1]);
      var c3 := DealNext(s, start, [c1, c2]);
      var c4 := DealNext(s, start, [c1, c2, c3]);
      playerCards := [c1, c2];
      bankerCards := [c3, c4];
      dealt := [c1, c2, c3, c4];
    }

    /** The player's third card, dealt when the first two score at most 5. */
    method DealPlayer(ghost s: seq<Card>, ghost start: nat, ghost dealt: seq<Card>, playerCards: seq<Card>)
      returns (playerHand: seq<Card>, ghost dealtNow: seq<Card>)
      requires Valid() && DealtFrom(s, start, dealt) && |dealt| <= 4
      requires |playerCards| == 2
      modifies this`cursor, shoe
      ensures Valid() && DealtFrom(s, start, dealtNow)
      ensures 2 <= |playerHand| <= 3 && playerHand[..2] == playerCards
      ensures |playerHand| == 3 <==> PlayerDraws(playerHand)
      ensures dealtNow == dealt + playerHand[2..]
    {
      playerHand, dealtNow := playerCards, dealt;
      var playerPoints := CalculateFirstTwoPoints(playerCards);
      if playerPoints <= 5 {
        var c := DealNext(s, start, dealt);
        playerHand := playerHand + [c];
        dealtNow := dealtNow + [c];
      }
      FirstTwoPointsKept(playerCards, playerHand[2..]);
      assert playerHand == playerCards + playerHand[2..];
    }

    /** The banker's third card, dealt when the banker's rule asks for it. */
    method DealBanker(ghost s: seq<Card>, ghost start: nat, ghost dealt: seq<Card>, playerCards: seq<Card>, bankerCards: seq<Card>)
      returns (bankerHand: seq<Card>, ghost dealtNow: seq<Card>)
      requires Valid() && DealtFrom(s, start, dealt) && |dealt| <= 5
      requires |bankerCards| == 2
      modifies this`cursor, shoe
      ensures Valid() && DealtFrom(s, start, dealtNow)
      ensures 2 <= |bankerHand| <= 3 && bankerHand[..2] == bankerCards
      ensures |bankerHand| == 3 <==> BankerDraws(FirstTwoPoints(bankerHand), playerCards)
      ensures dealtNow == dealt + bankerHand[2..]
    {
      bankerHand, dealtNow := bankerCards, dealt;
      var bankerPoints := CalculateFirstTwoPoints(bankerCards);
      if bankerPoints <= 2 {
        var c := DealNext(s, start, dealt);
        bankerHand, dealtNow := bankerHand + [c], dealtNow + [c];
      } else if bankerPoints == 3 {
        if |playerCards| == 3 && playerCards[2] != Eight {
          var c := DealNext(s, start, dealt);
          bankerHand, dealtNow := bankerHand + [c], dealtNow + [c];
        }
      } else if bankerPoints == 4 {
        if |playerCards| == 3 && CardValue(playerCards[2]) !in {0, 1, 8, 9} {
          var c := DealNext(s, start, dealt);
          bankerHand, dealtNow := bankerHand + [c], dealtNow + [c];
        }
      } else if bankerPoints == 5 {
        if |playerCards| == 3 && CardValue(playerCards[2]) !in {0, 1, 2, 3, 8, 9} {
          var c := DealNext(s, start, dealt);
          bankerHand, dealtNow := bankerHand + [c], dealtNow + [c];
        }
      } else if bankerPoints == 6 {
        if |playerCards| == 3 && CardValue(playerCards[2]) in {6, 7} {
          var c := DealNext(s, start, dealt);
          bankerHand, dealtNow := bankerHand + [c], dealtNow + [c];
        }
      }
      FirstTwoPointsKept(bankerCards, bankerHand[2..]);
      assert bankerHand == bankerCards + bankerHand[2..];
    }

    /** Scores the final hands and names the winner. */
    static method ScoreRound(playerCards: seq<Card>, bankerCards: seq<Card>) returns (r: Round)
      requires 2 <= |playerCards| <= 3 && 2 <= |bankerCards| <= 3
      requires |playerCards| == 3 <==> PlayerDraws(playerCards)
      requires |bankerCards| == 3 <==> BankerDraws(FirstTwoPoints(bankerCards), playerCards)
      ensures FollowsTableau(r)
      ensures r.player == playerCards && r.banker == bankerCards
    {
      var finalPlayerPoints := CalculatePoints(playerCards);
      var finalBankerPoints := CalculatePoints(bankerCards);
      var winner: Side;
      if finalPlayerPoints > finalBankerPoints {
        winner := Player;
      } else if finalBankerPoints > finalPlayerPoints {
        winner := Banker;
      } else {
        winner := Tie;
      }
      r := Round(playerCards, bankerCards, finalPlayerPoints, finalBankerPoints, winner);
    }

    /**
     * Plays one round: deals the hands by the rules, scores them and names the
     * winner. The hands, in deal order, are the next cards of the shoe, and
     * after a reshuffle inside the round the first cards of the new shoe.
     */
    method PlayRound() returns (r: Round)
      requires Valid()
      modifies this`cursor, shoe
      ensures Valid()
      ensures FollowsTableau(r)
      ensures DrawnFrom(old(shoe[..]), old(cursor), shoe[..], cursor, DealOrder(r))
    {
      ghost var s, start := shoe[..], cursor;
      var playerCards, bankerCards, dealt := DealOpening(s, start);
      playerCards, dealt := DealPlayer(s, start, dealt, playerCards);
      bankerCards, dealt := DealBanker(s, start, dealt, playerCards, bankerCards);
      r := ScoreRound(playerCards, bankerCards);
      assert dealt == DealOrder(r) && |dealt| <= 6;
    }
  }
}
