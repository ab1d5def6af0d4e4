# Baccarat settlement engine and in-memory store, modelled in Dafny

This project models the game path of a casino-style wagering server.

- **The baccarat engine** (`api/games/baccarat.js`). `BaccaratGame` keeps a 208-slot shoe: four suitless decks of 13 rank labels, four copies of each rank per deck. It also keeps a cursor to the next card. The shoe is shuffled in place by Fisher–Yates. A draw reshuffles first when 10 or fewer cards remain past the cursor, that is, when the cursor has reached slot 198. `playRound` deals player, player, banker, banker, applies the third-card rules, scores both hands modulo 10 and names the winner. `BaccaratAPI.placeBet` checks the player's chips, plays a round, works out the payout and calls the store.
- **The in-memory store** (`api/database.js`). `MemoryAuthDatabase` keeps users and sessions in maps and game history in an append-only list. It handles sign-up, login, seven-day sessions, chip updates with win/loss/stake counters, per-player history and the leaderboard.

Files:

| file | module | contents |
|---|---|---|
| wrappers.dfy | `Wrappers` | `Result` |
| cards.dfy | `Cards` | `Card`, `CardValue`, `Points`, `FirstTwoPoints`, and the scoring loop `CalculatePoints` |
| decks.dfy | `Decks` | the layout of a fresh shoe and the count of each rank in it |
| tableau.dfy | `Tableau` | `Side`, `Round`, the player and banker drawing rules, `WinnerOf`, `FollowsTableau`, `DealOrder` |
| game.dfy | `Game` | `class BaccaratGame` over `array<Card>` with its cursor, and the round dealer |
| store.dfy | `Database` | `class MemoryAuthDatabase` with its maps and history, and the leaderboard sort |
| settlement.dfy | `Settlement` | the payout function `Settle` and `class BaccaratApi.PlaceBet` |

The code departs from the standard Punto Banco rules in four places. The model follows the code:

- **No stop on a natural.** Standard rules end the round when either hand's first two cards score 8 or 9. Here, a player on 8 or 9 still faces a banker draw on 0–2, and a player on 5 or less draws even against a banker on 8 or 9 (api/games/baccarat.js:81-118).
- **Banker on 3–5.** Standard rules have the banker draw on 0–5 when the player stood on two cards. Here, the banker then stands on 3, 4 or 5 and draws only on 0–2 (api/games/baccarat.js:90-114). `Tableau.BankerDrawsTable` states this case.
- **Winning tie bet.** Standard rules pay a tie bet 8 to 1. Here, a winning tie bet takes the first branch of the payout (`winner === betOn`, api/games/baccarat.js:193-199). That branch pays 0 for a tie bet and records a win, so the eightfold payout written after it (lines 200-202) is never reached. A winning tie bet therefore loses the stake and counts as a win.
- **Player and banker payouts.** Standard rules pay a player bet 1 to 1, a net gain of the stake, and a banker bet 0.95 to 1, a net gain of 95% of the stake. Here, `winAmount` is the amount returned and the stake was not set aside beforehand. A won player bet returns exactly the stake, so the chips do not move. A won banker bet returns 95% of it, so the chips go down by the 5% commission rounded up (api/games/baccarat.js:193-206). `Settlement.ChipChange` states both.

The store has no `getOrCreatePlayer`, although `placeBet` calls it. The model reads the player from the store's `users` map and refuses an unknown player with `PlayerNotFound` before any card is drawn. The route's stake checks (a bet on player, banker or tie; 50 ≤ stake ≤ 5000, api/index.js:66-77) are preconditions of `PlaceBet`; the side is a datatype.

## Model

| member | source | states |
|---|---|---|
| Cards.CardValue | api/games/baccarat.js:156-170 | A card's value is at most 9. It is 0 exactly for 10, J, Q and K, and 1 exactly for an ace. |
| Cards.CalculatePoints | api/games/baccarat.js:42-61 | The loop's result equals the sum of the card values modulo 10 (`Points`), and lies in [0, 9]. |
| Cards.PointsAddCard | api/games/baccarat.js:42-61 | Adding a card to a hand adds its value to the points, modulo 10. |
| Cards.CalculateFirstTwoPoints | api/games/baccarat.js:64-67 | The result is 0 for a hand of fewer than two cards. Otherwise it is the points of the first two cards. |
| Cards.FirstTwoPointsKept | api/games/baccarat.js:81-87 | A third card leaves the first-two points unchanged, so both drawing decisions use the two-card totals. |
| Decks.FourDecksComposition | api/games/baccarat.js:5-21 | The laid-out shoe fills all 208 slots, and every one of the 13 ranks occurs exactly 16 times. |
| Game.ShoeComposition | api/games/baccarat.js:4-39 | In every valid game state, after any number of shuffles and draws, the shoe holds 208 cards with 16 of each rank. |
| Game.BaccaratGame.constructor | api/games/baccarat.js:4-10 | A new game has a fresh 208-slot shoe holding four shuffled decks, with the cursor at 0. |
| Game.BaccaratGame.InitDecks | api/games/baccarat.js:13-22 | The nested loops leave the array equal to four decks, each laid out rank by rank in the listed order with four copies per rank. |
| Game.BaccaratGame.ShuffleCards | api/games/baccarat.js:25-31 | The swap loop permutes the shoe: its multiset of cards is unchanged. The cursor is reset to 0. |
| Game.BaccaratGame.DrawCard | api/games/baccarat.js:34-39 | The read is in bounds, and the cursor stays at or below 198. With the cursor below 198, the result is the card under the cursor, the cursor advances by one and the shoe is unchanged. Otherwise the shoe is reshuffled first and the result is its first card. |
| Game.BaccaratGame.DealOpening | api/games/baccarat.js:74-78 | Each hand gets two cards, dealt in the order player, player, banker, banker. The four cards are the next cards of the shoe. If the cursor reaches slot 198 along the way, they are the cards up to slot 198 followed by the first cards of the reshuffled shoe (`DrawnFrom`). |
| Game.BaccaratGame.DealPlayer | api/games/baccarat.js:80-84 | The player ends with 2 or 3 cards, and takes a third card exactly when the first two score at most 5. |
| Game.BaccaratGame.DealBanker | api/games/baccarat.js:86-119 | The banker ends with 2 or 3 cards, and takes a third card exactly when the coded banker rule (`BankerDraws`) holds. |
| Game.BaccaratGame.ScoreRound | api/games/baccarat.js:121-153 | The round's points are those of the final hands, and its winner is `WinnerOf` those points. |
| Game.BaccaratGame.PlayRound | api/games/baccarat.js:70-154 | The round follows the drawing rules, and the shoe invariant is kept. The cards in deal order relate to the shoe in one of two ways. If they fit before slot 198, they are the next cards of the unchanged shoe, and the cursor advances by their number. Otherwise they are the old shoe's cards up to slot 198 followed by the first cards of the reshuffled shoe, and the cursor stands just past those. |
| Tableau.BankerDrawsTable | api/games/baccarat.js:86-119 | The coded banker decision is equivalent to a value table: draw on 0–2; on 3 to 6, draw only when the player drew a third card whose value is listed (3: not 8; 4: 2–7; 5: 4–7; 6: 6–7). The banker never draws on 7 or more. Without a player third card, the banker draws exactly on 0–2. |
| Tableau.WinnerOf | api/games/baccarat.js:122-138 | The winner is player exactly when player points are higher, banker exactly when banker points are higher, and tie exactly when they are equal. |
| Tableau.DealOrderLength | api/games/baccarat.js:74-118 | A round dealt by the rules uses 4 to 6 cards, one per card in the two hands. |
| Tableau.DealOrderDeterminesRound | api/games/baccarat.js:70-154 | Two rounds dealt by the rules from the same cards in the same order are identical: the rules leave the dealer no choice. |
| Settlement.Settle | api/games/baccarat.js:189-203 | A bet counts as won exactly when the winner is the side bet on. A lost bet pays 0, and a tie bet pays 0 whatever the outcome. The payout never exceeds the stake. |
| Settlement.ChipChange | api/games/baccarat.js:189-206 | The chip change `winAmount - bet` lies in [-bet, 0]. It is 0 for a won player bet and minus 5% of the stake, rounded up, for a won banker bet. It is -bet for a won tie bet or a lost bet. |
| Settlement.BaccaratApi.constructor | api/games/baccarat.js:175-177 | The API owns a fresh, valid game. |
| Settlement.BaccaratApi.SettleRound | api/games/baccarat.js:189-238 | Chips move by `winAmount - bet` through the store's update, with a win or a loss counted. Exactly one history entry with the next id is appended. A player who could afford the stake keeps a non-negative balance. |
| Settlement.BaccaratApi.PlaceBet | api/games/baccarat.js:179-239 | An unknown player, or one with fewer chips than the stake, is refused before any card is drawn, and nothing changes. Otherwise the round follows the rules and is dealt from the game's shoe as `PlayRound` states, and the chip change is in [-bet, 0]. The user map changes only at the player, by `Credited`, and one history entry is appended. A store with no negative balance keeps none. |
| Database.MemoryAuthDatabase.constructor | api/database.js:3-13 | The store starts with the three test accounts, no sessions and no history. Ids are unique per user, usernames are unique, and no balance is negative. |
| Database.MemoryAuthDatabase.CreateTestAccounts | api/database.js:15-37 | The three accounts are filed under their ids with 5000, 3000 and 10000 chips. |
| Database.MemoryAuthDatabase.Register | api/database.js:40-76 | A username already in use fails, and that check comes before the password check. A password of fewer than 6 characters fails. Neither failure changes anything. Success exactly when neither holds. On success the new user is filed under its id with 1000 chips and zero counters (one more user when the id is new), and a session is opened. |
| Database.MemoryAuthDatabase.Login | api/database.js:79-98 | Login succeeds exactly when some user matches both username and password. Only that user's last-login time changes, and a session is opened. A failed login changes nothing. |
| Database.MemoryAuthDatabase.CreateSession | api/database.js:102-114 | The new session expires seven days after `now`. It survives the clean-up that follows, which removes exactly the expired sessions. |
| Database.MemoryAuthDatabase.CleanExpiredSessions | api/database.js:117-124 | The loop leaves exactly the sessions whose expiry is not before `now`, unchanged. |
| Database.MemoryAuthDatabase.ValidateSession | api/database.js:127-153 | An unknown id fails and changes nothing. An expired session is removed, and the call fails. A live session whose user exists is extended to `now` + 7 days and yields that user without the password. Otherwise the call fails and nothing changes. |
| Database.MemoryAuthDatabase.Logout | api/database.js:156-159 | The session is removed whether or not it existed, and the call reports true. |
| Database.MemoryAuthDatabase.UpdatePlayerChips | api/database.js:162-180 | An absent player fails and nothing changes. Otherwise chips' = chips + change. Wins go up by one on a win; losses go up by one on a non-win with a negative change; otherwise neither moves. total_bet grows by the change's absolute value. No other user changes. |
| Database.MemoryAuthDatabase.SaveGameHistory | api/database.js:183-191 | Exactly one entry is appended, with id = old length + 1; earlier entries are untouched, so ids stay 1..n in order. |
| Database.EntriesOf | api/database.js:193-196 | The filter keeps exactly the entries of the given player. |
| Database.EntriesOfInOrder | api/database.js:193-196 | Filtering keeps insertion order: increasing ids stay increasing. |
| Database.MemoryAuthDatabase.GetPlayerHistory | api/database.js:193-201 | The result has at most `limit` entries, all from the history and all the player's, oldest first. When there are fewer than `limit` of them, all the player's entries are included. Every entry returned is older than every entry of the player left out, so the result is the player's oldest `limit` entries. |
| Database.OldestFirst | api/database.js:194-196 | In a list with increasing ids, each entry of a prefix is older than every entry outside it. This is why taking the first `limit` of the filtered history gives the oldest entries. |
| Database.Insert | api/database.js:204-208 | Insertion adds exactly the one profile to the list. |
| Database.InsertSorted | api/database.js:204-208 | Insertion keeps a list sorted by non-increasing chips. |
| Database.InsertDistinct | api/database.js:204-208 | Insertion of a profile with a new id keeps the ids distinct. |
| Database.MemoryAuthDatabase.PositiveByChips | api/database.js:204-208 | The filter and sort give exactly the users with positive chips, each once, sorted by non-increasing chips. |
| Database.MemoryAuthDatabase.GetLeaderboard | api/database.js:204-214 | At most `limit` users are listed, all with positive chips, each once, sorted by non-increasing chips, with rank = index + 1. A positive-chip user who is left out has no more chips than anyone listed, and is left out only when the board is full. |

## Left out

- Randomness: `Math.random` in the shuffle becomes a nondeterministic choice of the swap index. The random player and session ids become parameters. No uniformity claim is made.
- Clocks: `Date.now()` and the ISO timestamps become one integer `now` (milliseconds) per operation. `console.log` output and the message strings are not modelled.
- Concurrency: `async`/`await`, the singleton game shared by all requests, and the singleton store. Every operation is sequential.
- `db.getOrCreatePlayer` is not part of this model: api/database.js does not define it. The lookup reads `users` and fails when the player is absent. Its create branch is not modelled.
- PlaceBet: the banker commission is the integer `bet * 95 / 100` rather than `Math.floor(betAmount * 0.95)` in floating point, which this model does not formalise. For integer stakes the two agree. The double nearest 0.95 is below it by less than 5e-17, so for stakes up to 5000 the error of the product is under 3e-13. When 95·bet/100 is an integer, that error is under half a unit in the last place there, so the product rounds back to that integer. Otherwise the product is at least 0.05 from the next integer, so its floor does not change.
- PlaceBet: the display fields of the result (`result` text, `roundDetails`, message) are left out. The round's hands, points and winner are kept.
- PlayRound: the unused `betOn` parameter of `playRound` is dropped.
- Game.BaccaratGame.InitDecks: it takes no deck-count parameter. The only call passes 4, which matches the 208-slot array.
- CalculatePoints: the `!card` skip and the `default: return 0` of `getCardValue` cannot arise, because a `Card` is always one of the 13 ranks.
- GetPlayerHistory: the `JSON.parse` of string-valued details is left out, since details are stored as values. `limit` is a `nat`; negative limits are not modelled.
- GetLeaderboard: among users with equal chips the order is unspecified. The stable sort over the `Map`'s insertion order is not modelled, because Dafny maps have no order.
- Login: when several users could match, the source picks the first in insertion order. The model picks any one. Usernames are unique in every valid store, so at most one user matches.
- Register: the password length is counted in characters, not UTF-16 code units.
- The slot machine (`api/games/slots.js`) is not part of this model. `api/admin.js` and the HTTP routing, cookies and CORS of `api/index.js` are not modelled either.
- `getStatistics` and `getAllUsers` are thin wrappers over the leaderboard and the user map, and are not modelled.
