/**
 * MemoryAuthDatabase of api/database.js: users and sessions kept in maps,
 * the game history in an append-only sequence. Clock readings are the `now`
 * parameter (milliseconds); the random player and session ids are parameters.
 */
module Database {
  import opened Wrappers
  import opened Tableau

  type PlayerId = string
  type SessionId = string

  const InitialChips: int := 1000
  const MinPasswordLength: nat := 6
  /** Seven days, in milliseconds. */
  const SessionLifetime: int := 7 * 24 * 60 * 60 * 1000

  datatype User = User(
    playerId: PlayerId, username: string, password: string,
    chips: int, wins: nat, losses: nat, totalBet: int,
    createdAt: int, lastLogin: int)

  /** A user as handed out to callers: every field but the password. */
  datatype Profile = Profile(
    playerId: PlayerId, username: string,
    chips: int, wins: nat, losses: nat, totalBet: int,
    createdAt: int, lastLogin: int)

  /** A leaderboard line: a profile and its 1-based place. */
  datatype Ranked = Ranked(profile: Profile, rank: nat)

  datatype Session = Session(playerId: PlayerId, createdAt: int, expiresAt: int)

  datatype GameResult = Win | Lose

  /** What a settled bet records: who bet how much on what, what came back, and the round as dealt. */
  datatype GameRecord = GameRecord(
    playerId: PlayerId, gameType: string, betAmount: int, winAmount: int,
    result: GameResult, betOn: Side, round: Round)

  datatype HistoryEntry = HistoryEntry(id: nat, record: GameRecord, createdAt: int)

  datatype DbError =
    | UsernameTaken | PasswordTooShort | BadCredentials
    | InvalidSession | SessionExpired | UserMissing | PlayerMissing

  datatype SignedIn = SignedIn(sessionId: SessionId, user: Profile)

  function ProfileOf(u: User): Profile
  {
    Profile(u.playerId, u.username, u.chips, u.wins, u.losses, u.totalBet, u.createdAt, u.lastLogin)
  }

  function NewUser(playerId: PlayerId, username: string, password: string, now: int): User
  {
    User(playerId, username, password, InitialChips, 0, 0, 0, now, now)
  }

  function NewSession(playerId: PlayerId, now: int): Session
  {
    Session(playerId, now, now + SessionLifetime)
  }

  function Abs(x: int): nat
  {
    if x < 0 then -x else x
  }

  /** A user after a settled bet: chips moved by the change, one win or one loss counted, the stake counter moved by the change's size. */
  function Credited(u: User, chipChange: int, isWin: bool, now: int): User
  {
    u.(chips := u.chips + chipChange,
       wins := if isWin then u.wins + 1 else u.wins,
       losses := if !isWin && chipChange < 0 then u.losses + 1 else u.losses,
       totalBet := u.totalBet + Abs(chipChange),
       lastLogin := now)
  }

  predicate UsernameInUse(users: map<PlayerId, User>, username: string)
  {
    exists id :: id in users && users[id].username == username
  }

  predicate Matches(u: User, username: string, password: string)
  {
    u.username == username && u.password == password
  }

  /** The sessions still live at `now`: those whose expiry is not before it. */
  function Live(sessions: map<SessionId, Session>, now: int): map<SessionId, Session>
  {
    map id | id in sessions && sessions[id].expiresAt >= now :: sessions[id]
  }

  /** The entries of one player, oldest first. */
  function EntriesOf(history: seq<HistoryEntry>, playerId: PlayerId): (r: seq<HistoryEntry>)
    ensures |r| <= |history|
    ensures forall e :: e in r <==> e in history && e.record.playerId == playerId
  {
    if history == [] then []
    else
      var rest := EntriesOf(history[..|history| - 1], playerId);
      var last := history[|history| - 1];
      assert history == history[..|history| - 1] + [last];
      if last.record.playerId == playerId then rest + [last] else rest
  }

  predicate IncreasingIds(h: seq<HistoryEntry>)
  {
    forall i, j :: 0 <= i < j < |h| ==> h[i].id < h[j].id
  }

  /**
   * In a list with increasing ids, a prefix holds the oldest entries: each of
   * them is older than every entry left out.
   */
  lemma OldestFirst(entries: seq<HistoryEntry>, n: nat)
    requires IncreasingIds(entries) && n <= |entries|
    ensures forall e, f :: e in entries[..n] && f in entries && f !in entries[..n] ==> e.id < f.id
  {
    forall e, f | e in entries[..n] && f in entries && f !in entries[..n]
      ensures e.id < f.id
    {
      var i :| 0 <= i < n && entries[i] == e;
      var k :| 0 <= k < |entries| && entries[k] == f;
      assert forall j :: 0 <= j < n ==> entries[j] in entries[..n];
    }
  }

  /** Filtering keeps the order: the entries of one player come out in insertion order. */
  lemma {:induction false} EntriesOfInOrder(history: seq<HistoryEntry>, playerId: PlayerId)
    ensures IncreasingIds(history) ==> IncreasingIds(EntriesOf(history, playerId))
  {
    if history != [] && IncreasingIds(history) {
      var init, last := history[..|history| - 1], history[|history| - 1];
      assert IncreasingIds(init);
      EntriesOfInOrder(init, playerId);
      var rest := EntriesOf(init, playerId);
      forall e | e in rest
        ensures e.id < last.id
      {
        var k :| 0 <= k < |init| && init[k] == e;
        assert history[k] == e;
      }
    }
  }

  predicate SortedByChips(s: seq<Profile>)
  {
    forall i, j :: 0 <= i < j < |s| ==> s[i].chips >= s[j].chips
  }

  predicate DistinctIds(s: seq<Profile>)
  {
    forall i, j :: 0 <= i < j < |s| ==> s[i].playerId != s[j].playerId
  }

  /** Inserts a profile into a list sorted by non-increasing chips, after the profiles with at least as many chips. */
  function Insert(s: seq<Profile>, p: Profile): (r: seq<Profile>)
    ensures |r| == |s| + 1
    ensures forall q :: q in r <==> q in s || q == p
  {
    if s == [] || p.chips > s[0].chips then
      [p] + s
    else
      assert forall q :: q in s[1..] ==> q in s;
      [s[0]] + Insert(s[1..], p)
  }

  /** A profile put on a list sorted by chips at its first place leaves the list sorted. */
  lemma {:induction false} InsertSorted(s: seq<Profile>, p: Profile)
    requires SortedByChips(s)
    ensures SortedByChips(Insert(s, p))
  {
    var r := Insert(s, p);
    if s == [] || p.chips > s[0].chips {
      forall i, j | 0 <= i < j < |r| ensures r[i].chips >= r[j].chips {
        if i == 0 {
          assert r[j] == s[j - 1];
          if j > 1 {
            assert s[0].chips >= s[j - 1].chips;
          }
        } else {
          assert r[i] == s[i - 1] && r[j] == s[j - 1];
        }
      }
    } else {
      var rest := Insert(s[1..], p);
      assert SortedByChips(s[1..]);
      InsertSorted(s[1..], p);
      assert r == [s[0]] + rest;
      forall i, j | 0 <= i < j < |r| ensures r[i].chips >= r[j].chips {
        if i == 0 {
          assert r[j] == rest[j - 1];
          assert rest[j - 1] in rest;
          if rest[j - 1] != p {
            var k :| 0 <= k < |s[1..]| && s[1..][k] == rest[j - 1];
            assert s[k + 1] == rest[j - 1];
          }
        } else {
          assert r[i] == rest[i - 1] && r[j] == rest[j - 1];
        }
      }
    }
  }

  /** Inserting a profile whose id is not yet listed keeps the ids distinct. */
  lemma {:induction false} InsertDistinct(s: seq<Profile>, p: Profile)
    requires DistinctIds(s)
    requires forall q :: q in s ==> q.playerId != p.playerId
    ensures DistinctIds(Insert(s, p))
  {
    var r := Insert(s, p);
    if s == [] || p.chips > s[0].chips {
      forall i, j | 0 <= i < j < |r| ensures r[i].playerId != r[j].playerId {
        assert r[j] == s[j - 1];
        if i > 0 {
          assert r[i] == s[i - 1];
        } else {
          assert s[j - 1] in s;
        }
      }
    } else {
      var rest := Insert(s[1..], p);
      assert DistinctIds(s[1..]);
      assert forall q :: q in s[1..] ==> q in s;
      InsertDistinct(s[1..], p);
      assert r == [s[0]] + rest;
      forall i, j | 0 <= i < j < |r| ensures r[i].playerId != r[j].playerId {
        if i == 0 {
          assert r[j] == rest[j - 1];
          assert rest[j - 1] in rest;
          if rest[j - 1] != p {
            var k :| 0 <= k < |s[1..]| && s[1..][k] == rest[j - 1];
            assert s[k + 1] == rest[j - 1];
          } else {
            assert s[0] in s;
          }
        } else {
          assert r[i] == rest[i - 1] && r[j] == rest[j - 1];
        }
      }
    }
  }

  class MemoryAuthDatabase {
    var users: map<PlayerId, User>
    var sessions: map<SessionId, Session>
    var gameHistory: seq<HistoryEntry>

    /** Users are filed under their own id, usernames are unique, and history ids run 1, 2, 3, ... */
    ghost predicate Valid()
      reads this
    {
      && (forall id :: id in users ==> users[id].playerId == id)
      && (forall a, b :: a in users && b in users && a != b ==> users[a].username != users[b].username)
      && (forall i :: 0 <= i < |gameHistory| ==> gameHistory[i].id == i + 1)
    }

    /** No user holds a negative chip count. */
    ghost predicate Solvent()
      reads this
    {
      forall id :: id in users ==> users[id].chips >= 0
    }

    /** Starts with the three test accounts and no sessions or history. */
    constructor (testIds: seq<PlayerId>, now: int)
      requires |testIds| == 3
      ensures Valid() && Solvent()
      ensures users == TestAccounts(testIds, now)
      ensures sessions == map[] && gameHistory == []
    {
      users := map[];
      sessions := map[];
      gameHistory := [];
      new;
      CreateTestAccounts(testIds, now);
    }

    /** The three built-in accounts, filed one after the other under the given ids. */
    static function TestAccounts(testIds: seq<PlayerId>, now: int): map<PlayerId, User>
      requires |testIds| == 3
    {
      map[]
        [testIds[0] := User(testIds[0], "玩家一", "123456", 5000, 0, 0, 0, now, now)]
        [testIds[1] := User(testIds[1], "玩家二", "654321", 3000, 0, 0, 0, now, now)]
        [testIds[2] := User(testIds[2], "測試員", "test123", 10000, 0, 0, 0, now, now)]
    }

    /** Files the three test accounts; a later account replaces an earlier one under the same id. */
    method CreateTestAccounts(testIds: seq<PlayerId>, now: int)
      requires |testIds| == 3 && users == map[]
      modifies this`users
      ensures users == TestAccounts(testIds, now)
    {
      users := users[testIds[0] := User(testIds[0], "玩家一", "123456", 5000, 0, 0, 0, now, now)];
      users := users[testIds[1] := User(testIds[1], "玩家二", "654321", 3000, 0, 0, 0, now, now)];
      users := users[testIds[2] := User(testIds[2], "測試員", "test123", 10000, 0, 0, 0, now, now)];
    }

    /** Drops every session whose expiry lies before `now`. */
    method CleanExpiredSessions(now: int)
      modifies this`sessions
      ensures sessions == Live(old(sessions), now)
    {
      ghost var before := sessions;
      var pending := sessions.Keys;
      while pending != {}
        invariant pending <= before.Keys
        invariant sessions == map id | id in before && (id in pending || before[id].expiresAt >= now) :: before[id]
        decreases pending
      {
        var id :| id in pending;
        if sessions[id].expiresAt < now {
          sessions := sessions - {id};
        }
        pending := pending - {id};
      }
    }

    /** Opens a seven-day session for the player, then drops the expired ones. */
    method CreateSession(playerId: PlayerId, sessionId: SessionId, now: int) returns (sid: SessionId)
      modifies this`sessions
      ensures sid == sessionId
      ensures sessions == Live(old(sessions)[sessionId := NewSession(playerId, now)], now)
      ensures sessionId in sessions && sessions[sessionId] == NewSession(playerId, now)
    {
      sessions := sessions[sessionId := NewSession(playerId, now)];
      CleanExpiredSessions(now);
      sid := sessionId;
    }

    /**
     * Signs a new user up with 1000 chips and opens a session. A username
     * already in use is refused before the password length is looked at.
     */
    method Register(username: string, password: string, playerId: PlayerId, sessionId: SessionId, now: int)
      returns (res: Result<SignedIn, DbError>)
      requires Valid()
      modifies this`users, this`sessions
      ensures Valid()
      ensures UsernameInUse(old(users), username) ==>
        res == Err(UsernameTaken) && users == old(users) && sessions == old(sessions)
      ensures !UsernameInUse(old(users), username) && |password| < MinPasswordLength ==>
        res == Err(PasswordTooShort) && users == old(users) && sessions == old(sessions)
      ensures res.Ok? <==> !UsernameInUse(old(users), username) && |password| >= MinPasswordLength
      ensures res.Ok? ==>
        && users == old(users)[playerId := NewUser(playerId, username, password, now)]
        && sessions == Live(old(sessions)[sessionId := NewSession(playerId, now)], now)
        && res.value == SignedIn(sessionId, ProfileOf(NewUser(playerId, username, password, now)))
      ensures res.Ok? && playerId !in old(users) ==> |users| == |old(users)| + 1
    {
      if UsernameInUse(users, username) {
        return Err(UsernameTaken);
      }
      if |password| < MinPasswordLength {
        return Err(PasswordTooShort);
      }
      var newUser := NewUser(playerId, username, password, now);
      users := users[playerId := newUser];
      var sid := CreateSession(playerId, sessionId, now);
      res := Ok(SignedIn(sid, ProfileOf(newUser)));
    }

    /** Signs in the user whose username and password both match, stamping the login time and opening a session. */
    method Login(username: string, password: string, sessionId: SessionId, now: int)
      returns (res: Result<SignedIn, DbError>)
      requires Valid()
      modifies this`users, this`sessions
      ensures Valid()
      ensures res.Ok? <==> exists id :: id in old(users) && Matches(old(users)[id], username, password)
      ensures res.Err? ==> res.error == BadCredentials && users == old(users) && sessions == old(sessions)
      ensures res.Ok? ==>
        var id := res.value.user.playerId;
        && id in old(users) && Matches(old(users)[id], username, password)
        && users == old(users)[id := old(users)[id].(lastLogin := now)]
        && res.value == SignedIn(sessionId, ProfileOf(users[id]))
        && sessions == Live(old(sessions)[sessionId := NewSession(id, now)], now)
    {
      if id :| id in users && Matches(users[id], username, password) {
        var user := users[id].(lastLogin := now);
        users := users[user.playerId := user];
        var sid := CreateSession(user.playerId, sessionId, now);
        res := Ok(SignedIn(sid, ProfileOf(user)));
      } else {
        res := Err(BadCredentials);
      }
    }

    /**
     * Looks a session up. An unknown id fails; an expired session is dropped
     * and fails; a live one is extended to seven days from `now` and yields
     * its user.
     */
    method ValidateSession(sessionId: SessionId, now: int) returns (res: Result<Profile, DbError>)
      modifies this`sessions
      ensures sessionId !in old(sessions) ==> res == Err(InvalidSession) && sessions == old(sessions)
      ensures sessionId in old(sessions) && old(sessions)[sessionId].expiresAt < now ==>
        res == Err(SessionExpired) && sessions == old(sessions) - {sessionId}
      ensures sessionId in old(sessions) && old(sessions)[sessionId].expiresAt >= now ==>
        var s := old(sessions)[sessionId];
        if s.playerId in users then
          res == Ok(ProfileOf(users[s.playerId]))
          && sessions == old(sessions)[sessionId := s.(expiresAt := now + SessionLifetime)]
        else
          res == Err(UserMissing) && sessions == old(sessions)
    {
      if sessionId !in sessions {
        return Err(InvalidSession);
      }
      var session := sessions[sessionId];
      if session.expiresAt < now {
        sessions := sessions - {sessionId};
        return Err(SessionExpired);
      }
      if session.playerId !in users {
        return Err(UserMissing);
      }
      var user := users[session.playerId];
      sessions := sessions[sessionId := session.(expiresAt := now + SessionLifetime)];
      res := Ok(ProfileOf(user));
    }

    /** Ends a session; succeeds whether or not it existed. */
    method Logout(sessionId: SessionId) returns (ok: bool)
      modifies this`sessions
      ensures ok
      ensures sessions == old(sessions) - {sessionId}
    {
      sessions := sessions - {sessionId};
      ok := true;
    }

    /**
     * Moves a player's chips by `chipChange` and counts the bet: a win if
     * `isWin`, otherwise a loss when chips went down; the stake counter grows
     * by the size of the change. No other user changes.
     */
    method UpdatePlayerChips(playerId: PlayerId, chipChange: int, isWin: bool, now: int)
      returns (res: Result<User, DbError>)
      requires Valid()
      modifies this`users
      ensures Valid()
      ensures playerId !in old(users) ==> res == Err(PlayerMissing) && users == old(users)
      ensures playerId in old(users) ==>
        && users == old(users)[playerId := Credited(old(users)[playerId], chipChange, isWin, now)]
        && res == Ok(users[playerId])
      ensures playerId in old(users) ==>
        var (u, v) := (old(users)[playerId], users[playerId]);
        && v.chips == u.chips + chipChange
        && v.wins == (if isWin then u.wins + 1 else u.wins)
        && v.losses == (if !isWin && chipChange < 0 then u.losses + 1 else u.losses)
        && v.totalBet == u.totalBet + Abs(chipChange)
    {
      if playerId !in users {
        return Err(PlayerMissing);
      }
      var player := Credited(users[playerId], chipChange, isWin, now);
      users := users[playerId := player];
      res := Ok(player);
    }

    /** Appends one entry, numbered one past the current length, and returns its id. */
    method SaveGameHistory(record: GameRecord, now: int) returns (id: nat)
      requires Valid()
      modifies this`gameHistory
      ensures Valid()
      ensures id == |old(gameHistory)| + 1
      ensures gameHistory == old(gameHistory) + [HistoryEntry(id, record, now)]
    {
      var entry := HistoryEntry(|gameHistory| + 1, record, now);
      gameHistory := gameHistory + [entry];
      id := entry.id;
    }

    /**
     * The first `limit` entries of a player, oldest first: at most `limit`
     * entries, all the player's, in insertion order, all of them when the
     * player has fewer than `limit`, and each older than every one left out.
     */
    function GetPlayerHistory(playerId: PlayerId, limit: nat): (r: seq<HistoryEntry>)
      reads this
      ensures |r| <= limit
      ensures forall e :: e in r ==> e in gameHistory && e.record.playerId == playerId
      ensures |r| < limit ==> forall e :: e in gameHistory && e.record.playerId == playerId ==> e in r
      ensures Valid() ==> IncreasingIds(r)
      ensures Valid() ==> forall e, f ::
        e in r && f in gameHistory && f.record.playerId == playerId && f !in r ==> e.id < f.id
    {
      var all := EntriesOf(gameHistory, playerId);
      var n := if |all| <= limit then |all| else limit;
      var r := all[..n];
      assert forall e :: e in r ==> e in all;
      EntriesOfInOrder(gameHistory, playerId);
      assert IncreasingIds(all) ==> IncreasingIds(r);
      if IncreasingIds(all) then OldestFirst(all, n); r else r
    }

    /** The profiles of the users with a positive chip count, richest first, each once. */
    method PositiveByChips() returns (ranked: seq<Profile>)
      requires Valid()
      ensures SortedByChips(ranked) && DistinctIds(ranked)
      ensures forall p :: p in ranked ==> p.playerId in users && p == ProfileOf(users[p.playerId]) && p.chips > 0
      ensures forall id :: id in users && users[id].chips > 0 ==> ProfileOf(users[id]) in ranked
    {
      var pending := users.Keys;
      ranked := [];
      while pending != {}
        invariant pending <= users.Keys
        invariant SortedByChips(ranked) && DistinctIds(ranked)
        invariant forall p :: p in ranked ==>
          p.playerId in users && p.playerId !in pending && p == ProfileOf(users[p.playerId]) && p.chips > 0
        invariant forall id :: id in users && id !in pending && users[id].chips > 0 ==> ProfileOf(users[id]) in ranked
        decreases pending
      {
        var id :| id in pending;
        if users[id].chips > 0 {
          InsertSorted(ranked, ProfileOf(users[id]));
          InsertDistinct(ranked, ProfileOf(users[id]));
          ranked := Insert(ranked, ProfileOf(users[id]));
        }
        pending := pending - {id};
      }
    }

    /**
     * The players with a positive chip count, richest first, at most `limit`
     * of them, each with its 1-based rank. A player with chips who is left
     * out has no more chips than anyone listed, and is left out only when the
     * board is full.
     */
    method GetLeaderboard(limit: nat) returns (board: seq<Ranked>)
      requires Valid()
      ensures |board| <= limit
      ensures forall i :: 0 <= i < |board| ==> board[i].rank == i + 1
      ensures forall i :: 0 <= i < |board| ==>
        var id := board[i].profile.playerId;
        id in users && board[i].profile == ProfileOf(users[id]) && users[id].chips > 0
      ensures forall i, j :: 0 <= i < j < |board| ==> board[i].profile.chips >= board[j].profile.chips
      ensures forall i, j :: 0 <= i < j < |board| ==> board[i].profile.playerId != board[j].profile.playerId
      ensures forall id :: id in users && users[id].chips > 0 ==>
        (exists i :: 0 <= i < |board| && board[i].profile.playerId == id) ||
        (|board| == limit && forall i :: 0 <= i < |board| ==> board[i].profile.chips >= users[id].chips)
    {
      var ranked := PositiveByChips();
      var n := if limit < |ranked| then limit else |ranked|;
      board := seq(n, i requires 0 <= i < n => Ranked(ranked[i], i + 1));
      forall id | id in users && users[id].chips > 0
        ensures (exists i :: 0 <= i < |board| && board[i].profile.playerId == id) ||
          (|board| == limit && forall i :: 0 <= i < |board| ==> board[i].profile.chips >= users[id].chips)
      {
        var k :| 0 <= k < |ranked| && ranked[k] == ProfileOf(users[id]);
        if k < n {
          assert board[k].profile.playerId == id;
        }
      }
    }
  }
}
