/** The realtime-database repository: game requests filed under both participants, and sumo game documents.
    The store is two maps standing for the `gameRequests/{user}/{requestId}` and `games/{gameId}` trees. */
module GameRepository {
  import opened Wrappers
  import opened GameRequests
  import opened SumoDocument

  /** Where a request lives: the user whose list holds it, and its id. */
  type RequestKey = (string, string)

  /** The record a send writes: pending, from `fromUserId` to `toUserId`, for the default game type. */
  function NewRequest(requestId: string, fromUserId: string, toUserId: string, now: int): (r: GameRequest)
    ensures r.requestId == requestId && r.fromUserId == fromUserId && r.toUserId == toUserId
    ensures r.status == PENDING && r.timestamp == now && r.gameId.None? && r.gameType == SUMO
  {
    DefaultGameRequest.(requestId := requestId, fromUserId := fromUserId, toUserId := toUserId,
                        status := PENDING, timestamp := now)
  }

  /** The store after a send: the same record under the addressee, then under the sender. */
  function SentRequests(m: map<RequestKey, GameRequest>, fromUserId: string, toUserId: string, requestId: string,
                        now: int): map<RequestKey, GameRequest>
  {
    var request := NewRequest(requestId, fromUserId, toUserId, now);
    m[(toUserId, requestId) := request][(fromUserId, requestId) := request]
  }

  /** A partial update of `status` and `gameId`; a path holding nothing reads back as a default record carrying
      just those two fields. */
  function AcceptedCopy(existing: Option<GameRequest>, gameId: string): GameRequest
  {
    var base := if existing.Some? then existing.value else DefaultGameRequest;
    base.(status := ACCEPTED, gameId := Some(gameId))
  }

  function Lookup(m: map<RequestKey, GameRequest>, k: RequestKey): Option<GameRequest>
  {
    if k in m then Some(m[k]) else None
  }

  /** The store after an accept: the acting user's copy is updated, then the sender's copy. */
  function AcceptedRequests(m: map<RequestKey, GameRequest>, userId: string, requestId: string, gameId: string)
    : map<RequestKey, GameRequest>
    requires (userId, requestId) in m
  {
    var request := m[(userId, requestId)];
    var m1 := m[(userId, requestId) := AcceptedCopy(Some(request), gameId)];
    var fromKey := (request.fromUserId, requestId);
    m1[fromKey := AcceptedCopy(Lookup(m1, fromKey), gameId)]
  }

  /** The store after a reject or cancel: the request is removed under the acting user, its sender and its
      addressee. */
  function RemovedRequests(m: map<RequestKey, GameRequest>, userId: string, requestId: string)
    : map<RequestKey, GameRequest>
    requires (userId, requestId) in m
  {
    var request := m[(userId, requestId)];
    m - {(userId, requestId), (request.fromUserId, requestId), (request.toUserId, requestId)}
  }

  /** The document `createGame` writes: a default sumo game between the two players. */
  function NewGame(gameId: string, player1Id: string, player2Id: string): (d: MultiplayerGameData)
    ensures d.gameId == gameId && d.player1Id == player1Id && d.player2Id == player2Id
    ensures d.player1Position == -5.0 && d.player2Position == 5.0 && d.gameStatus == "PLAYING"
    ensures d.player1Score == 0 && d.player2Score == 0 && d.collisionPosition.None?
  {
    DefaultGameData.(gameId := gameId, player1Id := player1Id, player2Id := player2Id)
  }

  /** The request at path `k` is filed under its own id, under one of its two participants, and the identical
      record is filed under both of them. */
  predicate Filed(m: map<RequestKey, GameRequest>, k: RequestKey)
    requires k in m
  {
    var q := m[k];
    && q.requestId == k.1
    && (k.0 == q.fromUserId || k.0 == q.toUserId)
    && (q.fromUserId, k.1) in m && m[(q.fromUserId, k.1)] == q
    && (q.toUserId, k.1) in m && m[(q.toUserId, k.1)] == q
  }

  /** Every filed request is mirrored under both participants. */
  predicate MirrorConsistent(m: map<RequestKey, GameRequest>)
  {
    forall k {:trigger Filed(m, k)} | k in m :: Filed(m, k)
  }

  /** The incoming-request listing: of the records under a user's path, the pending ones addressed to that user,
      in snapshot order. */
  function ObserveGameRequests(children: seq<GameRequest>, userId: string): (r: seq<GameRequest>)
    ensures forall x :: x in r <==> x in children && x.status == PENDING && x.toUserId == userId
    ensures |r| <= |children|
  {
    if children == [] then []
    else
      var rest := ObserveGameRequests(children[1..], userId);
      if children[0].status == PENDING && children[0].toUserId == userId then [children[0]] + rest else rest
  }

  /** A request is listed for its addressee while pending and never for anyone else, so the sender never sees
      their own mirror copy; once accepted it is listed for nobody. */
  lemma OnlyAddresseeListsRequest(children: seq<GameRequest>, request: GameRequest, userId: string, gameId: string)
    requires request in children && request.status == PENDING
    ensures request in ObserveGameRequests(children, userId) <==> userId == request.toUserId
    ensures AcceptedCopy(Some(request), gameId) !in ObserveGameRequests(children, userId)
  {
  }

  /** Writing one record under both of its participants' paths keeps the store mirror-consistent, provided each
      path is free or already holds a request between the same two users. */
  lemma PairWriteKeepsMirror(m: map<RequestKey, GameRequest>, r: GameRequest)
    requires MirrorConsistent(m)
    requires (r.fromUserId, r.requestId) in m ==>
      m[(r.fromUserId, r.requestId)].fromUserId == r.fromUserId && m[(r.fromUserId, r.requestId)].toUserId == r.toUserId
    requires (r.toUserId, r.requestId) in m ==>
      m[(r.toUserId, r.requestId)].fromUserId == r.fromUserId && m[(r.toUserId, r.requestId)].toUserId == r.toUserId
    ensures MirrorConsistent(m[(r.toUserId, r.requestId) := r][(r.fromUserId, r.requestId) := r])
  {
    var a, b := (r.fromUserId, r.requestId), (r.toUserId, r.requestId);
    var m' := m[b := r][a := r];
    forall k | k in m' ensures Filed(m', k) {
      if k != a && k != b {
        var q := m[k];
        assert Filed(m, k);
        // Had q a path in common with r, q would be a request between r's users with r's id, filed at a or b.
        assert (q.fromUserId, k.1) != a && (q.fromUserId, k.1) != b;
        assert (q.toUserId, k.1) != a && (q.toUserId, k.1) != b;
      }
    }
  }

  /** A send with a fresh id keeps the store mirror-consistent, files the identical pending record under both
      participants and touches no other path. */
  lemma SendKeepsMirror(m: map<RequestKey, GameRequest>, fromUserId: string, toUserId: string, requestId: string,
                        now: int)
    requires MirrorConsistent(m)
    requires (fromUserId, requestId) !in m && (toUserId, requestId) !in m
    ensures var m' := SentRequests(m, fromUserId, toUserId, requestId, now);
      && MirrorConsistent(m')
      && m'.Keys == m.Keys + {(fromUserId, requestId), (toUserId, requestId)}
      && m'[(fromUserId, requestId)] == m'[(toUserId, requestId)] == NewRequest(requestId, fromUserId, toUserId, now)
      && (forall k | k in m :: m'[k] == m[k])
  {
    PairWriteKeepsMirror(m, NewRequest(requestId, fromUserId, toUserId, now));
  }

  /** An accept by the addressee of a filed request keeps the store mirror-consistent: both copies become the same
      accepted record with the new game id, every other field as it was, and no other path changes. */
  lemma AcceptKeepsMirror(m: map<RequestKey, GameRequest>, userId: string, requestId: string, gameId: string)
    requires MirrorConsistent(m)
    requires (userId, requestId) in m && m[(userId, requestId)].toUserId == userId
    ensures var request := m[(userId, requestId)];
      var m' := AcceptedRequests(m, userId, requestId, gameId);
      && MirrorConsistent(m')
      && m'.Keys == m.Keys
      && m'[(request.fromUserId, requestId)] == m'[(request.toUserId, requestId)]
         == request.(status := ACCEPTED, gameId := Some(gameId))
      && (forall k | k in m && k != (request.fromUserId, requestId) && k != (request.toUserId, requestId) :: m'[k] == m[k])
  {
    var request := m[(userId, requestId)];
    assert Filed(m, (userId, requestId));
    var accepted := request.(status := ACCEPTED, gameId := Some(gameId));
    var ownKey, fromKey := (userId, requestId), (request.fromUserId, requestId);
    var m1 := m[ownKey := accepted];
    assert AcceptedCopy(Some(request), gameId) == accepted;
    // The sender's path holds the request itself, or is the acting user's own path, already updated.
    assert Lookup(m1, fromKey) == Some(request) || Lookup(m1, fromKey) == Some(accepted);
    assert AcceptedCopy(Lookup(m1, fromKey), gameId) == accepted;
    assert AcceptedRequests(m, userId, requestId, gameId) == m1[fromKey := accepted];
    assert ownKey == (accepted.toUserId, accepted.requestId) && fromKey == (accepted.fromUserId, accepted.requestId);
    PairWriteKeepsMirror(m, accepted);
  }

  /** A reject or cancel of a filed request keeps the store mirror-consistent and removes exactly the paths of that
      request. */
  lemma RemoveKeepsMirror(m: map<RequestKey, GameRequest>, userId: string, requestId: string)
    requires MirrorConsistent(m)
    requires (userId, requestId) in m
    ensures var request := m[(userId, requestId)];
      var m' := RemovedRequests(m, userId, requestId);
      && MirrorConsistent(m')
      && m'.Keys == m.Keys - {(request.fromUserId, requestId), (request.toUserId, requestId)}
      && (forall k | k in m' :: m'[k] == m[k])
  {
    var request := m[(userId, requestId)];
    assert Filed(m, (userId, requestId));
    var a, b := (request.fromUserId, requestId), (request.toUserId, requestId);
    var m' := RemovedRequests(m, userId, requestId);
    assert m' == m - {a, b};
    forall k | k in m' ensures Filed(m', k) {
      var q := m[k];
      assert Filed(m, k);
      // A path of q that was removed would hold `request`, making k one of the removed paths.
      assert (q.fromUserId, k.1) != a && (q.fromUserId, k.1) != b;
      assert (q.toUserId, k.1) != a && (q.toUserId, k.1) != b;
    }
  }


  class FirebaseGameRepository {
    var gameRequests: map<RequestKey, GameRequest>
    var games: map<string, MultiplayerGameData>

    constructor()
      ensures gameRequests == map[] && games == map[]
    {
      gameRequests := map[];
      games := map[];
    }

    /** `sendGameRequest`; `pushKey` is the key the store generates, if it can, and `now` the clock. */
    method SendGameRequest(fromUserId: string, toUserId: string, pushKey: Option<string>, now: int)
      returns (r: Result<string, string>)
      modifies this`gameRequests
      ensures pushKey.None? ==> r == Failure("Failed to generate request ID") && gameRequests == old(gameRequests)
      ensures pushKey.Some? ==>
        r == Success(pushKey.value) &&
        gameRequests == SentRequests(old(gameRequests), fromUserId, toUserId, pushKey.value, now)
    {
      if pushKey.None? {
        return Failure("Failed to generate request ID");
      }
      var requestId := pushKey.value;
      var gameRequest := NewRequest(requestId, fromUserId, toUserId, now);
      gameRequests := gameRequests[(toUserId, requestId) := gameRequest];
      gameRequests := gameRequests[(fromUserId, requestId) := gameRequest];
      r := Success(requestId);
    }

    /** `createGame`: a default sumo game under a generated key. */
    method CreateGame(player1Id: string, player2Id: string, pushKey: Option<string>) returns (r: Result<string, string>)
      modifies this`games
      ensures pushKey.None? ==> r == Failure("Failed to generate game ID") && games == old(games)
      ensures pushKey.Some? ==>
        r == Success(pushKey.value) && games == old(games)[pushKey.value := NewGame(pushKey.value, player1Id, player2Id)]
    {
      if pushKey.None? {
        return Failure("Failed to generate game ID");
      }
      var gameId := pushKey.value;
      games := games[gameId := NewGame(gameId, player1Id, player2Id)];
      r := Success(gameId);
    }

    /** `respondToGameRequest`: an accept creates the game and marks both copies; a reject or cancel removes the
        request wherever it is filed. */
    method RespondToGameRequest(userId: string, requestId: string, accept: bool, gameKey: Option<string>)
      returns (r: Result<Option<string>, string>)
      modifies this
      ensures accept && (userId, requestId) !in old(gameRequests) ==>
        r == Failure("Request not found") && gameRequests == old(gameRequests) && games == old(games)
      ensures accept && (userId, requestId) in old(gameRequests) && gameKey.None? ==>
        r == Failure("Failed to generate game ID") && gameRequests == old(gameRequests) && games == old(games)
      ensures accept && (userId, requestId) in old(gameRequests) && gameKey.Some? ==>
        var request := old(gameRequests)[(userId, requestId)];
        && r == Success(Some(gameKey.value))
        && games == old(games)[gameKey.value := NewGame(gameKey.value, request.fromUserId, request.toUserId)]
        && gameRequests == AcceptedRequests(old(gameRequests), userId, requestId, gameKey.value)
      ensures !accept ==>
        && r == Success(None) && games == old(games)
        && gameRequests == if (userId, requestId) in old(gameRequests)
                           then RemovedRequests(old(gameRequests), userId, requestId) else old(gameRequests)
    {
      if accept {
        if (userId, requestId) !in gameRequests {
          return Failure("Request not found");
        }
        var request := gameRequests[(userId, requestId)];
        var created := CreateGame(request.fromUserId, request.toUserId, gameKey);
        if created.Failure? {
          return Failure(created.error);
        }
        var gameId := created.value;
        gameRequests := gameRequests[(userId, requestId) := AcceptedCopy(Some(request), gameId)];
        var fromKey := (request.fromUserId, requestId);
        gameRequests := gameRequests[fromKey := AcceptedCopy(Lookup(gameRequests, fromKey), gameId)];
        r := Success(Some(gameId));
      } else {
        if (userId, requestId) in gameRequests {
          var request := gameRequests[(userId, requestId)];
          gameRequests := gameRequests - {(userId, requestId)};
          gameRequests := gameRequests - {(request.fromUserId, requestId)};
          gameRequests := gameRequests - {(request.toUserId, requestId)};
        }
        r := Success(None);
      }
    }

    /** `updateGameState`: replaces the whole document at its own game id. */
    method UpdateGameState(gameData: MultiplayerGameData)
      modifies this`games
      ensures games == old(games)[gameData.gameId := gameData]
    {
      games := games[gameData.gameId := gameData];
    }

    /** `endGame`: removes that game's document only. */
    method EndGame(gameId: string)
      modifies this`games
      ensures games == old(games) - {gameId}
    {
      games := games - {gameId};
    }
  }

  /** A send followed by the addressee's accept leaves both participants holding the same accepted record that
      names the new game. */
  lemma SendThenAccept(m: map<RequestKey, GameRequest>, fromUserId: string, toUserId: string, requestId: string,
                       gameId: string, now: int)
    requires MirrorConsistent(m)
    requires (fromUserId, requestId) !in m && (toUserId, requestId) !in m
    ensures var sent := SentRequests(m, fromUserId, toUserId, requestId, now);
      var m' := AcceptedRequests(sent, toUserId, requestId, gameId);
      var accepted := NewRequest(requestId, fromUserId, toUserId, now).(status := ACCEPTED, gameId := Some(gameId));
      && MirrorConsistent(m')
      && m'[(fromUserId, requestId)] == accepted && m'[(toUserId, requestId)] == accepted
      && (forall k | k in m :: k in m' && m'[k] == m[k])
  {
    SendKeepsMirror(m, fromUserId, toUserId, requestId, now);
    AcceptKeepsMirror(SentRequests(m, fromUserId, toUserId, requestId, now), toUserId, requestId, gameId);
  }
}
