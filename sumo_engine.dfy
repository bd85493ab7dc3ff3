/** The sumo-push rules: a button press steps the presser towards the opponent, a collision shoves the two apart,
    and whoever is shoved past the boundary loses the round. */
module SumoPhysicsEngine {
  import opened Wrappers
  import opened SumoModel

  const BOUNDARY: real := 10.0
  /** How far one press moves the presser. */
  const STEP_SIZE: real := 0.8
  const PLAYER_RADIUS: real := 2.5
  /** The extra distance the pressed-upon wrestler is shoved in a collision. */
  const PUSH_FORCE: real := 1.5

  /** Closest the centres may be without a collision. */
  const COLLISION_THRESHOLD: real := PLAYER_RADIUS * 2.0

  datatype CollisionResult = CollisionResult(player1Position: real, player2Position: real, collisionPosition: Option<real>)

  /** One press by `playerId`: "player1" steps right, anyone else is player 2 and steps left. */
  function Step(s: SumoGameState, playerId: string): (r: (real, real))
    ensures playerId == "player1" ==> r.0 == s.player1Position + STEP_SIZE && r.1 == s.player2Position
    ensures playerId != "player1" ==> r.0 == s.player1Position && r.1 == s.player2Position - STEP_SIZE
  {
    if playerId == "player1" then (s.player1Position + STEP_SIZE, s.player2Position)
    else (s.player1Position, s.player2Position - STEP_SIZE)
  }

  /** Resolves an overlap after a step: the mover backs off by half the overlap, the other is shoved by half the
      overlap plus the push force; the collision is recorded at the midpoint of the stepped positions. */
  function CheckCollisionAndPush(p1: real, p2: real, isPlayer1Moving: bool): (r: CollisionResult)
    ensures r.collisionPosition.None? <==> p2 - p1 >= COLLISION_THRESHOLD
    ensures r.collisionPosition.None? ==> r.player1Position == p1 && r.player2Position == p2
    ensures r.collisionPosition.Some? ==>
      && r.collisionPosition.value == (p1 + p2) / 2.0
      && r.player2Position - r.player1Position == COLLISION_THRESHOLD + PUSH_FORCE
      && r.player1Position < p1 && p2 < r.player2Position
    ensures r.collisionPosition.Some? && isPlayer1Moving ==>
      r.player2Position - p2 == (p1 - r.player1Position) + PUSH_FORCE
    ensures r.collisionPosition.Some? && !isPlayer1Moving ==>
      p1 - r.player1Position == (r.player2Position - p2) + PUSH_FORCE
    ensures r.player2Position - r.player1Position >= COLLISION_THRESHOLD
  {
    var centerDistance := p2 - p1;
    if centerDistance >= COLLISION_THRESHOLD then CollisionResult(p1, p2, None)
    else
      var overlap := COLLISION_THRESHOLD - centerDistance;
      var collisionPoint := (p1 + p2) / 2.0;
      if isPlayer1Moving then CollisionResult(p1 - overlap / 2.0, p2 + overlap / 2.0 + PUSH_FORCE, Some(collisionPoint))
      else CollisionResult(p1 - overlap / 2.0 - PUSH_FORCE, p2 + overlap / 2.0, Some(collisionPoint))
  }

  /** Player 1 pushed out on the left loses first; otherwise player 2 pushed out on the right loses. */
  function CheckWinCondition(p1: real, p2: real): (st: GameStatus)
    ensures st == PLAYER2_WIN <==> p1 < -BOUNDARY
    ensures st == PLAYER1_WIN <==> -BOUNDARY <= p1 && p2 > BOUNDARY
    ensures st == PLAYING <==> -BOUNDARY <= p1 && p2 <= BOUNDARY
    ensures st != WAITING
  {
    if p1 < -BOUNDARY then PLAYER2_WIN
    else if p2 > BOUNDARY then PLAYER1_WIN
    else PLAYING
  }

  /** `processMove`: a press at time `timestamp`; a round that is not being played ignores it. */
  function ProcessMove(s: SumoGameState, playerId: string, timestamp: int): SumoGameState
  {
    if s.gameStatus != PLAYING then s
    else
      var isPlayer1 := playerId == "player1";
      var stepped := Step(s, playerId);
      var collision := CheckCollisionAndPush(stepped.0, stepped.1, isPlayer1);
      var status := CheckWinCondition(collision.player1Position, collision.player2Position);
      SumoGameState(
        collision.player1Position, collision.player2Position, 0.0, 0.0, status, timestamp,
        if status == PLAYER1_WIN then s.player1Score + 1 else s.player1Score,
        if status == PLAYER2_WIN then s.player2Score + 1 else s.player2Score,
        collision.collisionPosition,
        if collision.collisionPosition.Some? then timestamp else 0)
  }

  /** `resetRound`: wrestlers back at their marks, scores kept. */
  function ResetRound(currentScore1: int, currentScore2: int): (r: SumoGameState)
    ensures r.player1Score == currentScore1 && r.player2Score == currentScore2
    ensures r.player1Position == -5.0 && r.player2Position == 5.0 && r.gameStatus == PLAYING
    ensures r.collisionPosition.None? && r.player1Velocity == 0.0 && r.player2Velocity == 0.0
    ensures r.lastUpdateTime == 0 && r.collisionTimestamp == 0
  {
    DefaultSumoGameState.(player1Score := currentScore1, player2Score := currentScore2)
  }

  /** `resetGame`: the default state. */
  function ResetGame(): (r: SumoGameState)
    ensures r == ResetRound(0, 0)
  {
    DefaultSumoGameState
  }

  /** A press outside a round in play changes nothing. */
  lemma ProcessMoveIgnoredWhenNotPlaying(s: SumoGameState, playerId: string, timestamp: int)
    requires s.gameStatus != PLAYING
    ensures ProcessMove(s, playerId, timestamp) == s
  {
  }

  /** Geometry of a press: a collision happens exactly when the stepped wrestlers are closer than two radii; without
      one they stay where the step put them, with one they end exactly `2 * radius + push` apart. Either way they
      end at least two radii apart, the presser advances at most one step and the other is never pulled closer. */
  lemma ProcessMoveGeometry(s: SumoGameState, playerId: string, timestamp: int)
    requires s.gameStatus == PLAYING
    ensures var q := Step(s, playerId);
      var r := ProcessMove(s, playerId, timestamp);
      && (r.collisionPosition.None? <==> q.1 - q.0 >= COLLISION_THRESHOLD)
      && (r.collisionPosition.None? ==> r.player1Position == q.0 && r.player2Position == q.1)
      && (r.collisionPosition.Some? ==>
            r.player2Position - r.player1Position == 6.5 && r.collisionPosition.value == (q.0 + q.1) / 2.0)
      && r.player2Position - r.player1Position >= 5.0
      && (playerId == "player1" ==>
            r.player1Position <= s.player1Position + STEP_SIZE && r.player2Position >= s.player2Position)
      && (playerId != "player1" ==>
            r.player2Position >= s.player2Position - STEP_SIZE && r.player1Position <= s.player1Position)
  {
  }

  /** Bookkeeping of a press in play: the status is the win check on the resolved positions, only the winner
      scores, by one; velocities are zero and both times are the press time (the collision time only on a
      collision). */
  lemma ProcessMoveBookkeeping(s: SumoGameState, playerId: string, timestamp: int)
    requires s.gameStatus == PLAYING
    ensures var r := ProcessMove(s, playerId, timestamp);
      && r.gameStatus == CheckWinCondition(r.player1Position, r.player2Position)
      && (r.gameStatus == PLAYER2_WIN <==> r.player1Position < -BOUNDARY)
      && (r.gameStatus == PLAYER1_WIN <==> -BOUNDARY <= r.player1Position && r.player2Position > BOUNDARY)
      && r.player1Score == s.player1Score + (if r.gameStatus == PLAYER1_WIN then 1 else 0)
      && r.player2Score == s.player2Score + (if r.gameStatus == PLAYER2_WIN then 1 else 0)
      && r.player1Velocity == 0.0 && r.player2Velocity == 0.0
      && r.lastUpdateTime == timestamp
      && (r.collisionPosition.Some? ==> r.collisionTimestamp == timestamp)
      && (r.collisionPosition.None? ==> r.collisionTimestamp == 0)
  {
  }

  /** A press by one wrestler at a time. */
  datatype Move = Move(playerId: string, timestamp: int)

  function PlayMoves(s: SumoGameState, moves: seq<Move>): SumoGameState
    decreases |moves|
  {
    if moves == [] then s
    else PlayMoves(ProcessMove(s, moves[0].playerId, moves[0].timestamp), moves[1..])
  }

  /** A round awards at most one point: over any run of presses the scores change only when the round ends, by one
      for the winner, and a round that has ended stays as it is. */
  lemma {:induction false} PlayMovesScoreOnce(s: SumoGameState, moves: seq<Move>)
    ensures var r := PlayMoves(s, moves);
      && (s.gameStatus != PLAYING ==> r == s)
      && r.player1Score == s.player1Score + (if s.gameStatus == PLAYING && r.gameStatus == PLAYER1_WIN then 1 else 0)
      && r.player2Score == s.player2Score + (if s.gameStatus == PLAYING && r.gameStatus == PLAYER2_WIN then 1 else 0)
      && (r.gameStatus == WAITING ==> r == s)
    decreases |moves|
  {
    if moves != [] {
      var next := ProcessMove(s, moves[0].playerId, moves[0].timestamp);
      PlayMovesScoreOnce(next, moves[1..]);
      if s.gameStatus == PLAYING {
        ProcessMoveBookkeeping(s, moves[0].playerId, moves[0].timestamp);
      }
    }
  }

  /** Both resets start a fresh round that presses act on. */
  lemma ResetsStartPlay(currentScore1: int, currentScore2: int)
    ensures ResetRound(currentScore1, currentScore2).gameStatus == PLAYING
    ensures ResetGame() == DefaultSumoGameState
    ensures ResetRound(currentScore1, currentScore2) == ResetGame().(player1Score := currentScore1, player2Score := currentScore2)
  {
  }
}
