/** The stored document of a networked sumo game and its mapping to and from the engine's state. */
module SumoDocument {
  import opened Wrappers
  import opened SumoModel

  /** The document as stored: the status is kept as its constant name, velocities are not stored. */
  datatype MultiplayerGameData = MultiplayerGameData(
    gameId: string,
    player1Id: string,
    player2Id: string,
    player1Position: real,
    player2Position: real,
    gameStatus: string,
    player1Score: int,
    player2Score: int,
    lastMovePlayerId: string,
    lastMoveTimestamp: int,
    collisionPosition: Option<real>,
    collisionTimestamp: int)

  /** The document with every field at its default (also what the no-argument constructor builds). */
  const DefaultGameData: MultiplayerGameData :=
    MultiplayerGameData("", "", "", -5.0, 5.0, "PLAYING", 0, 0, "", 0, None, 0)

  function StatusName(st: GameStatus): string
  {
    match st
    case WAITING => "WAITING"
    case PLAYING => "PLAYING"
    case PLAYER1_WIN => "PLAYER1_WIN"
    case PLAYER2_WIN => "PLAYER2_WIN"
  }

  /** `GameStatus.valueOf`. */
  function StatusFromName(name: string): (r: Option<GameStatus>)
    ensures r.Some? ==> StatusName(r.value) == name
    ensures forall st :: StatusName(st) == name ==> r == Some(st)
  {
    if name == "WAITING" then Some(WAITING)
    else if name == "PLAYING" then Some(PLAYING)
    else if name == "PLAYER1_WIN" then Some(PLAYER1_WIN)
    else if name == "PLAYER2_WIN" then Some(PLAYER2_WIN)
    else None
  }

  /** `toSumoGameState`: fails on an unknown status name; velocities read as zero. */
  function ToSumoGameState(d: MultiplayerGameData): Result<SumoGameState, string>
  {
    match StatusFromName(d.gameStatus)
    case None => Failure("No enum constant")
    case Some(status) =>
      Success(SumoGameState(d.player1Position, d.player2Position, 0.0, 0.0, status, d.lastMoveTimestamp,
                            d.player1Score, d.player2Score, d.collisionPosition, d.collisionTimestamp))
  }

  /** `fromSumoGameState`. */
  function FromSumoGameState(gameId: string, player1Id: string, player2Id: string, state: SumoGameState,
                             lastMovePlayerId: string): MultiplayerGameData
  {
    MultiplayerGameData(gameId, player1Id, player2Id, state.player1Position, state.player2Position,
                        StatusName(state.gameStatus), state.player1Score, state.player2Score, lastMovePlayerId,
                        state.lastUpdateTime, state.collisionPosition, state.collisionTimestamp)
  }

  /** Reading back a written state gives the state with its velocities dropped to zero. */
  lemma SumoDocumentRoundTrip(gameId: string, player1Id: string, player2Id: string, s: SumoGameState,
                              lastMovePlayerId: string)
    ensures ToSumoGameState(FromSumoGameState(gameId, player1Id, player2Id, s, lastMovePlayerId))
            == Success(s.(player1Velocity := 0.0, player2Velocity := 0.0))
  {
  }

  /** Rewriting a readable document with its own metadata gives exactly the document. */
  lemma SumoDocumentReverseRoundTrip(d: MultiplayerGameData)
    requires ToSumoGameState(d).Success?
    ensures FromSumoGameState(d.gameId, d.player1Id, d.player2Id, ToSumoGameState(d).value, d.lastMovePlayerId) == d
  {
  }

  /** A read reports zero velocities and the last move time as the update time, and fails exactly on an unknown
      status name. */
  lemma DecodeFields(d: MultiplayerGameData)
    ensures ToSumoGameState(d).Failure? <==> StatusFromName(d.gameStatus).None?
    ensures ToSumoGameState(d).Success? ==>
      var s := ToSumoGameState(d).value;
      && s.player1Velocity == 0.0 && s.player2Velocity == 0.0
      && s.lastUpdateTime == d.lastMoveTimestamp
      && StatusName(s.gameStatus) == d.gameStatus
      && s.player1Position == d.player1Position && s.player2Position == d.player2Position
      && s.player1Score == d.player1Score && s.player2Score == d.player2Score
      && s.collisionPosition == d.collisionPosition && s.collisionTimestamp == d.collisionTimestamp
  {
  }

  /** A write copies the session metadata verbatim, stores the status by name and the update time as the last move
      time. */
  lemma EncodeFields(gameId: string, player1Id: string, player2Id: string, s: SumoGameState, lastMovePlayerId: string)
    ensures var d := FromSumoGameState(gameId, player1Id, player2Id, s, lastMovePlayerId);
      && d.gameId == gameId && d.player1Id == player1Id && d.player2Id == player2Id
      && d.lastMovePlayerId == lastMovePlayerId && d.lastMoveTimestamp == s.lastUpdateTime
      && StatusFromName(d.gameStatus) == Some(s.gameStatus)
  {
  }

  /** The default document sits at the marks, in play, scoreless, with no collision, and reads as the default
      state. */
  lemma DefaultDocumentDecodes()
    ensures DefaultGameData.player1Position == -5.0 && DefaultGameData.player2Position == 5.0
    ensures DefaultGameData.gameStatus == "PLAYING" && DefaultGameData.collisionPosition.None?
    ensures DefaultGameData.player1Score == 0 && DefaultGameData.player2Score == 0
    ensures ToSumoGameState(DefaultGameData) == Success(DefaultSumoGameState)
  {
  }
}
