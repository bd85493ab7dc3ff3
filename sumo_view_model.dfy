/** The networked sumo screen's view model: it reads the game document, runs the engine on a press and writes the
    resulting document back. */
module SumoViewModel {
  import opened Wrappers
  import opened SumoModel
  import opened SumoPhysicsEngine
  import opened SumoDocument
  import opened GameRepository

  /** The engine role of the user: the game's player 1 presses as "player1", anyone else as "player2". */
  function PlayerRole(currentUserId: string, current: MultiplayerGameData): (role: string)
    ensures role == "player1" <==> currentUserId == current.player1Id
    ensures role == "player1" || role == "player2"
  {
    if currentUserId == current.player1Id then "player1" else "player2"
  }

  /** The document `playerMove` writes for a press at time `now`; an unreadable document cannot be moved on. */
  function MoveDocument(gameId: string, currentUserId: string, current: MultiplayerGameData, now: int)
    : Result<MultiplayerGameData, string>
  {
    match ToSumoGameState(current)
    case Failure(e) => Failure(e)
    case Success(state) =>
      Success(FromSumoGameState(gameId, current.player1Id, current.player2Id,
                                ProcessMove(state, PlayerRole(currentUserId, current), now), currentUserId))
  }

  /** The document `nextRound` writes: a fresh round that keeps the stored scores. */
  function NextRoundDocument(gameId: string, current: MultiplayerGameData): MultiplayerGameData
  {
    FromSumoGameState(gameId, current.player1Id, current.player2Id,
                      ResetRound(current.player1Score, current.player2Score), "")
  }

  /** A press writes, under the view model's own game id and for the same two players, exactly the document whose
      state is the engine's move from the stored state, stamped with the presser; it fails exactly when the stored
      status cannot be read. */
  lemma MoveDocumentSpec(gameId: string, currentUserId: string, current: MultiplayerGameData, now: int)
    ensures MoveDocument(gameId, currentUserId, current, now).Failure? <==> ToSumoGameState(current).Failure?
    ensures MoveDocument(gameId, currentUserId, current, now).Success? ==>
      var d := MoveDocument(gameId, currentUserId, current, now).value;
      && d.gameId == gameId && d.player1Id == current.player1Id && d.player2Id == current.player2Id
      && d.lastMovePlayerId == currentUserId
      && ToSumoGameState(d)
         == Success(ProcessMove(ToSumoGameState(current).value, PlayerRole(currentUserId, current), now))
  {
    if ToSumoGameState(current).Success? {
      var state := ToSumoGameState(current).value;
      SumoDocumentRoundTrip(gameId, current.player1Id, current.player2Id,
                            ProcessMove(state, PlayerRole(currentUserId, current), now), currentUserId);
      if state.gameStatus == PLAYING {
        ProcessMoveBookkeeping(state, PlayerRole(currentUserId, current), now);
      }
    }
  }

  /** Once a round is decided a press only re-stamps the document with the view model's game id and the presser. */
  lemma MoveAfterRoundEndsOnlyRestamps(gameId: string, currentUserId: string, current: MultiplayerGameData, now: int)
    requires ToSumoGameState(current).Success? && current.gameStatus != "PLAYING"
    ensures MoveDocument(gameId, currentUserId, current, now)
            == Success(current.(gameId := gameId, lastMovePlayerId := currentUserId))
  {
    var state := ToSumoGameState(current).value;
    assert state.gameStatus != PLAYING;
    SumoDocumentReverseRoundTrip(current);
  }

  /** A press in play by player 1 never pulls player 2 closer, and one by player 2 never pulls player 1 closer; the
      written wrestlers stand at least two radii apart. */
  lemma MoveDocumentGeometry(gameId: string, currentUserId: string, current: MultiplayerGameData, now: int)
    requires current.gameStatus == "PLAYING"
    ensures var d := MoveDocument(gameId, currentUserId, current, now).value;
      && (currentUserId == current.player1Id ==>
            d.player2Position >= current.player2Position && d.player1Position <= current.player1Position + STEP_SIZE)
      && (currentUserId != current.player1Id ==>
            d.player1Position <= current.player1Position && d.player2Position >= current.player2Position - STEP_SIZE)
      && d.player2Position - d.player1Position >= 5.0
  {
    var state := ToSumoGameState(current).value;
    ProcessMoveGeometry(state, PlayerRole(currentUserId, current), now);
  }

  /** The next round starts at the marks, in play, with the stored scores and no presser. */
  lemma NextRoundDocumentSpec(gameId: string, current: MultiplayerGameData)
    ensures var d := NextRoundDocument(gameId, current);
      && d.gameId == gameId && d.player1Id == current.player1Id && d.player2Id == current.player2Id
      && d.lastMovePlayerId == ""
      && d.player1Score == current.player1Score && d.player2Score == current.player2Score
      && ToSumoGameState(d) == Success(ResetRound(current.player1Score, current.player2Score))
  {
    SumoDocumentRoundTrip(gameId, current.player1Id, current.player2Id,
                          ResetRound(current.player1Score, current.player2Score), "");
  }

  class MultiplayerGameViewModel {
    const gameId: string
    /** The id of the user on this device. */
    const currentUserId: string
    const repository: FirebaseGameRepository
    /** The latest document the game listener delivered; none before the first. */
    var gameData: Option<MultiplayerGameData>

    constructor(gameId: string, currentUserId: string, repository: FirebaseGameRepository)
      ensures this.gameId == gameId && this.currentUserId == currentUserId && this.repository == repository
      ensures gameData.None?
    {
      this.gameId := gameId;
      this.currentUserId := currentUserId;
      this.repository := repository;
      gameData := None;
    }

    /** The game listener delivers a document (or its absence). */
    method OnSnapshot(d: Option<MultiplayerGameData>)
      modifies this`gameData
      ensures gameData == d
    {
      gameData := d;
    }

    /** `playerMove`: with a readable current document, writes the moved document; otherwise writes nothing. */
    method PlayerMove(now: int)
      modifies repository`games
      ensures gameData.None? ==> repository.games == old(repository.games)
      ensures gameData.Some? ==>
        match MoveDocument(gameId, currentUserId, gameData.value, now)
        case Success(d) => repository.games == old(repository.games)[gameId := d]
        case Failure(_) => repository.games == old(repository.games)
    {
      if gameData.None? {
        return;
      }
      var current := gameData.value;
      var moved := MoveDocument(gameId, currentUserId, current, now);
      if moved.Success? {
        MoveDocumentSpec(gameId, currentUserId, current, now);
        repository.UpdateGameState(moved.value);
      }
    }

    /** `nextRound`: with a current document, writes a fresh round keeping its scores. */
    method NextRound()
      modifies repository`games
      ensures gameData.None? ==> repository.games == old(repository.games)
      ensures gameData.Some? ==>
        repository.games == old(repository.games)[gameId := NextRoundDocument(gameId, gameData.value)]
    {
      if gameData.None? {
        return;
      }
      repository.UpdateGameState(NextRoundDocument(gameId, gameData.value));
    }

    /** `quitGame`: removes this game's document. */
    method QuitGame()
      modifies repository`games
      ensures repository.games == old(repository.games) - {gameId}
    {
      repository.EndGame(gameId);
    }
  }
}
