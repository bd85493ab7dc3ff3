/** The networked mukjjippa view model: the authority's guards, its timed jobs and the writes they issue. */
module MukjjippaViewModel {
  import opened Wrappers
  import opened MukjjippaChoices
  import opened MukjjippaModel
  import opened MukjjippaRules
  import opened MukjjippaDocument
  import K = MukjjippaConstants

  /** The delayed result job, if one is scheduled. */
  datatype ResultJob =
    | NoResultJob
    | ShowResultJob(snapshot: MukjjippaGameState)  // will reveal both choices of `snapshot`
    | ProcessResultJob                             // will resolve the round from the latest document

  /** The game is over as far as the sequencer is concerned. */
  predicate Finished(s: MukjjippaGameState)
  {
    s.isGameFinished || s.phase == GAME_OVER
  }

  /** The job decisions of `processGameLogic` for decoded state `s`, given the jobs already pending:
      the countdown's remaining writes (active while non-empty) and the result job. */
  function GameLogicJobs(s: MukjjippaGameState, currentUserId: string,
                         countdownJob: seq<MukjjippaGameState>, resultJob: ResultJob): (seq<MukjjippaGameState>, ResultJob)
  {
    if Finished(s) then ([], NoResultJob)
    else if s.bothPlayersReady && s.countdownState == WAITING && currentUserId == K.USER_JIM_ID then
      if countdownJob != [] then (countdownJob, resultJob)
      else (CountdownWrites(s), resultJob)
    else if IsChoiceComplete(s) && s.countdownState == RESULT_WAIT && currentUserId == K.USER_JIM_ID then
      if resultJob != NoResultJob then (countdownJob, resultJob)
      else (countdownJob, ShowResultJob(s))
    else if IsChoiceComplete(s) && s.countdownState == SHOWING_RESULT && currentUserId == K.USER_JIM_ID then
      if resultJob != NoResultJob then (countdownJob, resultJob)
      else (countdownJob, ProcessResultJob)
    else (countdownJob, resultJob)
  }

  /** The guards of `processGameLogic`: a finished game only cancels; only Jim schedules anything; a running
      job is never restarted; and a job is scheduled exactly when its trigger holds and no such job runs. */
  lemma GameLogicGuards(s: MukjjippaGameState, currentUserId: string,
                        countdownJob: seq<MukjjippaGameState>, resultJob: ResultJob)
    ensures var (c, r) := GameLogicJobs(s, currentUserId, countdownJob, resultJob);
      && (Finished(s) ==> c == [] && r == NoResultJob)
      && (!Finished(s) && currentUserId != K.USER_JIM_ID ==> c == countdownJob && r == resultJob)
      && (!Finished(s) && countdownJob != [] ==> c == countdownJob)
      && (!Finished(s) && resultJob != NoResultJob ==> r == resultJob)
      && (!Finished(s) && c != countdownJob ==>
            currentUserId == K.USER_JIM_ID && s.bothPlayersReady && s.countdownState == WAITING
            && countdownJob == [] && c == CountdownWrites(s))
      && (!Finished(s) && r != resultJob ==>
            currentUserId == K.USER_JIM_ID && IsChoiceComplete(s) && resultJob == NoResultJob
            && ((s.countdownState == RESULT_WAIT && r == ShowResultJob(s))
                || (s.countdownState == SHOWING_RESULT && r == ProcessResultJob)))
      && ((currentUserId == K.USER_JIM_ID && !Finished(s) && s.bothPlayersReady && s.countdownState == WAITING
           && countdownJob == []) ==> c == CountdownWrites(s))
      && (currentUserId == K.USER_JIM_ID && !Finished(s) && IsChoiceComplete(s) && resultJob == NoResultJob ==>
            (s.countdownState == RESULT_WAIT ==> r == ShowResultJob(s))
            && (s.countdownState == SHOWING_RESULT ==> r == ProcessResultJob))
  {
  }

  /** The state `makeChoice` writes, or nothing when the choice is refused. */
  function ChoiceUpdate(s: MukjjippaGameState, currentUserId: string, choice: MukjjippaChoice): Option<MukjjippaGameState>
  {
    if s.isGameFinished then None
    else if s.countdownState == SHOWING_RESULT then None
    else
      var mine := if currentUserId == K.USER_JIM_ID then s.jimChoice else s.hiChoice;
      if mine.Some? && s.countdownState == RESULT_WAIT then None
      else if currentUserId == K.USER_JIM_ID then Some(s.(jimChoice := Some(choice)))
      else Some(s.(hiChoice := Some(choice)))
  }

  /** A choice is refused exactly when the game is finished, the choices are being revealed, or this player
      already chose while the result is awaited; an accepted choice changes only this player's field. */
  lemma ChoiceUpdateSpec(s: MukjjippaGameState, currentUserId: string, choice: MukjjippaChoice)
    ensures ChoiceUpdate(s, currentUserId, choice).None? <==>
      s.isGameFinished || s.countdownState == SHOWING_RESULT
      || (MyChoice(s, currentUserId).Some? && s.countdownState == RESULT_WAIT)
    ensures ChoiceUpdate(s, currentUserId, choice).Some? ==>
      var u := ChoiceUpdate(s, currentUserId, choice).value;
      && MyChoice(u, currentUserId) == Some(choice)
      && OpponentChoice(u, currentUserId) == OpponentChoice(s, currentUserId)
      && u == s.(jimChoice := u.jimChoice, hiChoice := u.hiChoice)
  {
  }

  /** Whenever the screen enables the buttons for a known player, the view model accepts the tap. */
  lemma EnabledButtonsAreAccepted(s: MukjjippaGameState, currentUserId: string, choice: MukjjippaChoice)
    requires currentUserId == K.USER_JIM_ID || currentUserId == K.USER_GIRLFRIEND_ID
    requires IsButtonEnabled(s, currentUserId)
    ensures ChoiceUpdate(s, currentUserId, choice).Some?
  {
  }

  class MultiplayerMukjjippaViewModel {
    const gameId: string
    const currentUserId: string
    /** The latest document delivered by the store subscription. */
    var gameData: Option<MultiplayerMukjjippaData>
    /** The writes the running countdown still has to make; the countdown job is active while this is non-empty. */
    var countdownJob: seq<MukjjippaGameState>
    var resultJob: ResultJob
    /** Every document this view model has handed to the store, in order. */
    var written: seq<MultiplayerMukjjippaData>
    /** The snapshot the running countdown was started from. */
    ghost var countdownSnapshot: MukjjippaGameState

    /** Every pending countdown write is the snapshot at some step, and the last one awaits the result. */
    ghost predicate Valid()
      reads this
    {
      && (forall i | 0 <= i < |countdownJob| ::
            countdownJob[i] == At(countdownSnapshot, countdownJob[i].countdownState, countdownJob[i].currentMessage))
      && (countdownJob != [] ==> countdownJob[|countdownJob| - 1] == At(countdownSnapshot, RESULT_WAIT, ""))
    }

    constructor(gameId: string, currentUserId: string)
      ensures Valid()
      ensures this.gameId == gameId && this.currentUserId == currentUserId
      ensures gameData.None? && countdownJob == [] && resultJob == NoResultJob && written == []
    {
      this.gameId := gameId;
      this.currentUserId := currentUserId;
      gameData := None;
      countdownJob := [];
      resultJob := NoResultJob;
      written := [];
      countdownSnapshot := DefaultGameState;
    }

    /** The document `updateGameState` writes for `state`: this game's id, the current players, this user. */
    function Encoded(state: MukjjippaGameState, now: int): MultiplayerMukjjippaData
      reads this
      requires gameData.Some?
    {
      FromMukjjippaGameState(gameId, gameData.value.player1Id, gameData.value.player2Id, state, currentUserId, now)
    }

    /** What `updateGameState` adds to the store: nothing before the first document arrives. */
    function WriteOf(state: MukjjippaGameState, now: int): seq<MultiplayerMukjjippaData>
      reads this
    {
      if gameData.Some? then [Encoded(state, now)] else []
    }

    /** `updateGameState`: persists `state` over the current document. */
    method UpdateGameState(state: MukjjippaGameState, now: int)
      modifies this`written
      ensures written == old(written) + WriteOf(state, now)
    {
      if gameData.Some? {
        var currentData := gameData.value;
        var updatedData := FromMukjjippaGameState(gameId, currentData.player1Id, currentData.player2Id,
                                                  state, currentUserId, now);
        written := written + [updatedData];
      }
    }

    /** `processGameLogic`: cancels, keeps or schedules jobs for a freshly delivered document; never writes. */
    method ProcessGameLogic(data: MultiplayerMukjjippaData)
      requires Valid()
      modifies this`countdownJob, this`resultJob, this`countdownSnapshot
      ensures Valid()
      ensures ToMukjjippaGameState(data).Failure? ==>
        countdownJob == old(countdownJob) && resultJob == old(resultJob)
      ensures ToMukjjippaGameState(data).Success? ==>
        (countdownJob, resultJob)
          == GameLogicJobs(ToMukjjippaGameState(data).value, currentUserId, old(countdownJob), old(resultJob))
    {
      var decoded := ToMukjjippaGameState(data);
      if decoded.Failure? {
        return;
      }
      var gameState := decoded.value;

      if gameState.isGameFinished || gameState.phase == GAME_OVER {
        countdownJob := [];
        resultJob := NoResultJob;
        return;
      }

      if gameState.bothPlayersReady && gameState.countdownState == WAITING && !gameState.isGameFinished
         && currentUserId == K.USER_JIM_ID
      {
        if countdownJob != [] {
          return;
        }
        CountdownWritesSpec(gameState);
        countdownJob := CountdownWrites(gameState);
        countdownSnapshot := gameState;
      }

      if IsChoiceComplete(gameState) && gameState.countdownState == RESULT_WAIT && currentUserId == K.USER_JIM_ID {
        if resultJob != NoResultJob {
          return;
        }
        resultJob := ShowResultJob(gameState);
      }

      if IsChoiceComplete(gameState) && gameState.countdownState == SHOWING_RESULT && currentUserId == K.USER_JIM_ID {
        if resultJob != NoResultJob {
          return;
        }
        resultJob := ProcessResultJob;
      }
    }

    /** The store subscription delivers a document (absent once the game was deleted). */
    method OnSnapshot(data: Option<MultiplayerMukjjippaData>)
      requires Valid()
      modifies this`gameData, this`countdownJob, this`resultJob, this`countdownSnapshot
      ensures Valid()
      ensures gameData == data
      ensures data.None? || ToMukjjippaGameState(data.value).Failure? ==>
        countdownJob == old(countdownJob) && resultJob == old(resultJob)
      ensures data.Some? && ToMukjjippaGameState(data.value).Success? ==>
        (countdownJob, resultJob)
          == GameLogicJobs(ToMukjjippaGameState(data.value).value, currentUserId, old(countdownJob), old(resultJob))
    {
      gameData := data;
      if data.Some? {
        ProcessGameLogic(data.value);
      }
    }

    /** The countdown job makes its next write (after its fixed delay). */
    method StepCountdown(now: int)
      requires Valid()
      modifies this`countdownJob, this`written
      ensures Valid()
      ensures old(countdownJob) == [] ==> countdownJob == [] && written == old(written)
      ensures old(countdownJob) != [] ==>
        && countdownJob == old(countdownJob)[1..]
        && written == old(written) + WriteOf(old(countdownJob)[0], now)
        && old(countdownJob)[0] == At(countdownSnapshot, old(countdownJob)[0].countdownState, old(countdownJob)[0].currentMessage)
    {
      if countdownJob != [] {
        var next := countdownJob[0];
        countdownJob := countdownJob[1..];
        UpdateGameState(next, now);
      }
    }

    /** The scheduled result job fires: it reveals the choices, or resolves the round if the latest document
        is still revealing them and the game is not finished. */
    method RunResultJob(now: int)
      modifies this`resultJob, this`written
      ensures resultJob == NoResultJob
      ensures old(resultJob) == NoResultJob ==> written == old(written)
      ensures old(resultJob).ShowResultJob? ==>
        written == old(written) + WriteOf(old(resultJob).snapshot.(countdownState := SHOWING_RESULT), now)
      ensures old(resultJob) == ProcessResultJob ==>
        if gameData.Some? && ToMukjjippaGameState(gameData.value).Success?
           && ToMukjjippaGameState(gameData.value).value.countdownState == SHOWING_RESULT
           && !ToMukjjippaGameState(gameData.value).value.isGameFinished
           && IsChoiceComplete(ToMukjjippaGameState(gameData.value).value)
        then written == old(written) + WriteOf(ProcessGameResult(ToMukjjippaGameState(gameData.value).value, MultiplayerCopy), now)
        else written == old(written)
    {
      var job := resultJob;
      resultJob := NoResultJob;
      match job
      case NoResultJob =>
      case ShowResultJob(snapshot) =>
        UpdateGameState(snapshot.(countdownState := SHOWING_RESULT), now);
      case ProcessResultJob =>
        if gameData.Some? {
          var decoded := ToMukjjippaGameState(gameData.value);
          if decoded.Success? {
            var currentGameState := decoded.value;
            if currentGameState.countdownState == SHOWING_RESULT && !currentGameState.isGameFinished {
              ProcessGameResultAndWrite(currentGameState, now);
            }
          }
        }
    }

    /** `processGameResult`: resolves a complete round and persists the outcome. */
    method ProcessGameResultAndWrite(gameState: MukjjippaGameState, now: int)
      modifies this`written
      ensures written == old(written) +
        (if IsChoiceComplete(gameState) then WriteOf(ProcessGameResult(gameState, MultiplayerCopy), now) else [])
    {
      if !IsChoiceComplete(gameState) {
        return;
      }
      var newGameState := ProcessGameResult(gameState, MultiplayerCopy);
      UpdateGameState(newGameState, now);
    }

    /** `makeChoice`: submits this player's choice unless the game state refuses it. */
    method MakeChoice(choice: MukjjippaChoice, now: int)
      modifies this`written
      ensures gameData.None? || ToMukjjippaGameState(gameData.value).Failure? ==> written == old(written)
      ensures gameData.Some? && ToMukjjippaGameState(gameData.value).Success? ==>
        var update := ChoiceUpdate(ToMukjjippaGameState(gameData.value).value, currentUserId, choice);
        written == old(written) + (if update.Some? then WriteOf(update.value, now) else [])
    {
      if gameData.None? {
        return;
      }
      var decoded := ToMukjjippaGameState(gameData.value);
      if decoded.Failure? {
        return;
      }
      var gameState := decoded.value;
      if gameState.isGameFinished {
        return;
      }
      if gameState.countdownState == SHOWING_RESULT {
        return;
      }
      var currentPlayerChoice := if currentUserId == K.USER_JIM_ID then gameState.jimChoice else gameState.hiChoice;
      if currentPlayerChoice.Some? && gameState.countdownState == RESULT_WAIT {
        return;
      }
      var updatedGameState := if currentUserId == K.USER_JIM_ID then gameState.(jimChoice := Some(choice))
                              else gameState.(hiChoice := Some(choice));
      UpdateGameState(updatedGameState, now);
    }

    /** `restartGame`: writes a fresh ready game, crediting the stored winner with one point. */
    method RestartGame(now: int)
      modifies this`written
      ensures gameData.None? ==> written == old(written)
      ensures gameData.Some? ==>
        written == old(written)
          + [Encoded(Restarted(gameData.value.winner, gameData.value.jimScore, gameData.value.hiScore), now)]
    {
      if gameData.None? {
        return;
      }
      var currentData := gameData.value;
      UpdateGameState(Restarted(currentData.winner, currentData.jimScore, currentData.hiScore), now);
    }
  }
}
