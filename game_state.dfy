/** The in-memory state of one mukjjippa game and its per-player lookups. */
module MukjjippaModel {
  import opened Wrappers
  import opened MukjjippaChoices
  import K = MukjjippaConstants

  datatype MukjjippaPhase = ROCK_PAPER_SCISSORS | MUKJJIPPA | GAME_OVER

  datatype CountdownState = WAITING | COUNTDOWN_1 | COUNTDOWN_2 | COUNTDOWN_3 | RESULT_WAIT | SHOWING_RESULT

  /** An immutable snapshot of the game; `jim*` fields belong to "user_jim", `hi*` to "user_girlfriend". */
  datatype MukjjippaGameState = MukjjippaGameState(
    phase: MukjjippaPhase,
    countdownState: CountdownState,
    currentMessage: string,
    jimScore: int,
    hiScore: int,
    jimChoice: Option<MukjjippaChoice>,
    hiChoice: Option<MukjjippaChoice>,
    attackerId: Option<string>,
    previousAttackerChoice: Option<MukjjippaChoice>,
    winner: Option<string>,
    isGameFinished: bool,
    bothPlayersReady: bool)

  /** The state built with every constructor argument left at its default. */
  const DefaultGameState: MukjjippaGameState :=
    MukjjippaGameState(ROCK_PAPER_SCISSORS, WAITING, "", 0, 0, None, None, None, None, None, false, false)

  /** The display name of a known player id, none for any other id. */
  function PlayerDisplayName(id: Option<string>): (r: Option<string>)
    ensures r.Some? <==> id == Some(K.USER_JIM_ID) || id == Some(K.USER_GIRLFRIEND_ID)
    ensures id == Some(K.USER_JIM_ID) ==> r == Some(K.USER_JIM_DISPLAY_NAME)
    ensures id == Some(K.USER_GIRLFRIEND_ID) ==> r == Some(K.USER_GIRLFRIEND_DISPLAY_NAME)
  {
    if id == Some("user_jim") then Some("Jim")
    else if id == Some("user_girlfriend") then Some("Hi")
    else None
  }

  function AttackerDisplayName(s: MukjjippaGameState): Option<string>
  {
    PlayerDisplayName(s.attackerId)
  }

  function WinnerDisplayName(s: MukjjippaGameState): Option<string>
  {
    PlayerDisplayName(s.winner)
  }

  /** The pending choice of the player with this id; only the two known ids have one. */
  function GetChoiceForPlayer(s: MukjjippaGameState, playerId: string): Option<MukjjippaChoice>
  {
    if playerId == K.USER_JIM_ID then s.jimChoice
    else if playerId == K.USER_GIRLFRIEND_ID then s.hiChoice
    else None
  }

  /** The win count of the player with this id; 0 for an unknown id. */
  function GetScoreForPlayer(s: MukjjippaGameState, playerId: string): int
  {
    if playerId == K.USER_JIM_ID then s.jimScore
    else if playerId == K.USER_GIRLFRIEND_ID then s.hiScore
    else 0
  }

  /** Both players have submitted a choice for the current round. */
  predicate IsChoiceComplete(s: MukjjippaGameState)
    ensures IsChoiceComplete(s) <==>
      GetChoiceForPlayer(s, K.USER_JIM_ID).Some? && GetChoiceForPlayer(s, K.USER_GIRLFRIEND_ID).Some?
  {
    s.jimChoice.Some? && s.hiChoice.Some?
  }

  /** Clears both choices and re-arms the countdown, keeping everything else. */
  function ResetChoices(s: MukjjippaGameState): MukjjippaGameState
  {
    s.(jimChoice := None, hiChoice := None, countdownState := WAITING, currentMessage := "")
  }

  /** `ResetChoices` touches only the two choices, the countdown and the message, and is idempotent. */
  lemma ResetChoicesSpec(s: MukjjippaGameState)
    ensures var r := ResetChoices(s);
      && r.jimChoice.None? && r.hiChoice.None? && r.countdownState == WAITING && r.currentMessage == ""
      && !IsChoiceComplete(r)
      && r.phase == s.phase && r.jimScore == s.jimScore && r.hiScore == s.hiScore
      && r.attackerId == s.attackerId && r.previousAttackerChoice == s.previousAttackerChoice
      && r.winner == s.winner && r.isGameFinished == s.isGameFinished
      && r.bothPlayersReady == s.bothPlayersReady
      && ResetChoices(r) == r
  {
  }

  /** The lookups map the two known ids to their own fields and every other id to nothing. */
  lemma PlayerLookups(s: MukjjippaGameState, id: string)
    ensures GetChoiceForPlayer(s, K.USER_JIM_ID) == s.jimChoice
    ensures GetChoiceForPlayer(s, K.USER_GIRLFRIEND_ID) == s.hiChoice
    ensures GetScoreForPlayer(s, K.USER_JIM_ID) == s.jimScore
    ensures GetScoreForPlayer(s, K.USER_GIRLFRIEND_ID) == s.hiScore
    ensures id != K.USER_JIM_ID && id != K.USER_GIRLFRIEND_ID ==>
      GetChoiceForPlayer(s, id).None? && GetScoreForPlayer(s, id) == 0
  {
  }

  /** A fresh game waits in rock-paper-scissors with nothing chosen and nobody ready. */
  lemma DefaultGameStateSpec()
    ensures DefaultGameState.phase == ROCK_PAPER_SCISSORS && DefaultGameState.countdownState == WAITING
    ensures !IsChoiceComplete(DefaultGameState) && DefaultGameState.jimChoice.None?
    ensures DefaultGameState.attackerId.None? && DefaultGameState.winner.None?
    ensures !DefaultGameState.isGameFinished && !DefaultGameState.bothPlayersReady
    ensures DefaultGameState.jimScore == 0 && DefaultGameState.hiScore == 0
  {
  }
}
