/** The mukjjippa rule engine: round resolution, the countdown announcements, the input gates and restart. */
module MukjjippaRules {
  import opened Wrappers
  import opened MukjjippaChoices
  import opened MukjjippaModel
  import K = MukjjippaConstants

  /** The game exists in two copies that differ only in how a sudden-death tie ends the game. */
  datatype Variant =
    | MultiplayerCopy  // the networked view model: the finishing state also clears choices, countdown and message
    | LocalCopy        // the single-device screen: the finishing state keeps them as they were

  /** The id of the player whose choice beats the other's (Hi when Jim's does not). */
  function RoundWinner(jimChoice: MukjjippaChoice, hiChoice: MukjjippaChoice): string
  {
    if Beats(jimChoice, hiChoice) then K.USER_JIM_ID else K.USER_GIRLFRIEND_ID
  }

  /** The choice of the player named by `RoundWinner`. */
  function WinningChoice(jimChoice: MukjjippaChoice, hiChoice: MukjjippaChoice): MukjjippaChoice
  {
    if Beats(jimChoice, hiChoice) then jimChoice else hiChoice
  }

  /** Re-arms the next sudden-death round with the attacker left as it is, attacking with `choice`. */
  function KeepAttack(s: MukjjippaGameState, choice: MukjjippaChoice): MukjjippaGameState
  {
    s.(previousAttackerChoice := Some(choice), countdownState := WAITING,
       jimChoice := None, hiChoice := None, currentMessage := "", bothPlayersReady := true)
  }

  /** Re-arms the next sudden-death round with `attacker` attacking with `choice`. */
  function NextAttack(s: MukjjippaGameState, attacker: string, choice: MukjjippaChoice): MukjjippaGameState
  {
    KeepAttack(s, choice).(attackerId := Some(attacker))
  }

  /** `processGameResult`: resolves the submitted choices according to the current phase. */
  function ProcessGameResult(s: MukjjippaGameState, variant: Variant): MukjjippaGameState
  {
    if s.jimChoice.None? || s.hiChoice.None? then s
    else
      var jim, hi := s.jimChoice.value, s.hiChoice.value;
      match s.phase
      case ROCK_PAPER_SCISSORS =>
        if jim == hi then ResetChoices(s).(bothPlayersReady := true)
        else if Beats(jim, hi) then NextAttack(s, K.USER_JIM_ID, jim).(phase := MUKJJIPPA)
        else NextAttack(s, K.USER_GIRLFRIEND_ID, hi).(phase := MUKJJIPPA)
      case MUKJJIPPA =>
        if jim == hi then
          var over := s.(phase := GAME_OVER, winner := s.attackerId, isGameFinished := true);
          if variant == MultiplayerCopy then ResetChoices(over) else over
        else if s.attackerId == Some(K.USER_JIM_ID) then
          if Beats(jim, hi) then KeepAttack(s, jim)
          else NextAttack(s, K.USER_GIRLFRIEND_ID, hi)
        else
          // any attacker other than Jim, even none, is treated as Hi and kept when Hi wins
          if Beats(hi, jim) then KeepAttack(s, hi)
          else NextAttack(s, K.USER_JIM_ID, jim)
      case GAME_OVER => s
  }

  /** Resolution does nothing until both players have chosen, and nothing once the game is over. */
  lemma ResolutionIdentity(s: MukjjippaGameState, variant: Variant)
    requires !IsChoiceComplete(s) || s.phase == GAME_OVER
    ensures ProcessGameResult(s, variant) == s
  {
  }

  /** A rock-paper-scissors round: a tie replays it, otherwise the winner becomes the attacker. */
  lemma RockPaperScissorsRound(s: MukjjippaGameState, variant: Variant)
    requires IsChoiceComplete(s) && s.phase == ROCK_PAPER_SCISSORS
    ensures var r := ProcessGameResult(s, variant);
      var jim, hi := s.jimChoice.value, s.hiChoice.value;
      && r.jimChoice.None? && r.hiChoice.None? && r.countdownState == WAITING && r.currentMessage == ""
      && r.bothPlayersReady
      && r.winner == s.winner && r.isGameFinished == s.isGameFinished
      && (jim == hi ==> r == ResetChoices(s).(bothPlayersReady := true) && r.phase == ROCK_PAPER_SCISSORS)
      && (jim != hi ==>
            && r.phase == MUKJJIPPA
            && (Beats(jim, hi) ==> r.attackerId == Some(K.USER_JIM_ID) && r.previousAttackerChoice == Some(jim))
            && (Beats(hi, jim) ==> r.attackerId == Some(K.USER_GIRLFRIEND_ID) && r.previousAttackerChoice == Some(hi)))
  {
    BeatsIsTournament(s.jimChoice.value, s.hiChoice.value);
  }

  /** A sudden-death tie ends the game in the attacker's favour; only the multiplayer copy also clears the round. */
  lemma MukjjippaTie(s: MukjjippaGameState, variant: Variant)
    requires IsChoiceComplete(s) && s.phase == MUKJJIPPA && s.jimChoice == s.hiChoice
    ensures var r := ProcessGameResult(s, variant);
      && r.phase == GAME_OVER && r.winner == s.attackerId && r.isGameFinished
      && r.attackerId == s.attackerId && r.jimScore == s.jimScore && r.hiScore == s.hiScore
      && (variant == MultiplayerCopy ==>
            r.jimChoice.None? && r.hiChoice.None? && r.countdownState == WAITING && r.currentMessage == "")
      && (variant == LocalCopy ==>
            r.jimChoice == s.jimChoice && r.hiChoice == s.hiChoice
            && r.countdownState == s.countdownState && r.currentMessage == s.currentMessage)
  {
  }

  /** A sudden-death round without a tie: whoever's choice wins attacks next with it, whoever attacked before;
      only an attacker that is neither player is left in place when Hi's choice wins. */
  lemma MukjjippaExchange(s: MukjjippaGameState, variant: Variant)
    requires IsChoiceComplete(s) && s.phase == MUKJJIPPA && s.jimChoice != s.hiChoice
    ensures var r := ProcessGameResult(s, variant);
      var jim, hi := s.jimChoice.value, s.hiChoice.value;
      && r.phase == MUKJJIPPA && !IsChoiceComplete(r) && r.countdownState == WAITING && r.bothPlayersReady
      && r.currentMessage == "" && r.winner == s.winner && r.isGameFinished == s.isGameFinished
      && (AttackerKnown(s) || Beats(jim, hi) ==> r.attackerId == Some(RoundWinner(jim, hi)))
      && (!AttackerKnown(s) && Beats(hi, jim) ==> r.attackerId == s.attackerId)
      && r.previousAttackerChoice == Some(WinningChoice(jim, hi))
      && Beats(WinningChoice(jim, hi), if WinningChoice(jim, hi) == jim then hi else jim)
  {
    var jim, hi := s.jimChoice.value, s.hiChoice.value;
    BeatsIsTournament(jim, hi);
  }

  /** The attacker is one of the two players. */
  predicate AttackerKnown(s: MukjjippaGameState)
  {
    s.attackerId == Some(K.USER_JIM_ID) || s.attackerId == Some(K.USER_GIRLFRIEND_ID)
  }

  /** Sudden death is only ever played with one of the two players attacking. */
  predicate AttackerKnownInSuddenDeath(s: MukjjippaGameState)
  {
    s.phase == MUKJJIPPA ==> AttackerKnown(s)
  }

  /** Resolution keeps the attacker of a sudden-death round one of the two players, and a game it ends is won
      by one of them. */
  lemma ResolutionKeepsAttackerKnown(s: MukjjippaGameState, variant: Variant)
    requires AttackerKnownInSuddenDeath(s)
    ensures AttackerKnownInSuddenDeath(ProcessGameResult(s, variant))
    ensures var r := ProcessGameResult(s, variant);
      s.phase != GAME_OVER && r.phase == GAME_OVER ==>
        r.winner == Some(K.USER_JIM_ID) || r.winner == Some(K.USER_GIRLFRIEND_ID)
  {
  }

  /** No resolution step changes either score. */
  lemma ResolutionKeepsScores(s: MukjjippaGameState, variant: Variant)
    ensures ProcessGameResult(s, variant).jimScore == s.jimScore
    ensures ProcessGameResult(s, variant).hiScore == s.hiScore
  {
  }

  /** The two copies agree except where the local one ends the game: there the multiplayer one has also cleared the round. */
  lemma CopiesAgreeOffGameOver(s: MukjjippaGameState)
    ensures var local := ProcessGameResult(s, LocalCopy);
      ProcessGameResult(s, MultiplayerCopy) ==
        if s.phase != GAME_OVER && local.phase == GAME_OVER then ResetChoices(local) else local
    ensures ProcessGameResult(s, LocalCopy).phase != GAME_OVER ==>
      ProcessGameResult(s, MultiplayerCopy) == ProcessGameResult(s, LocalCopy)
  {
  }

  /** A finished game stays consistent: resolution never produces a `GAME_OVER` state that is not finished. */
  ghost predicate FinishedWhenOver(s: MukjjippaGameState)
  {
    s.phase == GAME_OVER ==> s.isGameFinished
  }

  /** Applies one round: both players' choices are submitted, then the round is resolved. */
  function PlayRound(s: MukjjippaGameState, jim: MukjjippaChoice, hi: MukjjippaChoice, variant: Variant): MukjjippaGameState
  {
    ProcessGameResult(s.(jimChoice := Some(jim), hiChoice := Some(hi)), variant)
  }

  /** Plays a sequence of rounds, as the sequencer drives them. */
  function PlayRounds(s: MukjjippaGameState, rounds: seq<(MukjjippaChoice, MukjjippaChoice)>, variant: Variant): MukjjippaGameState
    decreases |rounds|
  {
    if rounds == [] then s
    else PlayRounds(PlayRound(s, rounds[0].0, rounds[0].1, variant), rounds[1..], variant)
  }

  /** Over any number of rounds the scores do not move, a game that is over keeps its winner,
      and every game-over state reached is finished. */
  lemma {:induction false} PlayRoundsInvariant(s: MukjjippaGameState, rounds: seq<(MukjjippaChoice, MukjjippaChoice)>, variant: Variant)
    requires FinishedWhenOver(s)
    ensures var r := PlayRounds(s, rounds, variant);
      && r.jimScore == s.jimScore && r.hiScore == s.hiScore
      && FinishedWhenOver(r)
      && (s.phase == GAME_OVER ==> r.phase == GAME_OVER && r.winner == s.winner)
      && (AttackerKnownInSuddenDeath(s) ==> AttackerKnownInSuddenDeath(r))
    decreases |rounds|
  {
    if rounds != [] {
      var next := PlayRound(s, rounds[0].0, rounds[0].1, variant);
      assert next.jimScore == s.jimScore && next.hiScore == s.hiScore;
      assert FinishedWhenOver(next);
      if AttackerKnownInSuddenDeath(s) {
        ResolutionKeepsAttackerKnown(s.(jimChoice := Some(rounds[0].0), hiChoice := Some(rounds[0].1)), variant);
      }
      assert s.phase == GAME_OVER ==> next.phase == GAME_OVER && next.winner == s.winner;
      PlayRoundsInvariant(next, rounds[1..], variant);
    }
  }

  /** The attacker's call announced in sudden death: the previous attacking choice, rock when there is none. */
  function AttackerCall(s: MukjjippaGameState): (m: string)
    ensures s.previousAttackerChoice.Some? ==> m == CountdownMessage(s.previousAttackerChoice.value)
    ensures s.previousAttackerChoice.None? ==> m == K.MUKJJIPPA_ROCK
  {
    var prev := match s.previousAttackerChoice case Some(c) => c case None => ROCK;
    CountdownMessage(prev)
  }

  /** The three announcements of a countdown begun from `s`. */
  function CountdownMessages(s: MukjjippaGameState): seq<string>
  {
    if s.phase == ROCK_PAPER_SCISSORS then [K.ROCK_PAPER_SCISSORS_1, K.ROCK_PAPER_SCISSORS_2, K.ROCK_PAPER_SCISSORS_3]
    else [AttackerCall(s), AttackerCall(s), ""]
  }

  /** `s` shown at countdown step `c` with message `m`. */
  function At(s: MukjjippaGameState, c: CountdownState, m: string): MukjjippaGameState
  {
    s.(countdownState := c, currentMessage := m)
  }

  /** The states the networked countdown writes, in order, all built from the snapshot `s`. */
  function CountdownWrites(s: MukjjippaGameState): seq<MukjjippaGameState>
  {
    var msgs := CountdownMessages(s);
    [At(s, COUNTDOWN_1, msgs[0]), At(s, COUNTDOWN_1, ""), At(s, COUNTDOWN_2, msgs[1]), At(s, COUNTDOWN_2, "")]
    + (if s.phase == ROCK_PAPER_SCISSORS then [At(s, COUNTDOWN_3, msgs[2]), At(s, COUNTDOWN_3, "")] else [])
    + [At(s, RESULT_WAIT, "")]
  }

  /** The countdown writes 1,1,2,2,3,3,wait in rock-paper-scissors and 1,1,2,2,wait otherwise; each call is
      shown then cleared; and every write differs from the snapshot only in its countdown step and message. */
  lemma CountdownWritesSpec(s: MukjjippaGameState)
    ensures var w := CountdownWrites(s);
      && |w| == (if s.phase == ROCK_PAPER_SCISSORS then 7 else 5)
      && (forall i | 0 <= i < |w| :: w[i] == At(s, w[i].countdownState, w[i].currentMessage))
      && (forall i | 0 <= i < |w| && i % 2 == 1 :: w[i].currentMessage == "")
      && w[|w| - 1].countdownState == RESULT_WAIT && w[|w| - 1].currentMessage == ""
      && w[0].countdownState == COUNTDOWN_1 && w[1].countdownState == COUNTDOWN_1
      && w[2].countdownState == COUNTDOWN_2 && w[3].countdownState == COUNTDOWN_2
      && (s.phase == ROCK_PAPER_SCISSORS ==>
            && w[4].countdownState == COUNTDOWN_3 && w[5].countdownState == COUNTDOWN_3
            && w[0].currentMessage == K.ROCK_PAPER_SCISSORS_1
            && w[2].currentMessage == K.ROCK_PAPER_SCISSORS_2
            && w[4].currentMessage == K.ROCK_PAPER_SCISSORS_3)
      && (s.phase != ROCK_PAPER_SCISSORS ==>
            w[0].currentMessage == AttackerCall(s) && w[2].currentMessage == AttackerCall(s))
  {
  }

  /** One emission of the single-device countdown: the step reached, its message, and the opponent's move if any. */
  datatype CountdownStep = CountdownStep(countdownState: CountdownState, message: string, opponentChoice: Option<MukjjippaChoice>)

  /** The emissions of the single-device countdown: 1, 2, (3,) then the result wait with the device's own choice for Hi. */
  function LocalCountdownSteps(s: MukjjippaGameState, deviceChoice: MukjjippaChoice): seq<CountdownStep>
  {
    var msgs := CountdownMessages(s);
    [CountdownStep(COUNTDOWN_1, msgs[0], None), CountdownStep(COUNTDOWN_2, msgs[1], None)]
    + (if s.phase == ROCK_PAPER_SCISSORS then [CountdownStep(COUNTDOWN_3, msgs[2], None)] else [])
    + [CountdownStep(RESULT_WAIT, "", Some(deviceChoice))]
  }

  /** The single-device countdown steps 1, 2, 3 (rock-paper-scissors only), then waits with a cleared message,
      and only its last step chooses for Hi. */
  lemma LocalCountdownStepsSpec(s: MukjjippaGameState, deviceChoice: MukjjippaChoice)
    ensures var w := LocalCountdownSteps(s, deviceChoice);
      && |w| == (if s.phase == ROCK_PAPER_SCISSORS then 4 else 3)
      && w[0].countdownState == COUNTDOWN_1 && w[1].countdownState == COUNTDOWN_2
      && (s.phase == ROCK_PAPER_SCISSORS ==> w[2].countdownState == COUNTDOWN_3)
      && w[|w| - 1] == CountdownStep(RESULT_WAIT, "", Some(deviceChoice))
      && (forall i | 0 <= i < |w| - 1 :: w[i].opponentChoice.None? && w[i].countdownState != RESULT_WAIT)
  {
  }

  /** The single-device choice buttons: live only on the last call of the countdown. */
  predicate LocalCanInteract(s: MukjjippaGameState)
  {
    if s.countdownState == SHOWING_RESULT then false
    else if s.countdownState == RESULT_WAIT then false
    else if s.phase == ROCK_PAPER_SCISSORS then s.countdownState == COUNTDOWN_3
    else if s.phase == MUKJJIPPA then s.countdownState == COUNTDOWN_2
    else false
  }

  /** The single-device buttons are enabled exactly on rock-paper-scissors step 3 and sudden-death step 2. */
  lemma LocalCanInteractSpec(s: MukjjippaGameState)
    ensures LocalCanInteract(s) <==>
      (s.phase == ROCK_PAPER_SCISSORS && s.countdownState == COUNTDOWN_3)
      || (s.phase == MUKJJIPPA && s.countdownState == COUNTDOWN_2)
    ensures s.countdownState == RESULT_WAIT || s.countdownState == SHOWING_RESULT || s.phase == GAME_OVER ==>
      !LocalCanInteract(s)
  {
  }

  /** The gate of the networked choice buttons, before the readiness check. */
  predicate CanInteract(s: MukjjippaGameState, currentUserId: string)
  {
    if s.countdownState == SHOWING_RESULT then false
    else if GetChoiceForPlayer(s, currentUserId).Some? && s.countdownState == RESULT_WAIT then false
    else if s.phase == ROCK_PAPER_SCISSORS then s.countdownState == COUNTDOWN_3 || s.countdownState == RESULT_WAIT
    else if s.phase == MUKJJIPPA then s.countdownState == COUNTDOWN_2 || s.countdownState == RESULT_WAIT
    else false
  }

  /** The networked choice buttons are offered (not finished) and enabled (both players ready). */
  predicate IsButtonEnabled(s: MukjjippaGameState, currentUserId: string)
  {
    !s.isGameFinished && CanInteract(s, currentUserId) && s.bothPlayersReady
  }

  /** The networked buttons: never while the choices are revealed, never once this player has chosen and the
      result is awaited, never in game-over, never before both players are ready or once the game is finished;
      otherwise on the last call of the countdown or while the result is awaited. */
  lemma IsButtonEnabledSpec(s: MukjjippaGameState, currentUserId: string)
    ensures IsButtonEnabled(s, currentUserId) <==>
      && !s.isGameFinished && s.bothPlayersReady
      && s.countdownState != SHOWING_RESULT
      && !(GetChoiceForPlayer(s, currentUserId).Some? && s.countdownState == RESULT_WAIT)
      && ((s.phase == ROCK_PAPER_SCISSORS && (s.countdownState == COUNTDOWN_3 || s.countdownState == RESULT_WAIT))
          || (s.phase == MUKJJIPPA && (s.countdownState == COUNTDOWN_2 || s.countdownState == RESULT_WAIT)))
    ensures s.phase == GAME_OVER ==> !IsButtonEnabled(s, currentUserId)
  {
  }

  /** The choice shown as this device's own. */
  function MyChoice(s: MukjjippaGameState, currentUserId: string): Option<MukjjippaChoice>
  {
    if currentUserId == K.USER_JIM_ID then s.jimChoice else s.hiChoice
  }

  /** The choice shown as the opponent's. */
  function OpponentChoice(s: MukjjippaGameState, currentUserId: string): Option<MukjjippaChoice>
  {
    if currentUserId == K.USER_JIM_ID then s.hiChoice else s.jimChoice
  }

  /** Jim sees Hi's choice as the opponent's; every other device sees the two swapped; the two views
      always show both choices. */
  lemma RevealedChoices(s: MukjjippaGameState, currentUserId: string)
    ensures currentUserId == K.USER_JIM_ID ==>
      MyChoice(s, currentUserId) == s.jimChoice && OpponentChoice(s, currentUserId) == s.hiChoice
    ensures currentUserId != K.USER_JIM_ID ==>
      MyChoice(s, currentUserId) == s.hiChoice && OpponentChoice(s, currentUserId) == s.jimChoice
    ensures {MyChoice(s, currentUserId), OpponentChoice(s, currentUserId)} == {s.jimChoice, s.hiChoice}
  {
  }

  /** The state a restart writes: a fresh ready game carrying the scores, one more point for the winner. */
  function Restarted(winner: Option<string>, jimScore: int, hiScore: int): MukjjippaGameState
  {
    DefaultGameState.(
      bothPlayersReady := true,
      jimScore := if winner == Some(K.USER_JIM_ID) then jimScore + 1 else jimScore,
      hiScore := if winner == Some(K.USER_GIRLFRIEND_ID) then hiScore + 1 else hiScore)
  }

  /** A restart awards exactly one point to a known winner and none otherwise, and starts a fresh, ready round. */
  lemma RestartedSpec(winner: Option<string>, jimScore: int, hiScore: int)
    ensures var r := Restarted(winner, jimScore, hiScore);
      && r == DefaultGameState.(bothPlayersReady := true, jimScore := r.jimScore, hiScore := r.hiScore)
      && r.jimScore + r.hiScore ==
           jimScore + hiScore + (if winner == Some(K.USER_JIM_ID) || winner == Some(K.USER_GIRLFRIEND_ID) then 1 else 0)
      && r.jimScore >= jimScore && r.hiScore >= hiScore
      && (winner == Some(K.USER_JIM_ID) ==> r.hiScore == hiScore)
      && (winner == Some(K.USER_GIRLFRIEND_ID) ==> r.jimScore == jimScore)
  {
  }
}
