# hi_jim: mukjjippa and sumo-push core, modelled in Dafny

hi_jim is a two-player watch game between "user_jim" (Jim) and "user_girlfriend" (Hi). It has two minigames.

- **Mukjjippa** starts with a rock-paper-scissors throw. The winner of the throw becomes the attacker. In sudden
  death a tie ends the game in the attacker's favour, and otherwise whoever's shape wins attacks next.
- **Sumo push** puts two wrestlers on a line. Each press steps the presser towards the opponent. An overlap shoves
  the two apart. Whoever is shoved past the boundary loses the round.

Networked sessions keep one document per game in a realtime database. Invitations are filed under both the sender
and the addressee.

This project models the following:

- The mukjjippa rule engine: `MukjjippaChoices`, `MukjjippaModel` and `MukjjippaRules`. The resolution exists in
  two copies, networked and single-device. They are modelled once, with a `Variant` for the one branch where they
  differ.
- The networked mukjjippa view model: `MukjjippaViewModel`, a class. Its timed jobs are a queue of pending writes
  and a result-job value. Its store writes are an ordered log.
- The single-device mukjjippa screen: `LocalMukjjippa`, a class over the screen's game state. The class follows the
  code as written, including its countdown effect key and its emissions from the launch snapshot. The corrected
  behaviour of both is stated beside it as functions and lemmas (see "## Findings").
- The sumo physics engine: `SumoModel` and `SumoPhysicsEngine`. Positions are reals.
- The mapping between states and stored documents: `MukjjippaDocument` and `SumoDocument`.
- The sumo view model: `SumoViewModel`.
- The request protocol of the repository: `GameRequests` and `GameRepository`. Its two trees are maps keyed by
  path, updated in place.

Clock readings, generated store keys and the device's random pick are parameters.

## Model

| member | source | states |
|---|---|---|
| MukjjippaChoices.CountdownMessage | hi_jim_android/shared/src/commonMain/kotlin/com/jim/hi_jim/shared/model/MukjjippaChoice.kt:8-14 | the attacker's call is one of the three sudden-death calls and is never empty |
| MukjjippaChoices.ChoiceFromName | hi_jim_android/shared/src/commonMain/kotlin/com/jim/hi_jim/shared/model/MultiplayerMukjjippaData.kt:35-38 | `valueOf` for choices: a found constant has exactly the given name, and every constant's own name finds that constant |
| MukjjippaChoices.BeatsIsTournament | hi_jim_android/shared/src/commonMain/kotlin/com/jim/hi_jim/shared/model/MukjjippaChoice.kt:16-22 | no shape beats itself; of two different shapes exactly one beats the other |
| MukjjippaChoices.BeatsExactlyOne | hi_jim_android/shared/src/commonMain/kotlin/com/jim/hi_jim/shared/model/MukjjippaChoice.kt:16-22 | each shape beats exactly one shape and is beaten by exactly one |
| MukjjippaChoices.BeatsIsCyclic | hi_jim_android/shared/src/commonMain/kotlin/com/jim/hi_jim/shared/model/MukjjippaChoice.kt:18-20 | rock beats scissors, scissors beats paper, paper beats rock, so the relation is not transitive |
| MukjjippaChoices.CountdownMessageInjective | hi_jim_android/shared/src/commonMain/kotlin/com/jim/hi_jim/shared/model/MukjjippaChoice.kt:8-14 | different shapes have different calls, and the calls are the three sudden-death message constants |
| MukjjippaChoices.ChoiceNameRoundTrip | hi_jim_android/shared/src/commonMain/kotlin/com/jim/hi_jim/shared/model/MultiplayerMukjjippaData.kt:35-38 | reading a stored choice name gives back the choice |
| MukjjippaModel.PlayerDisplayName | hi_jim_android/shared/src/commonMain/kotlin/com/jim/hi_jim/shared/model/MukjjippaGameState.kt:32-46 | "user_jim" shows as "Jim", "user_girlfriend" as "Hi", and any other id or none shows nothing |
| MukjjippaModel.IsChoiceComplete | hi_jim_android/shared/src/commonMain/kotlin/com/jim/hi_jim/shared/model/MukjjippaGameState.kt:48-50 | true exactly when both players' choices are present |
| MukjjippaModel.ResetChoicesSpec | hi_jim_android/shared/src/commonMain/kotlin/com/jim/hi_jim/shared/model/MukjjippaGameState.kt:52-59 | clears both choices, re-arms WAITING with an empty message, keeps every other field, is idempotent and leaves the round incomplete |
| MukjjippaModel.PlayerLookups | hi_jim_android/shared/src/commonMain/kotlin/com/jim/hi_jim/shared/model/MukjjippaGameState.kt:61-75 | the two known ids map to their own choice and score; any other id has no choice and score 0 |
| MukjjippaModel.DefaultGameStateSpec | hi_jim_android/shared/src/commonMain/kotlin/com/jim/hi_jim/shared/model/MukjjippaGameState.kt:18-31 | a fresh game is rock-paper-scissors, WAITING, scoreless, with no choices, attacker or winner, not finished and not ready |
| MukjjippaRules.ResolutionIdentity | hi_jim_android/app/src/main/java/com/jim/hi_jim/presentation/viewmodel/mukjjippa/MultiplayerMukjjippaViewModel.kt:170-285 | resolution returns the state unchanged while a choice is missing or once the phase is GAME_OVER |
| MukjjippaRules.RockPaperScissorsRound | hi_jim_android/app/src/main/java/com/jim/hi_jim/presentation/viewmodel/mukjjippa/MultiplayerMukjjippaViewModel.kt:179-212 | a tie replays rock-paper-scissors with cleared choices; otherwise sudden death starts with the winner of the throw as attacker and their shape as the call |
| MukjjippaRules.MukjjippaTie | hi_jim_android/app/src/main/java/com/jim/hi_jim/presentation/viewmodel/mukjjippa/MultiplayerMukjjippaViewModel.kt:216-228 | a sudden-death tie ends the game with the attacker as winner; the networked copy also clears choices, countdown and message, the local copy keeps them |
| MukjjippaRules.MukjjippaExchange | hi_jim_android/app/src/main/java/com/jim/hi_jim/presentation/viewmodel/mukjjippa/MultiplayerMukjjippaViewModel.kt:229-278 | without a tie the round re-arms with the winning shape as the attack; the winner attacks next whenever the attacker was one of the two players or Jim wins, and an attacker that is neither player is left in place when Hi wins |
| MukjjippaRules.ResolutionKeepsAttackerKnown | hi_jim_android/app/src/main/java/com/jim/hi_jim/presentation/viewmodel/mukjjippa/MultiplayerMukjjippaViewModel.kt:179-278 | resolution never lets sudden death run with an attacker other than the two players, and a game it ends is won by one of them |
| MukjjippaRules.ResolutionKeepsScores | hi_jim_android/app/src/main/java/com/jim/hi_jim/presentation/viewmodel/mukjjippa/MultiplayerMukjjippaViewModel.kt:178-281 | no resolution changes either score |
| MukjjippaRules.CopiesAgreeOffGameOver | hi_jim_android/app/src/main/java/com/jim/hi_jim/presentation/ui/mukjjippa/LocalMukjjippaGameScreen.kt:321-424 | the local and networked resolutions agree on every input except a game-ending tie, where they differ only by the cleared round |
| MukjjippaRules.PlayRoundsInvariant | hi_jim_android/app/src/main/java/com/jim/hi_jim/presentation/viewmodel/mukjjippa/MultiplayerMukjjippaViewModel.kt:170-285 | over any sequence of rounds the scores stay, a finished game keeps its winner, every GAME_OVER state reached is finished, and a known sudden-death attacker stays known |
| MukjjippaRules.AttackerCall | hi_jim_android/app/src/main/java/com/jim/hi_jim/presentation/viewmodel/mukjjippa/MultiplayerMukjjippaViewModel.kt:112-118 | the sudden-death call is the previous attacker's shape, rock when there is none |
| MukjjippaRules.CountdownWritesSpec | hi_jim_android/app/src/main/java/com/jim/hi_jim/presentation/viewmodel/mukjjippa/MultiplayerMukjjippaViewModel.kt:104-168 | the networked countdown writes 1,1,2,2,3,3,wait (rock-paper-scissors) or 1,1,2,2,wait, each call shown then cleared, each write differing from the snapshot only in step and message |
| MukjjippaRules.LocalCountdownStepsSpec | hi_jim_android/app/src/main/java/com/jim/hi_jim/presentation/ui/mukjjippa/LocalMukjjippaGameScreen.kt:267-315 | the local countdown emits 1, 2, 3 (rock-paper-scissors only), then the result wait with an empty message, and only that last emission chooses for Hi |
| MukjjippaRules.LocalCanInteractSpec | hi_jim_android/app/src/main/java/com/jim/hi_jim/presentation/ui/mukjjippa/LocalMukjjippaGameScreen.kt:175-193 | local buttons are enabled exactly on rock-paper-scissors step 3 and sudden-death step 2, never while waiting for or showing the result |
| MukjjippaRules.IsButtonEnabledSpec | hi_jim_android/app/src/main/java/com/jim/hi_jim/presentation/ui/mukjjippa/MultiplayerMukjjippaGameScreen.kt:205-235 | networked buttons: off while revealing, off once this player chose and the result is awaited, off in GAME_OVER, when finished or before both are ready; otherwise on the live call or the result wait |
| MukjjippaRules.RevealedChoices | hi_jim_android/app/src/main/java/com/jim/hi_jim/presentation/ui/mukjjippa/MultiplayerMukjjippaGameScreen.kt:156-165 | Jim sees Hi's choice as the opponent's; every other id sees the two swapped |
| MukjjippaRules.RestartedSpec | hi_jim_android/app/src/main/java/com/jim/hi_jim/presentation/viewmodel/mukjjippa/MultiplayerMukjjippaViewModel.kt:322-336 | a restart starts a fresh ready game, one more point for a known winner and none otherwise |
| MukjjippaDocument.PhaseFromName | hi_jim_android/shared/src/commonMain/kotlin/com/jim/hi_jim/shared/model/MultiplayerMukjjippaData.kt:28 | `valueOf` for phases: exactly the constant with that name |
| MukjjippaDocument.CountdownFromName | hi_jim_android/shared/src/commonMain/kotlin/com/jim/hi_jim/shared/model/MultiplayerMukjjippaData.kt:31 | `valueOf` for countdown steps: exactly the constant with that name |
| MukjjippaDocument.OptionalChoiceRoundTrip | hi_jim_android/shared/src/commonMain/kotlin/com/jim/hi_jim/shared/model/MultiplayerMukjjippaData.kt:35-38 | an absent choice stays absent and a present one reads back as itself |
| MukjjippaDocument.DocumentRoundTrip | hi_jim_android/shared/src/commonMain/kotlin/com/jim/hi_jim/shared/model/MultiplayerMukjjippaData.kt:27-74 | reading a written state gives the state back, except that GAME_OVER reads as finished |
| MukjjippaDocument.DocumentReverseRoundTrip | hi_jim_android/shared/src/commonMain/kotlin/com/jim/hi_jim/shared/model/MultiplayerMukjjippaData.kt:27-74 | rewriting a readable document with its own metadata gives it back, tagged "MUKJJIPPA" and finished when in GAME_OVER |
| MukjjippaDocument.DecodeFinishedFlag | hi_jim_android/shared/src/commonMain/kotlin/com/jim/hi_jim/shared/model/MultiplayerMukjjippaData.kt:41 | a read reports GAME_OVER as finished whatever the stored flag, and otherwise copies the flag |
| MukjjippaDocument.DecodeRejectsUnknownNames | hi_jim_android/shared/src/commonMain/kotlin/com/jim/hi_jim/shared/model/MultiplayerMukjjippaData.kt:28-38 | an unknown phase, countdown or choice name makes the read fail |
| MukjjippaDocument.EncodeFields | hi_jim_android/shared/src/commonMain/kotlin/com/jim/hi_jim/shared/model/MultiplayerMukjjippaData.kt:48-74 | a write copies ids and presser verbatim, tags "MUKJJIPPA", stores enums by name, keeps absent fields absent and stamps the clock |
| MukjjippaDocument.EmptyDocumentDecodesToDefault | hi_jim_android/shared/src/commonMain/kotlin/com/jim/hi_jim/shared/model/MultiplayerMukjjippaData.kt:24 | the no-argument document reads as the default game state |
| MukjjippaViewModel.GameLogicGuards | hi_jim_android/app/src/main/java/com/jim/hi_jim/presentation/viewmodel/mukjjippa/MultiplayerMukjjippaViewModel.kt:40-102 | a finished game only cancels; only Jim schedules; a running job is never restarted; a job is scheduled exactly when its trigger holds and none runs |
| MukjjippaViewModel.ChoiceUpdateSpec | hi_jim_android/app/src/main/java/com/jim/hi_jim/presentation/viewmodel/mukjjippa/MultiplayerMukjjippaViewModel.kt:287-320 | a choice is refused exactly when finished, revealing, or already chosen during the result wait; an accepted one changes only this player's field |
| MukjjippaViewModel.EnabledButtonsAreAccepted | hi_jim_android/app/src/main/java/com/jim/hi_jim/presentation/ui/mukjjippa/MultiplayerMukjjippaGameScreen.kt:213-235 | whenever the screen enables the buttons for a known player, the view model accepts the tap |
| MukjjippaViewModel.MultiplayerMukjjippaViewModel.constructor | hi_jim_android/app/src/main/java/com/jim/hi_jim/presentation/viewmodel/mukjjippa/MultiplayerMukjjippaViewModel.kt:12-23 | no document yet, no jobs, nothing written |
| MukjjippaViewModel.MultiplayerMukjjippaViewModel.UpdateGameState | hi_jim_android/app/src/main/java/com/jim/hi_jim/presentation/viewmodel/mukjjippa/MultiplayerMukjjippaViewModel.kt:342-359 | appends the state's document under this game id, the stored players and this user; nothing before the first document |
| MukjjippaViewModel.MultiplayerMukjjippaViewModel.ProcessGameLogic | hi_jim_android/app/src/main/java/com/jim/hi_jim/presentation/viewmodel/mukjjippa/MultiplayerMukjjippaViewModel.kt:40-102 | the new jobs are the guard decisions on the decoded document; nothing is written |
| MukjjippaViewModel.MultiplayerMukjjippaViewModel.OnSnapshot | hi_jim_android/app/src/main/java/com/jim/hi_jim/presentation/viewmodel/mukjjippa/MultiplayerMukjjippaViewModel.kt:29-38 | stores the delivered document and runs the guards on it |
| MukjjippaViewModel.MultiplayerMukjjippaViewModel.StepCountdown | hi_jim_android/app/src/main/java/com/jim/hi_jim/presentation/viewmodel/mukjjippa/MultiplayerMukjjippaViewModel.kt:104-168 | the countdown's next write goes out, in order, and is the snapshot at some step |
| MukjjippaViewModel.MultiplayerMukjjippaViewModel.RunResultJob | hi_jim_android/app/src/main/java/com/jim/hi_jim/presentation/viewmodel/mukjjippa/MultiplayerMukjjippaViewModel.kt:71-100 | the reveal job writes the snapshot as SHOWING_RESULT; the resolve job resolves the latest document only if it still reveals and is not finished |
| MukjjippaViewModel.MultiplayerMukjjippaViewModel.ProcessGameResultAndWrite | hi_jim_android/app/src/main/java/com/jim/hi_jim/presentation/viewmodel/mukjjippa/MultiplayerMukjjippaViewModel.kt:170-285 | writes the resolved state of a complete round, nothing otherwise |
| MukjjippaViewModel.MultiplayerMukjjippaViewModel.MakeChoice | hi_jim_android/app/src/main/java/com/jim/hi_jim/presentation/viewmodel/mukjjippa/MultiplayerMukjjippaViewModel.kt:287-320 | writes the accepted choice update and nothing when it is refused or there is no readable document |
| MukjjippaViewModel.MultiplayerMukjjippaViewModel.RestartGame | hi_jim_android/app/src/main/java/com/jim/hi_jim/presentation/viewmodel/mukjjippa/MultiplayerMukjjippaViewModel.kt:322-336 | writes the restarted game built from the stored winner and scores |
| LocalMukjjippa.TapDuringCountdownIsLost | hi_jim_android/app/src/main/java/com/jim/hi_jim/presentation/ui/mukjjippa/LocalMukjjippaGameScreen.kt:286-314 | as written, a tap on the live call is erased by the result-wait emission, so the round never completes and the buttons stay off |
| LocalMukjjippa.TapDuringCountdownIsLostExample | hi_jim_android/app/src/main/java/com/jim/hi_jim/presentation/ui/mukjjippa/LocalMukjjippaGameScreen.kt:302-314 | the concrete case: a fresh ready game, the device picks paper, Jim taps rock on the third call |
| LocalMukjjippa.ApplyStepKeepsTap | hi_jim_android/app/src/main/java/com/jim/hi_jim/presentation/ui/mukjjippa/LocalMukjjippaGameScreen.kt:286-314 | an emission applied to the current state keeps Jim's choice and sets Hi's only on the last step |
| LocalMukjjippa.CorrectedRoundCompletes | hi_jim_android/app/src/main/java/com/jim/hi_jim/presentation/ui/mukjjippa/LocalMukjjippaGameScreen.kt:175-193 | with emissions applied to the current state, a tap on the live call completes the round at the result wait |
| LocalMukjjippa.LocalChangesKeepReady | hi_jim_android/app/src/main/java/com/jim/hi_jim/presentation/ui/mukjjippa/LocalMukjjippaGameScreen.kt:23-113 | no emission, tap, resolution or restart of the screen clears `bothPlayersReady`, the countdown effect's key |
| LocalMukjjippa.NextCountdownNeverStarts | hi_jim_android/app/src/main/java/com/jim/hi_jim/presentation/ui/mukjjippa/LocalMukjjippaGameScreen.kt:25-31 | as written, a resolved round that does not end the game waits for a countdown, the keyed effect does not run again and the buttons stay off |
| LocalMukjjippa.IntendedEffectStartsNextRound | hi_jim_android/app/src/main/java/com/jim/hi_jim/presentation/ui/mukjjippa/LocalMukjjippaGameScreen.kt:25-31 | with an effect that starts whenever the game is ready and waiting, every resolution either ends the game or launches the next countdown |
| LocalMukjjippa.LocalMukjjippaGame.constructor | hi_jim_android/app/src/main/java/com/jim/hi_jim/presentation/ui/mukjjippa/LocalMukjjippaGameScreen.kt:23-31 | the screen starts with a fresh game that is ready, no countdown running and the countdown effect not yet run |
| LocalMukjjippa.LocalMukjjippaGame.CountdownEffect | hi_jim_android/app/src/main/java/com/jim/hi_jim/presentation/ui/mukjjippa/LocalMukjjippaGameScreen.kt:25-31 | the effect runs only on first composition or when `bothPlayersReady` changes, cancelling the previous countdown; when it runs on a ready, waiting game it captures that state and starts the countdown emissions |
| LocalMukjjippa.LocalMukjjippaGame.EmitNextStep | hi_jim_android/app/src/main/java/com/jim/hi_jim/presentation/ui/mukjjippa/LocalMukjjippaGameScreen.kt:286-314 | the next emission, in order, is the captured launch state at that step, so Jim's choice is reset to the captured one |
| LocalMukjjippa.LocalMukjjippaGame.Tap | hi_jim_android/app/src/main/java/com/jim/hi_jim/presentation/ui/mukjjippa/LocalMukjjippaGameScreen.kt:199-233 | a tap sets only Jim's choice, and only while the buttons are shown and enabled |
| LocalMukjjippa.LocalMukjjippaGame.ShowAndResolve | hi_jim_android/app/src/main/java/com/jim/hi_jim/presentation/ui/mukjjippa/LocalMukjjippaGameScreen.kt:33-43 | once both have chosen during the result wait, the choices are revealed and the round resolved by the local rules |
| LocalMukjjippa.LocalMukjjippaGame.Restart | hi_jim_android/app/src/main/java/com/jim/hi_jim/presentation/ui/mukjjippa/LocalMukjjippaGameScreen.kt:103-113 | a finished game restarts fresh and ready, one more point for the winner |
| SumoPhysicsEngine.Step | hi_jim_android/app/src/main/java/com/jim/hi_jim/presentation/engine/sumo/SumoPhysicsEngine.kt:30-43 | "player1" moves right by one step, anyone else moves player 2 left, and the other does not move |
| SumoPhysicsEngine.CheckCollisionAndPush | hi_jim_android/app/src/main/java/com/jim/hi_jim/presentation/engine/sumo/SumoPhysicsEngine.kt:86-122 | a collision happens exactly when the centres are closer than two radii; then the midpoint is recorded, both are pushed apart to two radii plus the push force, the pushed one by the push force more |
| SumoPhysicsEngine.CheckWinCondition | hi_jim_android/app/src/main/java/com/jim/hi_jim/presentation/engine/sumo/SumoPhysicsEngine.kt:125-133 | player 1 past the left boundary loses first, else player 2 past the right boundary loses, else play goes on |
| SumoPhysicsEngine.ResetRound | hi_jim_android/app/src/main/java/com/jim/hi_jim/presentation/engine/sumo/SumoPhysicsEngine.kt:138-143 | wrestlers at -5/+5, in play, no collision, scores kept |
| SumoPhysicsEngine.ResetGame | hi_jim_android/app/src/main/java/com/jim/hi_jim/presentation/engine/sumo/SumoPhysicsEngine.kt:148-150 | the default state is the reset round with both scores 0 |
| SumoPhysicsEngine.ProcessMoveIgnoredWhenNotPlaying | hi_jim_android/app/src/main/java/com/jim/hi_jim/presentation/engine/sumo/SumoPhysicsEngine.kt:26-28 | a press outside play changes nothing |
| SumoPhysicsEngine.ProcessMoveGeometry | hi_jim_android/app/src/main/java/com/jim/hi_jim/presentation/engine/sumo/SumoPhysicsEngine.kt:20-73 | the presser advances at most one step, the other is never pulled closer, and the two end at least two radii apart (exactly 6.5 after a collision) |
| SumoPhysicsEngine.ProcessMoveBookkeeping | hi_jim_android/app/src/main/java/com/jim/hi_jim/presentation/engine/sumo/SumoPhysicsEngine.kt:53-72 | the status is the win check on the resolved positions, only the winner scores, by one; velocities 0, times stamped |
| SumoPhysicsEngine.PlayMovesScoreOnce | hi_jim_android/app/src/main/java/com/jim/hi_jim/presentation/engine/sumo/SumoPhysicsEngine.kt:20-73 | over any run of presses a round awards at most one point, to its winner, and a decided round stays as it is |
| SumoPhysicsEngine.ResetsStartPlay | hi_jim_android/app/src/main/java/com/jim/hi_jim/presentation/engine/sumo/SumoPhysicsEngine.kt:138-150 | both resets start a round in play, and a round reset is the game reset with the scores carried over |
| SumoDocument.StatusFromName | hi_jim_android/shared/src/commonMain/kotlin/com/jim/hi_jim/shared/model/MultiplayerGameData.kt:27 | `valueOf` for the game status: exactly the constant with that name |
| SumoDocument.SumoDocumentRoundTrip | hi_jim_android/shared/src/commonMain/kotlin/com/jim/hi_jim/shared/model/MultiplayerGameData.kt:21-59 | reading a written state gives it back with both velocities 0 |
| SumoDocument.SumoDocumentReverseRoundTrip | hi_jim_android/shared/src/commonMain/kotlin/com/jim/hi_jim/shared/model/MultiplayerGameData.kt:21-59 | rewriting a readable document with its own metadata gives exactly the document |
| SumoDocument.DecodeFields | hi_jim_android/shared/src/commonMain/kotlin/com/jim/hi_jim/shared/model/MultiplayerGameData.kt:21-34 | a read fails exactly on an unknown status, reports zero velocities and takes the update time from the last move time |
| SumoDocument.EncodeFields | hi_jim_android/shared/src/commonMain/kotlin/com/jim/hi_jim/shared/model/MultiplayerGameData.kt:38-59 | a write copies ids and presser verbatim, stores the status by name and the update time as the last move time |
| SumoDocument.DefaultDocumentDecodes | hi_jim_android/shared/src/commonMain/kotlin/com/jim/hi_jim/shared/model/MultiplayerGameData.kt:3-18 | the default document is at -5/+5, "PLAYING", scoreless, without a collision, and reads as the default state |
| GameRepository.NewRequest | hi_jim_android/app/src/main/java/com/jim/hi_jim/data/repository/FirebaseGameRepository.kt:26-32 | a sent request is pending, from the sender to the addressee, under the generated id, stamped with the clock |
| GameRepository.NewGame | hi_jim_android/app/src/main/java/com/jim/hi_jim/data/repository/FirebaseGameRepository.kt:200-207 | a created game is a default sumo document between the two players under the new id |
| GameRepository.ObserveGameRequests | hi_jim_android/app/src/main/java/com/jim/hi_jim/data/repository/FirebaseGameRepository.kt:57-66 | the listing holds exactly the pending records addressed to the user |
| GameRepository.OnlyAddresseeListsRequest | hi_jim_android/app/src/main/java/com/jim/hi_jim/data/repository/FirebaseGameRepository.kt:60-64 | a pending request is listed for its addressee and nobody else; an accepted one is listed for nobody |
| GameRepository.PairWriteKeepsMirror | hi_jim_android/app/src/main/java/com/jim/hi_jim/data/repository/FirebaseGameRepository.kt:34-46 | writing one record under both participants keeps every request mirrored under both |
| GameRepository.SendKeepsMirror | hi_jim_android/app/src/main/java/com/jim/hi_jim/data/repository/FirebaseGameRepository.kt:22-54 | a send files the identical pending record under both participants, touches nothing else and keeps the mirror |
| GameRepository.AcceptKeepsMirror | hi_jim_android/app/src/main/java/com/jim/hi_jim/data/repository/FirebaseGameRepository.kt:88-116 | an accept by the addressee gives both copies the same accepted record with the new game id, other fields kept, nothing else touched |
| GameRepository.RemoveKeepsMirror | hi_jim_android/app/src/main/java/com/jim/hi_jim/data/repository/FirebaseGameRepository.kt:120-148 | a reject or cancel removes exactly that request's paths and keeps the mirror |
| GameRepository.SendThenAccept | hi_jim_android/app/src/main/java/com/jim/hi_jim/data/repository/FirebaseGameRepository.kt:22-116 | a send followed by the addressee's accept leaves both participants holding the same accepted record |
| GameRepository.FirebaseGameRepository.constructor | hi_jim_android/app/src/main/java/com/jim/hi_jim/data/repository/FirebaseGameRepository.kt:11-15 | both trees start empty |
| GameRepository.FirebaseGameRepository.SendGameRequest | hi_jim_android/app/src/main/java/com/jim/hi_jim/data/repository/FirebaseGameRepository.kt:22-54 | without a key it fails and writes nothing; otherwise it files the request under both users and returns the key |
| GameRepository.FirebaseGameRepository.CreateGame | hi_jim_android/app/src/main/java/com/jim/hi_jim/data/repository/FirebaseGameRepository.kt:200-213 | without a key it fails; otherwise it stores a default sumo game under the key |
| GameRepository.FirebaseGameRepository.RespondToGameRequest | hi_jim_android/app/src/main/java/com/jim/hi_jim/data/repository/FirebaseGameRepository.kt:82-154 | an accept of a missing request fails with nothing written; an accept creates the game and marks both copies; a reject removes the request wherever filed, or changes nothing |
| GameRepository.FirebaseGameRepository.UpdateGameState | hi_jim_android/app/src/main/java/com/jim/hi_jim/data/repository/FirebaseGameRepository.kt:216-224 | replaces the whole document at its own game id |
| GameRepository.FirebaseGameRepository.EndGame | hi_jim_android/app/src/main/java/com/jim/hi_jim/data/repository/FirebaseGameRepository.kt:248-256 | removes that game's document only |
| SumoViewModel.PlayerRole | hi_jim_android/app/src/main/java/com/jim/hi_jim/presentation/viewmodel/sumo/MultiplayerGameViewModel.kt:42 | the role is "player1" exactly for the game's player 1, else "player2" |
| SumoViewModel.MoveDocumentSpec | hi_jim_android/app/src/main/java/com/jim/hi_jim/presentation/viewmodel/sumo/MultiplayerGameViewModel.kt:34-60 | a press writes the engine's move of the stored state, under the view model's game id, the stored players and the presser; it fails exactly on an unreadable status |
| SumoViewModel.MoveAfterRoundEndsOnlyRestamps | hi_jim_android/app/src/main/java/com/jim/hi_jim/presentation/viewmodel/sumo/MultiplayerGameViewModel.kt:34-60 | after a decided round a press only re-stamps the document with the game id and presser |
| SumoViewModel.MoveDocumentGeometry | hi_jim_android/app/src/main/java/com/jim/hi_jim/presentation/viewmodel/sumo/MultiplayerGameViewModel.kt:34-60 | in play, the presser advances at most one step, the other is never pulled closer, and the written wrestlers stand at least two radii apart |
| SumoViewModel.NextRoundDocumentSpec | hi_jim_android/app/src/main/java/com/jim/hi_jim/presentation/viewmodel/sumo/MultiplayerGameViewModel.kt:63-82 | the next round is written at the marks, in play, with the stored scores and no presser |
| SumoViewModel.MultiplayerGameViewModel.constructor | hi_jim_android/app/src/main/java/com/jim/hi_jim/presentation/viewmodel/sumo/MultiplayerGameViewModel.kt:12-27 | no document until the listener delivers one |
| SumoViewModel.MultiplayerGameViewModel.OnSnapshot | hi_jim_android/app/src/main/java/com/jim/hi_jim/presentation/viewmodel/sumo/MultiplayerGameViewModel.kt:21-27 | the latest delivered document is kept |
| SumoViewModel.MultiplayerGameViewModel.PlayerMove | hi_jim_android/app/src/main/java/com/jim/hi_jim/presentation/viewmodel/sumo/MultiplayerGameViewModel.kt:34-60 | writes the moved document, or nothing without a readable document |
| SumoViewModel.MultiplayerGameViewModel.NextRound | hi_jim_android/app/src/main/java/com/jim/hi_jim/presentation/viewmodel/sumo/MultiplayerGameViewModel.kt:63-82 | writes the next-round document, or nothing without a document |
| SumoViewModel.MultiplayerGameViewModel.QuitGame | hi_jim_android/app/src/main/java/com/jim/hi_jim/presentation/viewmodel/sumo/MultiplayerGameViewModel.kt:85-87 | removes this game's document |

## Left out

- Compose layout, drawing, animation and the lobby, menu and theme screens: UI with no contract beyond the button predicates modelled above.
- Push notifications (Cloud Functions, FCM service and token manager): messaging I/O against external services.
- Lobby view models: Flow wiring whose only decisions are single assignments. They also call repository methods that `FirebaseGameRepository.kt` does not define.
- The mukjjippa persistence calls `observeMukjjippaGameState`, `updateMukjjippaGameState` and `endMukjjippaGame`: the repository shown does not define them. The networked mukjjippa view model's store is an append-only log of written documents, and its `quitGame` is not modelled.
- Firebase listeners (`observeGameRequests` registration, `observeRequestStatus`, `observeSentRequest`, `observeGameState`): only the request filter and the delivered snapshots are modelled, as a pure function and as `OnSnapshot` methods.
- Network, permission and partial dual-write failures: every store write is modelled as succeeding as a whole. Only a missing generated key is a failure.
- Order of the children under a user's request path: the listing is over a sequence in snapshot order, and the store itself is a map.
- `delay` durations and coroutine cancellation: a job is a pending value, cancelling it clears it, and the caller chooses when a job fires.
- LocalMukjjippa.LocalMukjjippaGame.ShowAndResolve: the result effect is keyed on `isChoiceComplete()`, but it is offered as a step that can fire whenever its guard holds. The countdown effect is modelled with its key.
- Kotlin `Float` rounding in the sumo engine: positions are exact reals. The unused constants IMPULSE, FRICTION, MIN_VELOCITY and COLLISION_ENERGY_TRANSFER have no counterpart.
- Kotlin `Int` and `Long` overflow of scores and timestamps: modelled as unbounded integers.
- `generateRandomChoice` and `System.currentTimeMillis`: arbitrary parameters (`deviceChoice`, `now`).
- Logging.
- MukjjippaViewModel.MultiplayerMukjjippaViewModel.ProcessGameLogic: an unreadable document leaves the jobs untouched, where the source's `valueOf` throws inside the listener.
- MukjjippaViewModel.MultiplayerMukjjippaViewModel.MakeChoice: an unreadable document is a no-op, where the source throws.
- SumoViewModel.MultiplayerGameViewModel.PlayerMove: an unreadable status is a no-op, where the source throws inside the coroutine.
- GameRepository.FirebaseGameRepository.RespondToGameRequest: an accept always creates a sumo game document, whatever the request's game type, because the code does so. Mukjjippa game creation is not part of this model.
- SumoViewModel.MultiplayerGameViewModel.constructor: the current user id is a parameter. `UserConstants` of the presentation layer is not part of this model.
- The sumo view model imports the engine from the shared module. That engine is not part of this model, so the application module's `SumoPhysicsEngine.kt` is modelled in its place.
- `GameType.kt` is not part of this model. Its two constants SUMO and MUKJJIPPA are taken from the comments and uses in `GameRequest.kt` and `MultiplayerMukjjippaData.kt`.
- MukjjippaChoices.DisplayName, MukjjippaModel.AttackerDisplayName, MukjjippaModel.WinnerDisplayName: display lookups without a contract of their own. Their behaviour is stated once, by `PlayerDisplayName`.

## Findings

| source | as written | input that shows it | evidently intended | confidence | as-written member | corrected member |
|---|---|---|---|---|---|---|
| hi_jim_android/app/src/main/java/com/jim/hi_jim/presentation/ui/mukjjippa/LocalMukjjippaGameScreen.kt:286-314 | every countdown emission is a copy of the state captured when the countdown began, so the result-wait emission resets Jim's choice to that snapshot's empty choice | a fresh ready game; the device picks PAPER; Jim taps ROCK while "보!" (step 3) is shown; the result-wait emission then has no choice for Jim, the round never completes, and the buttons stay disabled | each emission updates only the step, the message and (at the end) Hi's choice of the current state, so the tap survives and the round resolves | not executed | LocalMukjjippa.TapDuringCountdownIsLost | LocalMukjjippa.CorrectedRoundCompletes |
| hi_jim_android/app/src/main/java/com/jim/hi_jim/presentation/ui/mukjjippa/LocalMukjjippaGameScreen.kt:25-31 | the countdown effect is keyed on `bothPlayersReady`, which the screen sets true at the start and never changes (every resolution and the restart keep it true), so only the first countdown is ever launched | once a round completes (for example with the emissions corrected as above: rock-paper-scissors, Jim ROCK, the device PAPER), the game re-arms at WAITING, the effect does not run again, and no button is ever enabled | a new countdown starts whenever the game is ready and waiting and none is running | not executed | LocalMukjjippa.NextCountdownNeverStarts | LocalMukjjippa.IntendedEffectStartsNextRound |
