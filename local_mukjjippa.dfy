/** The single-device mukjjippa screen: the player is Jim and the device plays Hi. */
module LocalMukjjippa {
  import opened Wrappers
  import opened MukjjippaChoices
  import opened MukjjippaModel
  import opened MukjjippaRules

  /** Shows countdown step `step` on top of `base`. */
  function ApplyStep(base: MukjjippaGameState, step: CountdownStep): MukjjippaGameState
  {
    base.(countdownState := step.countdownState, currentMessage := step.message,
          hiChoice := if step.opponentChoice.Some? then step.opponentChoice else base.hiChoice)
  }

  /** The emission as the screen's countdown makes it: built from the state captured when the countdown began,
      whatever the screen shows now. */
  function EmissionAsWritten(snapshot: MukjjippaGameState, current: MukjjippaGameState, step: CountdownStep): MukjjippaGameState
  {
    ApplyStep(snapshot, step)
  }

  /** As written, the player's tap is erased: the result-wait emission carries the snapshot's empty choice for
      Jim, so the round never becomes complete and the buttons stay disabled. */
  lemma TapDuringCountdownIsLost(s0: MukjjippaGameState, deviceChoice: MukjjippaChoice, tap: MukjjippaChoice)
    requires s0.phase == ROCK_PAPER_SCISSORS && s0.countdownState == WAITING && s0.jimChoice.None?
    ensures var steps := LocalCountdownSteps(s0, deviceChoice);
      var e1 := EmissionAsWritten(s0, s0, steps[0]);
      var e2 := EmissionAsWritten(s0, e1, steps[1]);
      var e3 := EmissionAsWritten(s0, e2, steps[2]);
      var tapped := e3.(jimChoice := Some(tap));
      var last := EmissionAsWritten(s0, tapped, steps[3]);
      && LocalCanInteract(e3)
      && last.countdownState == RESULT_WAIT
      && last.jimChoice.None? && !IsChoiceComplete(last)
      && !LocalCanInteract(last)
  {
  }

  /** A concrete instance: a fresh ready game, the device picks paper, the player taps rock on "보!". */
  lemma TapDuringCountdownIsLostExample()
    ensures var s0 := DefaultGameState.(bothPlayersReady := true);
      var steps := LocalCountdownSteps(s0, PAPER);
      var tapped := ApplyStep(ApplyStep(ApplyStep(s0, steps[0]), steps[1]), steps[2]).(jimChoice := Some(ROCK));
      && EmissionAsWritten(s0, tapped, steps[3]).jimChoice.None?
      && ApplyStep(tapped, steps[3]).jimChoice == Some(ROCK)
      && IsChoiceComplete(ApplyStep(tapped, steps[3]))
  {
    TapDuringCountdownIsLost(DefaultGameState.(bothPlayersReady := true), PAPER, ROCK);
  }

  /** Applying a step to the current state keeps the player's choice, and only the last step chooses for Hi. */
  lemma ApplyStepKeepsTap(current: MukjjippaGameState, step: CountdownStep)
    ensures ApplyStep(current, step).jimChoice == current.jimChoice
    ensures step.opponentChoice.Some? ==> ApplyStep(current, step).hiChoice == step.opponentChoice
    ensures step.opponentChoice.None? ==> ApplyStep(current, step).hiChoice == current.hiChoice
    ensures ApplyStep(current, step) == current.(countdownState := step.countdownState,
              currentMessage := step.message, hiChoice := ApplyStep(current, step).hiChoice)
  {
  }

  /** With emissions applied to the current state, a tap on the live call completes the round:
      rock-paper-scissors taps on step 3, sudden death on step 2. */
  lemma CorrectedRoundCompletes(s0: MukjjippaGameState, deviceChoice: MukjjippaChoice, tap: MukjjippaChoice)
    requires s0.countdownState == WAITING && s0.phase != GAME_OVER
    ensures var steps := LocalCountdownSteps(s0, deviceChoice);
      var e1 := ApplyStep(s0, steps[0]);
      var e2 := ApplyStep(e1, steps[1]);
      var live := if s0.phase == ROCK_PAPER_SCISSORS then ApplyStep(e2, steps[2]) else e2;
      var tapped := live.(jimChoice := Some(tap));
      var last := ApplyStep(tapped, steps[|steps| - 1]);
      && LocalCanInteract(live)
      && last.countdownState == RESULT_WAIT && last.currentMessage == ""
      && IsChoiceComplete(last) && last.jimChoice == Some(tap) && last.hiChoice == Some(deviceChoice)
  {
    LocalCountdownStepsSpec(s0, deviceChoice);
  }

  /** Whether a `LaunchedEffect` keyed on `key` runs: on first composition (`lastKey` is None) and again only
      when its key has changed since it last ran. */
  function EffectRuns(lastKey: Option<bool>, key: bool): bool
  {
    lastKey != Some(key)
  }

  /** The countdown effect's guard: a ready game waiting for its countdown. */
  predicate CountdownStarts(s: MukjjippaGameState)
  {
    s.bothPlayersReady && s.countdownState == WAITING
  }

  /** No state change the screen makes ever clears `bothPlayersReady`, the countdown effect's key: neither an
      emission, nor a resolution, nor a restart. */
  lemma LocalChangesKeepReady(s: MukjjippaGameState, snapshot: MukjjippaGameState, step: CountdownStep,
                              tap: MukjjippaChoice, winner: Option<string>, jimScore: int, hiScore: int)
    requires s.bothPlayersReady && snapshot.bothPlayersReady
    ensures ApplyStep(s, step).bothPlayersReady
    ensures EmissionAsWritten(snapshot, s, step).bothPlayersReady
    ensures s.(jimChoice := Some(tap)).bothPlayersReady
    ensures ProcessGameResult(s.(countdownState := SHOWING_RESULT), LocalCopy).bothPlayersReady
    ensures Restarted(winner, jimScore, hiScore).bothPlayersReady
  {
  }

  /** As written, the countdown effect is keyed on `bothPlayersReady`, which stays true: once a round resolves
      without ending the game, the next round waits for a countdown, the effect does not run again, and the
      buttons stay off for good. Shown with emissions on the current state, where a round can complete. */
  lemma {:induction false} NextCountdownNeverStarts(s0: MukjjippaGameState, deviceChoice: MukjjippaChoice, tap: MukjjippaChoice)
    requires s0.phase == ROCK_PAPER_SCISSORS && CountdownStarts(s0) && !s0.isGameFinished
    ensures var steps := LocalCountdownSteps(s0, deviceChoice);
      var live := ApplyStep(ApplyStep(ApplyStep(s0, steps[0]), steps[1]), steps[2]);
      var last := ApplyStep(live.(jimChoice := Some(tap)), steps[3]);
      var r := ProcessGameResult(last.(countdownState := SHOWING_RESULT), LocalCopy);
      && r.phase != GAME_OVER && !r.isGameFinished
      && CountdownStarts(r)
      && !EffectRuns(Some(s0.bothPlayersReady), r.bothPlayersReady)
      && !LocalCanInteract(r)
  {
    CorrectedRoundCompletes(s0, deviceChoice, tap);
    var steps := LocalCountdownSteps(s0, deviceChoice);
    var live := ApplyStep(ApplyStep(ApplyStep(s0, steps[0]), steps[1]), steps[2]);
    var last := ApplyStep(live.(jimChoice := Some(tap)), steps[3]);
    assert last.phase == ROCK_PAPER_SCISSORS && last.bothPlayersReady;
    RockPaperScissorsRound(last.(countdownState := SHOWING_RESULT), LocalCopy);
  }

  /** The countdowns the intended effect launches: a new one whenever none is running and the game is ready
      and waiting. */
  function IntendedCountdownLaunch(s: MukjjippaGameState, running: bool, deviceChoice: MukjjippaChoice): seq<CountdownStep>
  {
    if !running && CountdownStarts(s) then LocalCountdownSteps(s, deviceChoice) else []
  }

  /** With the intended effect, every resolution of a ready game either ends it (the restart button shows) or
      launches the next countdown at once. */
  lemma IntendedEffectStartsNextRound(s: MukjjippaGameState, deviceChoice: MukjjippaChoice)
    requires IsChoiceComplete(s) && s.countdownState == RESULT_WAIT && s.phase != GAME_OVER && s.bothPlayersReady
    ensures var r := ProcessGameResult(s.(countdownState := SHOWING_RESULT), LocalCopy);
      && (r.phase == GAME_OVER ==> r.isGameFinished)
      && (r.phase != GAME_OVER ==>
            && IntendedCountdownLaunch(r, false, deviceChoice) == LocalCountdownSteps(r, deviceChoice)
            && |IntendedCountdownLaunch(r, false, deviceChoice)| >= 3
            && IntendedCountdownLaunch(r, false, deviceChoice)[0].countdownState == COUNTDOWN_1)
  {
    var r := ProcessGameResult(s.(countdownState := SHOWING_RESULT), LocalCopy);
    if r.phase != GAME_OVER {
      LocalCountdownStepsSpec(r, deviceChoice);
    }
  }

  class LocalMukjjippaGame {
    /** What the screen shows. */
    var state: MukjjippaGameState
    /** The emissions the running countdown still has to make. */
    var pendingSteps: seq<CountdownStep>
    /** The state the running countdown captured when it was launched; every emission is built from it. */
    var countdownSnapshot: MukjjippaGameState
    /** The `bothPlayersReady` value the countdown effect last ran with; None before the first composition. */
    var countdownKey: Option<bool>

    constructor()
      ensures state == DefaultGameState.(bothPlayersReady := true) && pendingSteps == []
      ensures countdownSnapshot == state && countdownKey.None?
    {
      state := DefaultGameState.(bothPlayersReady := true);
      pendingSteps := [];
      countdownSnapshot := DefaultGameState.(bothPlayersReady := true);
      countdownKey := None;
    }

    /** The countdown effect, keyed on `bothPlayersReady`: it runs on first composition and again only when that
        key changes, cancelling the countdown it launched before; on a ready, waiting game it captures the state
        and starts the countdown, `deviceChoice` being the device's random pick for Hi. */
    method CountdownEffect(deviceChoice: MukjjippaChoice)
      modifies this`pendingSteps, this`countdownSnapshot, this`countdownKey
      ensures !EffectRuns(old(countdownKey), state.bothPlayersReady) ==>
        pendingSteps == old(pendingSteps) && countdownSnapshot == old(countdownSnapshot) && countdownKey == old(countdownKey)
      ensures EffectRuns(old(countdownKey), state.bothPlayersReady) ==> countdownKey == Some(state.bothPlayersReady)
      ensures EffectRuns(old(countdownKey), state.bothPlayersReady) && CountdownStarts(state) ==>
        pendingSteps == LocalCountdownSteps(state, deviceChoice) && countdownSnapshot == state
      ensures EffectRuns(old(countdownKey), state.bothPlayersReady) && !CountdownStarts(state) ==>
        pendingSteps == [] && countdownSnapshot == old(countdownSnapshot)
    {
      if EffectRuns(countdownKey, state.bothPlayersReady) {
        countdownKey := Some(state.bothPlayersReady);
        pendingSteps := [];
        if CountdownStarts(state) {
          countdownSnapshot := state;
          pendingSteps := LocalCountdownSteps(state, deviceChoice);
        }
      }
    }

    /** The countdown makes its next emission: the launch snapshot at the next step, whatever the screen shows. */
    method EmitNextStep()
      modifies this`state, this`pendingSteps
      ensures old(pendingSteps) == [] ==> state == old(state) && pendingSteps == []
      ensures old(pendingSteps) != [] ==>
        state == EmissionAsWritten(countdownSnapshot, old(state), old(pendingSteps)[0])
        && pendingSteps == old(pendingSteps)[1..]
      ensures old(pendingSteps) != [] ==> state.jimChoice == countdownSnapshot.jimChoice
    {
      if pendingSteps != [] {
        state := EmissionAsWritten(countdownSnapshot, state, pendingSteps[0]);
        pendingSteps := pendingSteps[1..];
      }
    }

    /** A tap on a choice button: honoured only while the buttons are shown and enabled, outside the result wait. */
    method Tap(choice: MukjjippaChoice)
      modifies this`state
      ensures !old(state).isGameFinished && LocalCanInteract(old(state)) ==>
        state == old(state).(jimChoice := Some(choice))
      ensures old(state).isGameFinished || !LocalCanInteract(old(state)) ==> state == old(state)
    {
      if !state.isGameFinished && LocalCanInteract(state) {
        if state.countdownState != RESULT_WAIT {
          state := state.(jimChoice := Some(choice));
        }
      }
    }

    /** The result effect: once both choices are in during the result wait, reveal them, then resolve the round. */
    method ShowAndResolve()
      modifies this`state
      ensures IsChoiceComplete(old(state)) && old(state).countdownState == RESULT_WAIT ==>
        state == ProcessGameResult(old(state).(countdownState := SHOWING_RESULT), LocalCopy)
      ensures !(IsChoiceComplete(old(state)) && old(state).countdownState == RESULT_WAIT) ==> state == old(state)
    {
      if IsChoiceComplete(state) && state.countdownState == RESULT_WAIT {
        state := state.(countdownState := SHOWING_RESULT);
        var result := ProcessGameResult(state, LocalCopy);
        state := result;
      }
    }

    /** The restart button, shown once the game is finished: a fresh ready game, one more point for the winner. */
    method Restart()
      modifies this`state
      ensures old(state).isGameFinished ==>
        state == Restarted(old(state).winner, old(state).jimScore, old(state).hiScore)
      ensures !old(state).isGameFinished ==> state == old(state)
    {
      if state.isGameFinished {
        state := Restarted(state.winner, state.jimScore, state.hiScore);
      }
    }
  }
}
