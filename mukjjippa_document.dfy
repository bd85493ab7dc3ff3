/** The stored document of a networked mukjjippa game and its mapping to and from the in-memory state. */
module MukjjippaDocument {
  import opened Wrappers
  import opened MukjjippaChoices
  import opened MukjjippaModel

  /** The document as stored: enums are kept as their constant names. */
  datatype MultiplayerMukjjippaData = MultiplayerMukjjippaData(
    gameId: string,
    player1Id: string,
    player2Id: string,
    gameType: string,
    phase: string,
    countdownState: string,
    currentMessage: string,
    jimScore: int,
    hiScore: int,
    jimChoice: Option<string>,
    hiChoice: Option<string>,
    attackerId: Option<string>,
    previousAttackerChoice: Option<string>,
    winner: Option<string>,
    isGameFinished: bool,
    bothPlayersReady: bool,
    lastMovePlayerId: string,
    lastMoveTimestamp: int)

  /** The document a store read produces when no field is present (the no-argument constructor). */
  const EmptyMukjjippaData: MultiplayerMukjjippaData :=
    MultiplayerMukjjippaData("", "", "", "MUKJJIPPA", "ROCK_PAPER_SCISSORS", "WAITING", "", 0, 0,
                             None, None, None, None, None, false, false, "", 0)

  function PhaseName(p: MukjjippaPhase): string
  {
    match p
    case ROCK_PAPER_SCISSORS => "ROCK_PAPER_SCISSORS"
    case MUKJJIPPA => "MUKJJIPPA"
    case GAME_OVER => "GAME_OVER"
  }

  /** `MukjjippaPhase.valueOf`. */
  function PhaseFromName(name: string): (r: Option<MukjjippaPhase>)
    ensures r.Some? ==> PhaseName(r.value) == name
    ensures forall p :: PhaseName(p) == name ==> r == Some(p)
  {
    if name == "ROCK_PAPER_SCISSORS" then Some(ROCK_PAPER_SCISSORS)
    else if name == "MUKJJIPPA" then Some(MUKJJIPPA)
    else if name == "GAME_OVER" then Some(GAME_OVER)
    else None
  }

  function CountdownName(c: CountdownState): string
  {
    match c
    case WAITING => "WAITING"
    case COUNTDOWN_1 => "COUNTDOWN_1"
    case COUNTDOWN_2 => "COUNTDOWN_2"
    case COUNTDOWN_3 => "COUNTDOWN_3"
    case RESULT_WAIT => "RESULT_WAIT"
    case SHOWING_RESULT => "SHOWING_RESULT"
  }

  /** `CountdownState.valueOf`. */
  function CountdownFromName(name: string): (r: Option<CountdownState>)
    ensures r.Some? ==> CountdownName(r.value) == name
    ensures forall c :: CountdownName(c) == name ==> r == Some(c)
  {
    if name == "WAITING" then Some(WAITING)
    else if name == "COUNTDOWN_1" then Some(COUNTDOWN_1)
    else if name == "COUNTDOWN_2" then Some(COUNTDOWN_2)
    else if name == "COUNTDOWN_3" then Some(COUNTDOWN_3)
    else if name == "RESULT_WAIT" then Some(RESULT_WAIT)
    else if name == "SHOWING_RESULT" then Some(SHOWING_RESULT)
    else None
  }

  /** Stores an optional choice by name; absent stays absent. */
  function OptionalChoiceName(c: Option<MukjjippaChoice>): Option<string>
  {
    match c
    case None => None
    case Some(v) => Some(Name(v))
  }

  /** Decodes an optional stored choice: absent stays absent, an unknown name fails (outer `None`). */
  function OptionalChoiceFromName(name: Option<string>): Option<Option<MukjjippaChoice>>
  {
    match name
    case None => Some(None)
    case Some(n) =>
      match ChoiceFromName(n)
      case None => None
      case Some(c) => Some(Some(c))
  }

  /** `toMukjjippaGameState`: fails on any unrecognised enum name, and reports a game in `GAME_OVER` as finished. */
  function ToMukjjippaGameState(d: MultiplayerMukjjippaData): Result<MukjjippaGameState, string>
  {
    match (PhaseFromName(d.phase), CountdownFromName(d.countdownState),
           OptionalChoiceFromName(d.jimChoice), OptionalChoiceFromName(d.hiChoice),
           OptionalChoiceFromName(d.previousAttackerChoice))
    case (Some(phase), Some(countdown), Some(jim), Some(hi), Some(prev)) =>
      Success(MukjjippaGameState(
        phase, countdown, d.currentMessage, d.jimScore, d.hiScore, jim, hi, d.attackerId, prev, d.winner,
        phase == GAME_OVER || d.isGameFinished, d.bothPlayersReady))
    case _ => Failure("No enum constant")
  }

  /** `fromMukjjippaGameState`; `now` is the wall-clock reading stamped on the write. */
  function FromMukjjippaGameState(gameId: string, player1Id: string, player2Id: string, state: MukjjippaGameState,
                                  lastMovePlayerId: string, now: int): MultiplayerMukjjippaData
  {
    MultiplayerMukjjippaData(
      gameId, player1Id, player2Id, "MUKJJIPPA",
      PhaseName(state.phase), CountdownName(state.countdownState), state.currentMessage,
      state.jimScore, state.hiScore,
      OptionalChoiceName(state.jimChoice), OptionalChoiceName(state.hiChoice),
      state.attackerId, OptionalChoiceName(state.previousAttackerChoice), state.winner,
      state.isGameFinished, state.bothPlayersReady, lastMovePlayerId, now)
  }

  /** The state with the finished flag a read reconstructs. */
  function WithGameOverFinished(s: MukjjippaGameState): MukjjippaGameState
  {
    s.(isGameFinished := s.isGameFinished || s.phase == GAME_OVER)
  }

  lemma OptionalChoiceRoundTrip(c: Option<MukjjippaChoice>)
    ensures OptionalChoiceFromName(OptionalChoiceName(c)) == Some(c)
    ensures OptionalChoiceName(c).None? <==> c.None?
  {
    if c.Some? {
      ChoiceNameRoundTrip(c.value);
    }
  }

  /** Reading back a written state gives the state itself, except that a game in `GAME_OVER` reads as finished. */
  lemma DocumentRoundTrip(gameId: string, player1Id: string, player2Id: string, s: MukjjippaGameState,
                          lastMovePlayerId: string, now: int)
    ensures ToMukjjippaGameState(FromMukjjippaGameState(gameId, player1Id, player2Id, s, lastMovePlayerId, now))
            == Success(WithGameOverFinished(s))
  {
    OptionalChoiceRoundTrip(s.jimChoice);
    OptionalChoiceRoundTrip(s.hiChoice);
    OptionalChoiceRoundTrip(s.previousAttackerChoice);
  }

  /** Rewriting a readable document with its own metadata gives it back, normalised: the type tag is
      "MUKJJIPPA" and a game in `GAME_OVER` is marked finished. */
  lemma DocumentReverseRoundTrip(d: MultiplayerMukjjippaData)
    requires ToMukjjippaGameState(d).Success?
    ensures FromMukjjippaGameState(d.gameId, d.player1Id, d.player2Id, ToMukjjippaGameState(d).value,
                                   d.lastMovePlayerId, d.lastMoveTimestamp)
            == d.(gameType := "MUKJJIPPA", isGameFinished := d.isGameFinished || d.phase == "GAME_OVER")
  {
    var s := ToMukjjippaGameState(d).value;
    assert OptionalChoiceName(s.jimChoice) == d.jimChoice by {
      if d.jimChoice.Some? { assert Name(s.jimChoice.value) == d.jimChoice.value; }
    }
    assert OptionalChoiceName(s.hiChoice) == d.hiChoice by {
      if d.hiChoice.Some? { assert Name(s.hiChoice.value) == d.hiChoice.value; }
    }
    assert OptionalChoiceName(s.previousAttackerChoice) == d.previousAttackerChoice by {
      if d.previousAttackerChoice.Some? { assert Name(s.previousAttackerChoice.value) == d.previousAttackerChoice.value; }
    }
  }

  /** A read reports every game in `GAME_OVER` as finished whatever the stored flag, and otherwise copies the flag. */
  lemma DecodeFinishedFlag(d: MultiplayerMukjjippaData)
    requires ToMukjjippaGameState(d).Success?
    ensures var s := ToMukjjippaGameState(d).value;
      && (s.phase == GAME_OVER ==> s.isGameFinished)
      && (s.phase != GAME_OVER ==> s.isGameFinished == d.isGameFinished)
  {
  }

  /** A document whose phase, countdown step or any present choice is not a constant name cannot be read. */
  lemma DecodeRejectsUnknownNames(d: MultiplayerMukjjippaData)
    ensures PhaseFromName(d.phase).None? ==> ToMukjjippaGameState(d).Failure?
    ensures CountdownFromName(d.countdownState).None? ==> ToMukjjippaGameState(d).Failure?
    ensures d.jimChoice.Some? && ChoiceFromName(d.jimChoice.value).None? ==> ToMukjjippaGameState(d).Failure?
    ensures d.hiChoice.Some? && ChoiceFromName(d.hiChoice.value).None? ==> ToMukjjippaGameState(d).Failure?
    ensures d.previousAttackerChoice.Some? && ChoiceFromName(d.previousAttackerChoice.value).None? ==>
      ToMukjjippaGameState(d).Failure?
  {
  }

  /** A write copies the session metadata verbatim, tags the game type, stores enums by name and keeps absent
      choices, attacker and winner absent. */
  lemma EncodeFields(gameId: string, player1Id: string, player2Id: string, s: MukjjippaGameState,
                     lastMovePlayerId: string, now: int)
    ensures var d := FromMukjjippaGameState(gameId, player1Id, player2Id, s, lastMovePlayerId, now);
      && d.gameId == gameId && d.player1Id == player1Id && d.player2Id == player2Id
      && d.lastMovePlayerId == lastMovePlayerId && d.lastMoveTimestamp == now && d.gameType == "MUKJJIPPA"
      && PhaseFromName(d.phase) == Some(s.phase) && CountdownFromName(d.countdownState) == Some(s.countdownState)
      && (d.jimChoice.None? <==> s.jimChoice.None?) && (d.hiChoice.None? <==> s.hiChoice.None?)
      && (d.previousAttackerChoice.None? <==> s.previousAttackerChoice.None?)
      && d.attackerId == s.attackerId && d.winner == s.winner
  {
    OptionalChoiceRoundTrip(s.jimChoice);
    OptionalChoiceRoundTrip(s.hiChoice);
    OptionalChoiceRoundTrip(s.previousAttackerChoice);
  }

  /** The empty document reads as the default game state. */
  lemma EmptyDocumentDecodesToDefault()
    ensures ToMukjjippaGameState(EmptyMukjjippaData) == Success(DefaultGameState)
  {
  }
}
