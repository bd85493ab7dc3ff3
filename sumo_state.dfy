/** The in-memory state of one sumo-push round: two wrestlers on a line, the left one is player 1. */
module SumoModel {
  import opened Wrappers

  datatype GameStatus = WAITING | PLAYING | PLAYER1_WIN | PLAYER2_WIN

  /** Positions and velocities are the source's `Float`s, taken here as exact reals; times are milliseconds. */
  datatype SumoGameState = SumoGameState(
    player1Position: real,
    player2Position: real,
    player1Velocity: real,
    player2Velocity: real,
    gameStatus: GameStatus,
    lastUpdateTime: int,
    player1Score: int,
    player2Score: int,
    collisionPosition: Option<real>,
    collisionTimestamp: int)

  /** The state built with every constructor argument left at its default. */
  const DefaultSumoGameState: SumoGameState :=
    SumoGameState(-5.0, 5.0, 0.0, 0.0, PLAYING, 0, 0, 0, None, 0)
}
