/** The fixed identities and announcement texts of the mukjjippa game. */
module MukjjippaConstants {

  /** The designated authority ("player1") of a mukjjippa session. */
  const USER_JIM_ID: string := "user_jim"
  const USER_GIRLFRIEND_ID: string := "user_girlfriend"

  const USER_JIM_DISPLAY_NAME: string := "Jim"
  const USER_GIRLFRIEND_DISPLAY_NAME: string := "Hi"

  /** The three calls of the rock-paper-scissors countdown. */
  const ROCK_PAPER_SCISSORS_1: string := "가위"
  const ROCK_PAPER_SCISSORS_2: string := "바위"
  const ROCK_PAPER_SCISSORS_3: string := "보!"

  /** The attacker's call in the sudden-death phase, one per choice. */
  const MUKJJIPPA_ROCK: string := "묵에"
  const MUKJJIPPA_SCISSORS: string := "찌에"
  const MUKJJIPPA_PAPER: string := "빠에"
}
