/** A game invitation as stored under both the sender's and the addressee's request lists. */
module GameRequests {
  import opened Wrappers

  /** The two minigames a request can be for. */
  datatype GameType = SUMO | MUKJJIPPA

  datatype GameRequestStatus = PENDING | ACCEPTED | REJECTED

  datatype GameRequest = GameRequest(
    requestId: string,
    fromUserId: string,
    toUserId: string,
    gameType: GameType,
    status: GameRequestStatus,
    timestamp: int,
    gameId: Option<string>)

  /** The request built with every field at its default (also what the no-argument constructor builds). */
  const DefaultGameRequest: GameRequest := GameRequest("", "", "", SUMO, PENDING, 0, None)
}
