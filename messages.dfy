/**
 * The values the server stores and sends: poll metadata, the two live
 * notifications, what goes over the pub/sub channel, and the handlers'
 * error outcomes.  JSON encoding is not modelled; these are the decoded
 * shapes.
 */
module Messages {
  import opened Tally
  import opened Aggregate

  datatype PollStatus = Active | Closed

  /** The JSON stored under `poll:<id>:meta`. */
  datatype Poll = Poll(question: string, options: seq<OptionName>, status: PollStatus, createdAt: int)

  /** `metadata` of a VOTE_EVENT: the stream entry's id and the send time. */
  datatype Metadata = Metadata(id: nat, timestamp: int)

  /** A notification for the viewers of one poll. */
  datatype Message =
    | VoteEvent(metadata: Metadata, payload: VotePayload, totalVotes: nat, votes: Snapshot)
    | ResultsReleased(votes: Snapshot)

  /** One message on the `poll-updates` channel: `{pollId, data}`. */
  datatype Publication = Publication(pollId: PollId, data: Message)

  /** A WebSocket's `readyState`. */
  datatype ReadyState = Connecting | Open | Closing | Closed

  /**
   * The handlers' error outcomes: 404 "Not found", 403 "Poll closed", and
   * a handler whose Redis call rejected, which sends no reply.  What the
   * unhandled rejection does to the process after that is not modelled.
   */
  datatype ApiError = NotFound | PollClosed | Unanswered

  /** The reply to a poll read: the metadata, its snapshot and the total. */
  datatype PollView = PollView(poll: Poll, votes: Snapshot, totalVotes: nat)
}
