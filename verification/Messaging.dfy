/** What a service can see of the broker and of its database: replies and acknowledgements. */
module Messaging {

  /** The answer to a call that leaves the process. A failure that is reported
      although the call took effect is `Ambiguous`; the caller cannot tell it
      from `Failed`. */
  datatype Reply = Ok | Failed | Ambiguous

  /** What a handler returns for a delivery. */
  datatype Ack = Accept | Retry | Park

  /** Where one delivery stands, between the atomic actions of its handler. `Unsure`
      is `Failing` after a publish that took effect, which the handler cannot know.
      `Dead` is a delivery whose attempts ran out. */
  datatype Phase =
    | Waiting
    | Answered
    | Holding
    | Lacking(available: int)
    | Failing
    | Unsure
    | Published
    | Settled(ack: Ack)
    | Dead

  /** One atomic action of a handler: the service's new state, where the
      delivery stands, and what was published. */
  datatype Turn<S, M> = Turn(state: S, phase: Phase, sent: seq<M>)
}
