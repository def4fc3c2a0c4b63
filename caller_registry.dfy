/**
 * The data shapes of the call-legitimacy vote register's remote interface.
 * Only the interface is part of this model; the register's behaviour is not.
 */
module CallerRegistry {
  import opened Wrappers

  /** One ballot: two independent flags, any combination allowed. */
  datatype Vote = Vote(legitimate: bool, fraudulent: bool)

  /** What `getVotes` answers: an optional sequence of votes. */
  type VotesAnswer = Option<seq<Vote>>
}
