/** What both inbox executors share (modules/inbox/execution_support.py). */
module InboxSupport {
  import opened Prelude
  import opened ExecutionPolicy
  import opened Inbox

  /** How an engine call came back. An unanswered call may or may not have taken effect. */
  datatype Reply = Answered | Refused(status: nat) | Unreachable

  /** `engine_errors`: a request the engine refuses will be refused again; an engine that is down is retried. */
  function EngineFailure(reply: Reply): Outcome {
    if reply.Refused? && reply.status in {400, 422} then Permanent(ENGINE_REJECTED) else Transient(ENGINE_UNAVAILABLE)
  }

  /** What `engine_for` returns or raises. */
  datatype Session = Ready | Unconfigured | WrongOrg

  function SessionFailure(session: Session): Outcome
    requires !session.Ready?
  {
    if session.WrongOrg? then Waiting(ENGINE_ORG_MISMATCH) else Waiting(ENGINE_UNCONFIGURED)
  }

  /** A tenant's active engine placement for one legal entity. */
  datatype Placement = Placement(client: nat, instance: Option<string>)

  type Placements = map<(string, string), Placement>

  /** The session-level advisory locks; a worker's are gone with its connection. */
  type Locks<K> = map<K, Worker>

  function Released<K>(locks: Locks<K>, worker: Worker): Locks<K> {
    map key | key in locks && locks[key] != worker :: locks[key]
  }

  const UNEXPECTED: Outcome := Transient(UNEXPECTED_ERROR)
}
