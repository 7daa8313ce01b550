/** The record types of the chat: roles, paths, messages and sessions. */
module ChatTypes {

  /** The usual optional value; `None` stands for the source's `null` and `undefined`. */
  datatype Option<+T> = None | Some(value: T)

  /** Who wrote a message: exactly the bot or the user. */
  datatype Role = Bot | User

  /** The conversation branch of a session. `NoPath` stands for both `null` and an
      absent `path` field: the engine only ever compares a path with the two names. */
  datatype Path = NoPath | Feeling | Goal

  /** A clock reading in milliseconds, as `Date.now()` returns it. */
  type Timestamp = nat

  datatype Message = Message(id: string, role: Role, content: string, timestamp: Timestamp)

  /** A session holds its messages in chronological order. `currentStep` is optional
      in the record type; the engine reads an absent step as 0. */
  datatype Session = Session(
    id: string,
    title: string,
    messages: seq<Message>,
    createdAt: Timestamp,
    updatedAt: Timestamp,
    path: Path,
    currentStep: Option<nat>)

  /** The step the engine works with: an absent step reads as 0. */
  function StepOf(s: Session): (k: nat)
    ensures s.currentStep.None? ==> k == 0
    ensures s.currentStep.Some? ==> k == s.currentStep.value
  {
    match s.currentStep
    case None => 0
    case Some(k) => k
  }
}
