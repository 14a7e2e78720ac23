/**
 * Shared vocabulary of the client-side state layer: the outcome of an awaited
 * remote call, optional values (JavaScript's null/undefined), the entities the
 * stores hold, and a log of the remote calls a store issues.
 */
module Common {

  /** The outcome of one awaited call to the remote interview service. */
  datatype Result<T> = Ok(value: T) | Err

  /** A value that may be absent (`null` or `undefined` in the source). */
  datatype Option<T> = None | Some(value: T)

  /**
   * An interview definition as the server returns it. `createdDate` is the
   * creation timestamp in milliseconds; `None` is a missing date.
   */
  datatype Interview = Interview(
    id: int,
    uuid: string,
    title: string,
    objective: string,
    status: string,
    createdDate: Option<int>)

  /** One candidate session (a "user interview") against an interview. */
  datatype UserInterview = UserInterview(uuid: string, interviewUuid: string)

  /** A transcript entry `{ role, message }` of a planning or candidate session. */
  datatype ChatMessage = ChatMessage(role: string, message: string)

  const HumanRole: string := "human"

  /** The message a store appends when the user sends `text`. */
  function HumanMessage(text: string): ChatMessage
  {
    ChatMessage(HumanRole, text)
  }

  /**
   * The remote operations a store can issue, with the arguments that reach
   * the service. A store's ghost call log records them in order. The
   * creation request carries no arguments: the service drops the name the
   * store passes it.
   */
  datatype RemoteCall =
    | GetAllInterviews
    | GetInterviewByUuid(interviewId: Option<string>)
    | AddInterview
    | GetPlannerMessages(interviewId: Option<string>)
    | SendPlannerMessage(interviewId: Option<string>, text: string)
    | UpdateInterview(interviewId: Option<string>, title: string)
    | GetUserInterviewByUuid(userInterviewUuid: string)
    | GetUserInterviewMessages(userInterviewUuid: string)
    | SendUserInterviewMessage(userInterviewUuid: string, text: string)
    | GetAllUserInterviewsByUuid(interviewUuid: string)
}
