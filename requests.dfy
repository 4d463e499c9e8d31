/** The shape of an API request and of its outcome: who is asking, with which HTTP
    method, with which payload values, and the error kinds a request can end in. */
module Requests {

  /** Identifiers of rows (users, boards, tasks, comments). */
  type Id = int

  datatype Option<T> = None | Some(value: T) {
    function GetOr(default: T): T {
      match this
      case Some(v) => v
      case None => default
    }
  }

  /** A key of a JSON payload: missing, explicitly null, or carrying a value. */
  datatype Field<T> = Absent | Null | Given(value: T)

  /** Python truthiness of an integer id read from a JSON payload: a missing key,
      null and 0 are all false. */
  predicate Truthy(f: Field<Id>) {
    f.Given? && f.value != 0
  }

  datatype Method = GET | HEAD | OPTIONS | POST | PUT | PATCH | DELETE

  /** The requesting user as the authentication layer delivers it. */
  datatype Principal = Anonymous | Authenticated(id: Id)

  /** Which check refused a payload. Only the kind and the reported ids are
      modelled, not the message text. */
  datatype Reason =
    | FieldErrors                              // a field-level check: required, null, choice, unknown key
    | UnknownUsers                             // some member id has no User
    | MembersLinkedToTasks(blocked: set<Id>)   // members that may not be removed
    | BoardRequired
    | BoardChangeForbidden
    | ActorNotMember
    | AssigneeNotMember
    | ReviewerNotMember

  datatype Error =
    | Unauthenticated
    | Forbidden
    | NotFound
    | MethodNotAllowed
    | ValidationFailed(reason: Reason)
    | IntegrityError                           // the database refused a foreign key

  datatype Result<T> = Ok(value: T) | Err(error: Error)
}
