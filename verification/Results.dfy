/** The option and failure types shared by the models. */
module Results {

  datatype Option<+T> = None | Some(value: T)

  /** Why a service call is refused. A refused call leaves the tables as they were. */
  datatype Refusal =
    | NotFound
    | StateConflict
    | ActionConflict
    | DuplicateId

  datatype Result<+T> = Ok(value: T) | Refused(why: Refusal)
}
