/** Outcomes shared by every component: an optional value, and a value or the reason it was refused. */
module Wrappers {
  datatype Option<+T> = None | Some(value: T)

  datatype Result<+T, +E> = Ok(value: T) | Err(error: E)
}

/** Identities that several stores share. Ids are opaque values. */
module Identities {
  type Text = string

  /** One task of one team of one project. */
  datatype Work = Work(projectId: nat, teamId: nat, taskId: nat)
}
