/**
 * Identities handed to the core by the authentication layer. Token parsing is
 * not modelled: a request carries `Option<User>`, `None` meaning "no
 * authenticated user".
 */
module Auth {

  import opened Wrappers

  /** Positive auto-increment primary keys. */
  type Id = x: int | x >= 1 witness 1

  /** The four roles a user can register with. */
  datatype Role = Admin | Moderator | Worker | Customer

  datatype User = User(id: Id, role: Role, email: string)

  /** A worker profile already resolved for the acting user, with the ids of the services it offers. */
  datatype WorkerProfile = WorkerProfile(id: Id, services: set<Id>)

  /**
   * PHP truthiness of an optional request string: null, "" and "0" are falsy.
   */
  predicate Truthy(s: Option<string>)
  {
    s.Some? && s.value != "" && s.value != "0"
  }
}
