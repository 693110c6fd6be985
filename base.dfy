/** Vocabulary shared by the backend and the front end of the booking system. */
module Base {

  /** A value that may be absent: an omitted request field, a `null` selection. */
  datatype Option<+T> = None | Some(value: T)

  /** Document identities. The store hands them out in increasing order. */
  type Id = nat

  /** The role the authentication layer attaches to every request (`req.user.role`). */
  datatype Role = User | Admin

  /** What an API call made from a page came back with: success, or a failure carrying
      the server's `message` ("" when the response had none). */
  datatype ApiOutcome = Succeeded | Failed(message: string)
}
