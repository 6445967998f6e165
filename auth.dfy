/** The session object that the authentication library hands to the server
    code modelled here: the session row's user id and the signed-in user. */
module Auth {
  import opened JsValues

  /** A signed-in user. `image` and `role` may be unset. */
  datatype User = User(id: string, name: string, email: string, image: Option<string>, role: Option<string>)

  /** `session.session.userId` and `session.user`. */
  datatype Session = Session(userId: string, user: User)
}
