/** The two kinds of stored document, and passport's `done` outcome shared by both strategies. */
module Records {
  import opened Wrappers

  /** A store-assigned `_id`. */
  type UserId = nat

  /**
   * A user document (the schema in backend/model/user.js). An absent `first_name` or
   * `last_name` is stored as the schema default `null`, here `None`.
   */
  datatype User = User(
    id: UserId,
    firstName: Option<string>,
    lastName: Option<string>,
    email: string,
    password: string)

  /** A short-link document: destination, short code and owning user. */
  datatype ShortLink = ShortLink(originalUrl: string, shortUrl: string, userId: UserId)

  /**
   * What a passport verify callback reports: `done(err)`, `done(null, false, info)`
   * or `done(null, user)`.
   */
  datatype Done = DoneError | DoneFalse(message: Option<string>) | DoneUser(user: User)
}
