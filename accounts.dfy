/**
 * Registration and login (backend/app.js; app.js at the repository root repeats the same
 * logic): the LocalStrategy verify callback, session serialisation, and the `/register`
 * and `/login` handlers. bcrypt is opaque: its hash output is an input, and its compare is
 * the function `compare(plaintext, hash)`.
 */
module Accounts {
  import opened Wrappers
  import opened Text
  import opened Records
  import opened Tokens
  import opened Store
  import opened Http

  const AllInputRequired := "All input is required"
  const UserAlreadyExists := "User Already Exist. Please Login"
  /** The strategy's `info.message`. */
  const CredentialsRejected := "Invalid Credentials."
  /** The login route's `error`. */
  const InvalidCredentials := "Invalid Credentials"
  const UserAuthenticated := "User authenticated"
  const JwtCookie := "jwt"

  /**
   * The LocalStrategy verify callback, given what `User.findOne({ email })` resolved to and
   * bcrypt's compare. An unknown email and a wrong password fail alike.
   */
  function LocalVerify(lookup: Result<Option<User>>, password: string, compare: (string, string) -> bool): (d: Done)
    ensures d.DoneError? <==> lookup.Failed?
    ensures d.DoneUser? <==> lookup.Ok? && lookup.value.Some? && compare(password, lookup.value.value.password)
    ensures d.DoneUser? ==> lookup == Ok(Some(d.user))
    ensures d.DoneFalse? ==> d.message == Some(CredentialsRejected)
  {
    match lookup
    case Failed => DoneError
    case Ok(None) => DoneFalse(Some(CredentialsRejected))
    case Ok(Some(user)) =>
      if compare(password, user.password) then DoneUser(user) else DoneFalse(Some(CredentialsRejected))
  }

  /** Unknown email and wrong password are indistinguishable to the caller. */
  lemma UniformCredentialFailure(user: User, password: string, compare: (string, string) -> bool)
    requires !compare(password, user.password)
    ensures LocalVerify(Ok(None), password, compare) == LocalVerify(Ok(Some(user)), password, compare)
  {
  }

  /**
   * `serializeUser`: the session keeps only the user's id, a key under which the
   * deserialiser's `{ _id: id }` filter selects that user.
   */
  function SerializeUser(user: User): (id: UserId)
    ensures UserMatches(user, ById(id))
  {
    user.id
  }

  /** `deserializeUser`: `User.findOne({ _id: id })`, passed on as it resolves. */
  function DeserializeUser(users: seq<User>, id: UserId, fails: bool): (r: Result<Option<User>>)
    ensures r.Failed? <==> fails
    ensures r.Ok? && r.value.Some? ==> r.value.value in users && r.value.value.id == id
    ensures r.Ok? && r.value.None? ==> forall u :: u in users ==> u.id != id
  {
    LookupUser(users, ById(id), fails)
  }

  /** A session restores the very user it was created for, while that user is stored. */
  lemma SessionRoundTrip(users: seq<User>, user: User)
    requires UniqueIds(users) && user in users
    ensures DeserializeUser(users, SerializeUser(user), false) == Ok(Some(user))
  {
  }

  /** Whether `/register` ends up storing a user. */
  predicate RegisterCreates(users: seq<User>, email: Option<string>, password: Option<string>,
                            lookupFails: bool, createFails: bool)
  {
    && email.Some? && password.Some? && !lookupFails && !createFails
    && FindUser(users, ByEmail(email.value)).None?
    && FindUser(users, ByEmail(Lower(email.value))).None?
  }

  /**
   * POST /register. `hashed` is the output of `bcrypt.hash(password, 10)`; `lookupFails` and
   * `createFails` reject the duplicate `findOne` and `User.create`. The handler does not
   * return after the missing-field reply, and its `catch` only logs, so a later store call
   * still runs and a failing one leaves no reply at all.
   */
  method Register(db: Db, res: Response, firstName: Option<string>, lastName: Option<string>,
                  email: Option<string>, password: Option<string>, hashed: string,
                  lookupFails: bool, createFails: bool, now: nat)
    requires db.Valid() && res.reply.None?
    modifies db, res
    ensures db.Valid() && db.links == old(db.links) && res.cookies == old(res.cookies)
    ensures AllEmailsLower(old(db.users)) ==> AllEmailsLower(db.users)
    ensures RegisterCreates(old(db.users), email, password, lookupFails, createFails) ==>
      db.users == old(db.users) + [User(old(db.nextId), firstName, lastName, Lower(email.value), hashed)]
    ensures !RegisterCreates(old(db.users), email, password, lookupFails, createFails) ==>
      db.users == old(db.users)
    ensures !(Provided(email) && Provided(password) && Provided(firstName) && Provided(lastName)) ==>
      res.reply == Some(Reply(400, Text(AllInputRequired)))
    ensures Provided(email) && Provided(password) && Provided(firstName) && Provided(lastName) ==>
      if lookupFails then res.reply == None
      else if FindUser(old(db.users), ByEmail(email.value)).Some? then
        res.reply == Some(Reply(409, Text(UserAlreadyExists)))
      else if RegisterCreates(old(db.users), email, password, lookupFails, createFails) then
        res.reply == Some(Reply(201, UserJson(
          User(old(db.nextId), firstName, lastName, Lower(email.value), hashed),
          Issue(old(db.nextId), email.value, now))))
      else
        res.reply == None
  {
    var thrown: bool;
    if !(Provided(email) && Provided(password) && Provided(firstName) && Provided(lastName)) {
      thrown := res.Send(Reply(400, Text(AllInputRequired)));
    }
    if email.None? {
      // Either the lookup of an undefined email or `email.toLowerCase()` throws before
      // `User.create` runs; the `catch` only logs.
      return;
    }
    if lookupFails {
      return;
    }
    var oldUser := FindUser(db.users, ByEmail(email.value));
    if oldUser.Some? {
      thrown := res.Send(Reply(409, Text(UserAlreadyExists)));
      return;
    }
    if password.None? {
      // bcrypt.hash(undefined, 10) rejects.
      return;
    }
    var created := db.CreateUser(firstName, lastName, Lower(email.value), hashed, createFails);
    if created.None? {
      return;
    }
    LowerIsLower(email.value);
    var token := Issue(created.value.id, email.value, now);
    thrown := res.Send(Reply(201, UserJson(created.value, token)));
  }

  /**
   * POST /login. `email` and `password` are the body fields, `None` when absent;
   * passport-local refuses an absent or empty one itself, before the verify callback and
   * so before any lookup, and the route then answers as for rejected credentials.
   * `lookupFails` rejects the strategy's `findOne`; `sessionFails` makes `req.login`
   * report an error. Every failure answers 400.
   */
  method Login(db: Db, res: Response, email: Option<string>, password: Option<string>,
               compare: (string, string) -> bool, lookupFails: bool, sessionFails: bool, now: nat)
    requires res.reply.None?
    modifies res
    ensures !(Provided(email) && Provided(password)) ==>
      res.reply == Some(Reply(400, ErrorJson(InvalidCredentials))) && res.cookies == old(res.cookies)
    ensures Provided(email) && Provided(password) ==>
      match LocalVerify(LookupUser(db.users, ByEmail(email.value), lookupFails), password.value, compare)
      case DoneError =>
        res.reply == Some(Reply(400, Fault)) && res.cookies == old(res.cookies)
      case DoneFalse(_) =>
        res.reply == Some(Reply(400, ErrorJson(InvalidCredentials))) && res.cookies == old(res.cookies)
      case DoneUser(user) =>
        if sessionFails then
          res.reply == Some(Reply(400, Fault)) && res.cookies == old(res.cookies)
        else
          var token := Issue(user.id, user.email, now);
          res.cookies == old(res.cookies)[JwtCookie := token] &&
          res.reply == Some(Reply(200, TokenJson(UserAuthenticated, token)))
  {
    var thrown: bool;
    if !(Provided(email) && Provided(password)) {
      thrown := res.Send(Reply(400, ErrorJson(InvalidCredentials)));
      return;
    }
    var verdict := LocalVerify(LookupUser(db.users, ByEmail(email.value), lookupFails), password.value, compare);
    match verdict
    case DoneError =>
      thrown := res.Send(Reply(400, Fault));
    case DoneFalse(_) =>
      thrown := res.Send(Reply(400, ErrorJson(InvalidCredentials)));
    case DoneUser(user) =>
      if sessionFails {
        thrown := res.Send(Reply(400, Fault));
        return;
      }
      var token := Issue(user.id, user.email, now);
      thrown := res.SetCookie(JwtCookie, token);
      thrown := res.Send(Reply(200, TokenJson(UserAuthenticated, token)));
  }

  /** Stored emails are lower case, so a mixed-case address never hits the 409 check. */
  lemma MixedCaseMissesDuplicate(users: seq<User>, email: string)
    requires AllEmailsLower(users) && !IsLower(email)
    ensures FindUser(users, ByEmail(email)).None?
  {
  }

  /** ... and the same mixed-case address can never log in. */
  lemma MixedCaseCannotLogIn(users: seq<User>, email: string, password: string, compare: (string, string) -> bool)
    requires AllEmailsLower(users) && !IsLower(email)
    ensures LocalVerify(LookupUser(users, ByEmail(email), false), password, compare) == DoneFalse(Some(CredentialsRejected))
  {
  }

  /**
   * A user just stored by `/register` logs in with the lower-case email and the password
   * whose hash was stored, provided bcrypt's compare accepts that pair.
   */
  lemma RegisteredUserCanLogIn(users: seq<User>, user: User, password: string, compare: (string, string) -> bool)
    requires UniqueEmails(users + [user]) && compare(password, user.password)
    ensures LocalVerify(LookupUser(users + [user], ByEmail(user.email), false), password, compare) == DoneUser(user)
  {
    LookupByUniqueEmail(users + [user], user);
  }
}
