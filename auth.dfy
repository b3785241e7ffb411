/**
 * Bearer-token identity resolution (backend/middleware/auth.js): the JwtStrategy verify
 * callback and the `auth` middleware. Extracting the token from the `Authorization` header
 * and checking its signature are opaque; the expiry check is explicit.
 */
module Auth {
  import opened Wrappers
  import opened Records
  import opened Tokens
  import opened Store
  import opened Http

  const AuthenticationError := "Error occurred while authenticating"
  const InvalidToken := "Invalid Token"

  /** What the bearer extractor found: nothing usable, or a token and whether its signature holds. */
  datatype Bearer = Missing | Presented(payload: Token, signatureValid: bool)

  /** passport-jwt calls the verify callback only for a present, validly signed, unexpired token. */
  predicate Verified(bearer: Bearer, now: nat) {
    bearer.Presented? && bearer.signatureValid && Unexpired(bearer.payload, now)
  }

  /** The JwtStrategy verify callback, given what `User.findOne({ _id: user_id })` resolved to. */
  function JwtVerify(lookup: Result<Option<User>>): (d: Done)
    ensures d.DoneError? <==> lookup.Failed?
    ensures d.DoneUser? <==> lookup.Ok? && lookup.value.Some?
    ensures d.DoneUser? ==> lookup == Ok(Some(d.user))
    ensures d.DoneFalse? ==> d.message == None
  {
    match lookup
    case Failed => DoneError
    case Ok(None) => DoneFalse(None)
    case Ok(Some(user)) => DoneUser(user)
  }

  /** The three ways a protected request can fare. */
  datatype Outcome = ResolverFailure | Unauthorized | Authenticated(user: User)

  /**
   * What `passport.authenticate('jwt')` hands the middleware's callback: a resolver error,
   * no user, or the stored user whose `_id` is the token's `user_id`.
   */
  function Resolve(users: seq<User>, bearer: Bearer, now: nat, lookupFails: bool): (o: Outcome)
    ensures o.ResolverFailure? <==> Verified(bearer, now) && lookupFails
    ensures o.Authenticated? <==>
      Verified(bearer, now) && !lookupFails && exists u :: u in users && u.id == bearer.payload.userId
    ensures o.Authenticated? ==> o.user in users && o.user.id == bearer.payload.userId
  {
    if !Verified(bearer, now) then Unauthorized
    else
      match JwtVerify(LookupUser(users, ById(bearer.payload.userId), lookupFails))
      case DoneError => ResolverFailure
      case DoneFalse(_) => Unauthorized
      case DoneUser(user) => Authenticated(user)
  }

  /**
   * The `auth` middleware: answers 500 or 401, or sets `req.user` and calls `next`, and does
   * exactly one of the two.
   */
  method Authenticate(db: Db, req: Request, res: Response, bearer: Bearer, now: nat, lookupFails: bool)
    requires res.reply.None? && req.nextCalls == 0
    modifies req, res
    ensures res.cookies == old(res.cookies)
    ensures res.reply.Some? <==> req.nextCalls == 0
    ensures req.nextCalls <= 1
    ensures match Resolve(db.users, bearer, now, lookupFails)
      case ResolverFailure =>
        res.reply == Some(Reply(500, ErrorJson(AuthenticationError))) && req.user == old(req.user)
      case Unauthorized =>
        res.reply == Some(Reply(401, MessageJson(InvalidToken))) && req.user == old(req.user)
      case Authenticated(user) =>
        req.user == Some(user) && req.nextCalls == 1
  {
    var thrown: bool;
    match Resolve(db.users, bearer, now, lookupFails)
    case ResolverFailure =>
      thrown := res.Send(Reply(500, ErrorJson(AuthenticationError)));
    case Unauthorized =>
      thrown := res.Send(Reply(401, MessageJson(InvalidToken)));
    case Authenticated(user) =>
      req.user := Some(user);
      req.Next();
  }

  /** Identity comes from `user_id` alone: the `email` claim changes nothing. */
  lemma EmailClaimIgnored(users: seq<User>, t: Token, email: string, signatureValid: bool, now: nat, lookupFails: bool)
    ensures Resolve(users, Presented(t, signatureValid), now, lookupFails)
         == Resolve(users, Presented(t.(email := email), signatureValid), now, lookupFails)
  {
  }

  /** A token whose user is no longer stored is refused, even while it is unexpired. */
  lemma DeletedUserRefused(users: seq<User>, t: Token, now: nat)
    requires forall u :: u in users ==> u.id != t.userId
    ensures Resolve(users, Presented(t, true), now, false) == Unauthorized
  {
  }

  /**
   * A token issued for a stored user resolves to that user for exactly two hours from
   * issuance, whatever email it carries.
   */
  lemma IssuedTokenResolves(users: seq<User>, user: User, email: string, issued: nat, now: nat)
    requires UniqueIds(users) && user in users
    ensures Resolve(users, Presented(Issue(user.id, email, issued), true), now, false)
         == (if now < issued + Lifetime then Authenticated(user) else Unauthorized)
  {
  }
}
