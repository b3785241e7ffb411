/**
 * Client code driving the handlers in sequence, as requests reach the service one after
 * another. Each method starts from an empty store and shows what the handlers'
 * specifications let a caller conclude.
 */
module Scenarios {
  import opened Wrappers
  import opened Text
  import opened Records
  import opened Tokens
  import opened Store
  import opened Http
  import Urls
  import Accounts
  import Auth

  /**
   * Registering with complete fields and a lower-case email, then logging in with the same
   * credentials, yields a token that the `auth` middleware accepts for two hours.
   */
  method RegisterThenLogin(firstName: string, lastName: string, email: string, password: string,
                           compare: (string, string) -> bool, pwHash: string, now: nat, later: nat)
    returns (db: Db, token: Token, login: Option<Reply>, identified: Option<User>)
    requires firstName != "" && lastName != "" && email != "" && password != ""
    requires IsLower(email) && compare(password, pwHash)
    requires now <= later < now + Lifetime
    ensures fresh(db) && db.Valid() && db.users == [User(0, Some(firstName), Some(lastName), email, pwHash)]
    ensures token == Issue(0, email, now)
    ensures login == Some(Reply(200, TokenJson(Accounts.UserAuthenticated, token)))
    ensures identified == Some(db.users[0])
  {
    db := new Db();
    var res := new Response();
    Accounts.Register(db, res, Some(firstName), Some(lastName), Some(email), Some(password), pwHash, false, false, now);
    assert db.users == [User(0, Some(firstName), Some(lastName), email, pwHash)];

    res := new Response();
    Accounts.RegisteredUserCanLogIn([], db.users[0], password, compare);
    Accounts.Login(db, res, Some(email), Some(password), compare, false, false, now);
    token := Issue(0, email, now);
    login := res.reply;

    var req := new Request();
    res := new Response();
    Auth.IssuedTokenResolves(db.users, db.users[0], email, now, later);
    Auth.Authenticate(db, req, res, Auth.Presented(token, true), later, false);
    identified := req.user;
  }

  /**
   * Shortening a resolvable URL twice in a row stores one record and returns it both times;
   * the second request is answered from the store without a DNS lookup.
   */
  method ShortenTwice(caller: User, url: string, address: string, urlHash: string)
    returns (db: Db, first: Option<Reply>, second: Option<Reply>)
    requires url != ""
    ensures fresh(db)
    ensures var link := ShortLink(url, Urls.GenerateShortUrl(urlHash), caller.id);
      && db.links == [link]
      && first == second == Some(Reply(200, LinkJson(link)))
  {
    db := new Db();
    var link := ShortLink(url, Urls.GenerateShortUrl(urlHash), caller.id);
    var res := new Response();
    Urls.CreateLink(db, res, caller, Some(url), true, false, Some(address), urlHash, false);
    first := res.reply;
    assert db.links == [link];

    res := new Response();
    FindLinkAfterSave([], link, ByUrlOwner(url, caller.id));
    Urls.CreateLink(db, res, caller, Some(url), true, false, None, urlHash, false);
    second := res.reply;
  }

  /**
   * After one shortening, the owner's listing holds the record and the public route
   * redirects its six-character code to the destination.
   */
  method ShortenThenVisit(caller: User, url: string, address: string, urlHash: string)
    returns (code: string, listing: Option<Reply>, redirect: Option<Reply>)
    requires url != "" && |FilterAlnum(urlHash)| >= Urls.CodeLength
    ensures |code| == 6 && AllAlnum(code)
    ensures listing == Some(Reply(200, LinksJson([ShortLink(url, code, caller.id)])))
    ensures redirect == Some(Reply(302, Redirect(url)))
  {
    var db := new Db();
    var link := ShortLink(url, Urls.GenerateShortUrl(urlHash), caller.id);
    var res := new Response();
    Urls.CreateLink(db, res, caller, Some(url), true, false, Some(address), urlHash, false);
    assert db.links == [link];
    code := link.shortUrl;

    res := new Response();
    Urls.ListLinks(db, res, caller, false);
    assert FindLinks([link], ByOwner(caller.id)) == [link];
    listing := res.reply;

    res := new Response();
    Urls.ResolvePublic(db, res, code, false);
    redirect := res.reply;
  }

  /**
   * A registration without `first_name`: the client receives 400, yet the user is stored,
   * with the schema's `null` first name.
   */
  method RegisterWithoutFirstName(lastName: string, email: string, password: string, hashed: string, now: nat)
    returns (stored: seq<User>, reply: Option<Reply>)
    ensures reply == Some(Reply(400, Text(Accounts.AllInputRequired)))
    ensures stored == [User(0, None, Some(lastName), Lower(email), hashed)]
  {
    var db := new Db();
    var res := new Response();
    Accounts.Register(db, res, None, Some(lastName), Some(email), Some(password), hashed, false, false, now);
    stored, reply := db.users, res.reply;
  }

  /** A store holding just the user that one complete registration created. */
  method Registered(firstName: string, lastName: string, email: string, password: string, hashed: string, now: nat)
    returns (db: Db)
    requires firstName != "" && lastName != "" && email != "" && password != ""
    ensures fresh(db) && db.Valid() && AllEmailsLower(db.users)
    ensures db.users == [User(0, Some(firstName), Some(lastName), Lower(email), hashed)]
  {
    db := new Db();
    var res := new Response();
    Accounts.Register(db, res, Some(firstName), Some(lastName), Some(email), Some(password), hashed, false, false, now);
    assert db.users == [User(0, Some(firstName), Some(lastName), Lower(email), hashed)];
  }

  /**
   * An address registered in mixed case is stored in lower case. Registering it again
   * exactly as before gets past the 409 check and is refused by the unique index, leaving
   * the request unanswered.
   */
  method MixedCaseEmail(email: string, password: string, hashed: string, now: nat)
    returns (stored: seq<User>, second: Option<Reply>)
    requires email != "" && password != "" && !IsLower(email)
    ensures stored == [User(0, Some("A"), Some("B"), Lower(email), hashed)]
    ensures second == None
  {
    var user := User(0, Some("A"), Some("B"), Lower(email), hashed);
    var db := Registered("A", "B", email, password, hashed, now);
    var res := new Response();
    Accounts.MixedCaseMissesDuplicate(db.users, email);
    assert FindUser(db.users, ByEmail(Lower(email))).Some?;
    assert !Accounts.RegisterCreates(db.users, Some(email), Some(password), false, false);
    Accounts.Register(db, res, Some("A"), Some("B"), Some(email), Some(password), hashed, false, false, now);
    stored, second := db.users, res.reply;
  }

  /** Logging in with the mixed-case address as registered fails, whatever the password. */
  method MixedCaseLogin(email: string, password: string, hashed: string, compare: (string, string) -> bool, now: nat)
    returns (login: Option<Reply>)
    requires email != "" && password != "" && !IsLower(email)
    ensures login == Some(Reply(400, ErrorJson(Accounts.InvalidCredentials)))
  {
    var db := Registered("A", "B", email, password, hashed, now);
    var res := new Response();
    Accounts.MixedCaseCannotLogIn(db.users, email, password, compare);
    Accounts.Login(db, res, Some(email), Some(password), compare, false, false, now);
    login := res.reply;
  }
}
