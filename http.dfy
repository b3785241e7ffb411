/** The parts of Express's request and response objects that the handlers touch. */
module Http {
  import opened Wrappers
  import opened Records
  import opened Tokens

  /** A request field JavaScript treats as true: present and not the empty string. */
  predicate Provided(v: Option<string>) {
    v.Some? && v.value != ""
  }

  /** Response bodies, by shape. */
  datatype Body =
    | Text(text: string)                          // res.send("...")
    | ErrorJson(error: string)                    // { error: "...", ... }
    | MessageJson(message: string)                // { message: "...", ... }
    | Fault                                       // { error: err } carrying a collaborator's error object
    | LinkJson(link: ShortLink)                   // a short-link document
    | LinksJson(links: seq<ShortLink>)            // an array of short-link documents
    | UserJson(user: User, token: Token)          // the created user with `token` attached
    | TokenJson(message: string, token: Token)    // { message, token }
    | Redirect(location: string)                  // res.redirect(location)

  datatype Reply = Reply(status: nat, body: Body)

  /**
   * An outgoing response. Once a reply has been sent its headers are committed: a second
   * `send`, `json`, `redirect` or `cookie` throws (ERR_HTTP_HEADERS_SENT) and changes nothing.
   */
  class Response {
    var reply: Option<Reply>
    var cookies: map<string, Token>

    constructor ()
      ensures reply == None && cookies == map[]
    {
      reply := None;
      cookies := map[];
    }

    method Send(r: Reply) returns (thrown: bool)
      modifies this
      ensures thrown <==> old(reply).Some?
      ensures reply == (if thrown then old(reply) else Some(r))
      ensures cookies == old(cookies)
    {
      thrown := reply.Some?;
      if !thrown {
        reply := Some(r);
      }
    }

    /** `res.cookie(name, value, ...)`: sets a header, so it too fails once headers are sent. */
    method SetCookie(name: string, value: Token) returns (thrown: bool)
      modifies this
      ensures thrown <==> old(reply).Some?
      ensures cookies == (if thrown then old(cookies) else old(cookies)[name := value])
      ensures reply == old(reply)
    {
      thrown := reply.Some?;
      if !thrown {
        cookies := cookies[name := value];
      }
    }
  }

  /** An incoming request: the `req.user` slot and how often the middleware chain continued. */
  class Request {
    var user: Option<User>
    var nextCalls: nat

    constructor ()
      ensures user == None && nextCalls == 0
    {
      user := None;
      nextCalls := 0;
    }

    /** `next()`: hand the request to the next handler. */
    method Next()
      modifies this
      ensures nextCalls == old(nextCalls) + 1 && user == old(user)
    {
      nextCalls := nextCalls + 1;
    }
  }
}
