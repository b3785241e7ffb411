/**
 * The short-link routes: creation, listing, search, owned and public lookup, deletion of
 * one link and deletion of the whole account. Every handler runs behind JWT authentication
 * except the public redirect; `caller` is the `req.user` that authentication set.
 */
module Urls {
  import opened Wrappers
  import opened Text
  import opened Records
  import opened Store
  import opened Http

  /** `substr(0, 6)`. */
  const CodeLength: nat := 6

  const NoUrlProvided := "No URL Provided"
  const InvalidUrl := "Invalid URL"
  const DatabaseError := "Database Error"
  const UrlNotFound := "URL Not Found"
  const UrlDeleted := "URL deleted successfully"
  const AccountDeleted := "Account deleted successfully."

  /**
   * `generateShortUrl`, given `hash`, the output of `bcrypt.hashSync(originalUrl, 10)`:
   * the hash with every non-alphanumeric character removed, cut to six characters.
   */
  function GenerateShortUrl(hash: string): (code: string)
    ensures AllAlnum(code)
    ensures |code| == Min(CodeLength, |FilterAlnum(hash)|)
    ensures code <= FilterAlnum(hash)
  {
    var alnum := FilterAlnum(hash);
    alnum[..Min(CodeLength, |alnum|)]
  }

  /** Every character of a short code is an alphanumeric character of the hash. */
  lemma CodeDrawnFromHash(hash: string)
    ensures forall c :: c in GenerateShortUrl(hash) ==> IsAlnum(c) && c in hash
  {
    FilterAlnumKeepsCounts(hash);
  }

  /** A hash holding at least six alphanumerics yields a code of exactly six. */
  lemma FullLengthCode(hash: string)
    requires |FilterAlnum(hash)| >= CodeLength
    ensures |GenerateShortUrl(hash)| == 6
  {
  }

  /**
   * POST /url. `urlParses` is whether `new URL(url)` succeeds (`urlIsValid`); `address` is
   * what `getDns` resolves to; `lookupFails` rejects the idempotency `findOne`, which runs
   * outside the `try`, so its rejection leaves the request without a reply.
   */
  method CreateLink(db: Db, res: Response, caller: User, url: Option<string>, urlParses: bool,
                    lookupFails: bool, address: Option<string>, hash: string, saveFails: bool)
    requires res.reply.None?
    modifies db, res
    ensures db.users == old(db.users) && db.nextId == old(db.nextId) && res.cookies == old(res.cookies)
    ensures !(Provided(url) && urlParses) ==>
      res.reply == Some(Reply(400, ErrorJson(NoUrlProvided))) && db.links == old(db.links)
    ensures Provided(url) && urlParses && lookupFails ==>
      res.reply == None && db.links == old(db.links)
    ensures Provided(url) && urlParses && !lookupFails ==>
      match FindLink(old(db.links), ByUrlOwner(url.value, caller.id))
      case Some(i) =>
        res.reply == Some(Reply(200, LinkJson(old(db.links)[i]))) && db.links == old(db.links)
      case None =>
        if address.None? then
          res.reply == Some(Reply(400, ErrorJson(InvalidUrl))) && db.links == old(db.links)
        else if saveFails then
          res.reply == Some(Reply(500, ErrorJson(DatabaseError))) && db.links == old(db.links)
        else
          var l := ShortLink(url.value, GenerateShortUrl(hash), caller.id);
          db.links == old(db.links) + [l] && res.reply == Some(Reply(200, LinkJson(l)))
  {
    var thrown: bool;
    if !Provided(url) || !urlParses {
      thrown := res.Send(Reply(400, ErrorJson(NoUrlProvided)));
      return;
    }
    if lookupFails {
      return;
    }
    var existing := FindLink(db.links, ByUrlOwner(url.value, caller.id));
    if existing.Some? {
      thrown := res.Send(Reply(200, LinkJson(db.links[existing.value])));
      return;
    }
    if address.None? {
      thrown := res.Send(Reply(400, ErrorJson(InvalidUrl)));
      return;
    }
    var l := ShortLink(url.value, GenerateShortUrl(hash), caller.id);
    var saved := db.SaveLink(l, saveFails);
    if saved {
      thrown := res.Send(Reply(200, LinkJson(l)));
    } else {
      thrown := res.Send(Reply(500, ErrorJson(DatabaseError)));
    }
  }

  /** GET /url: every link the caller owns. */
  method ListLinks(db: Db, res: Response, caller: User, fails: bool)
    requires res.reply.None?
    modifies res
    ensures res.cookies == old(res.cookies)
    ensures fails ==> res.reply == Some(Reply(500, ErrorJson(DatabaseError)))
    ensures !fails ==> res.reply == Some(Reply(200, LinksJson(FindLinks(db.links, ByOwner(caller.id)))))
  {
    var thrown: bool;
    if fails {
      thrown := res.Send(Reply(500, ErrorJson(DatabaseError)));
    } else {
      thrown := res.Send(Reply(200, LinksJson(FindLinks(db.links, ByOwner(caller.id)))));
    }
  }

  /** GET /url/:shortUrl: the caller's own link with that code, redirected to. */
  method ResolveOwned(db: Db, res: Response, caller: User, code: string, fails: bool)
    requires res.reply.None?
    modifies res
    ensures res.cookies == old(res.cookies)
    ensures fails ==> res.reply == Some(Reply(500, ErrorJson(DatabaseError)))
    ensures !fails && FindLink(db.links, ByCodeOwner(code, caller.id)).None? ==>
      res.reply == Some(Reply(404, ErrorJson(UrlNotFound)))
    ensures !fails && FindLink(db.links, ByCodeOwner(code, caller.id)).Some? ==>
      var l := db.links[FindLink(db.links, ByCodeOwner(code, caller.id)).value];
      res.reply == Some(Reply(302, Redirect(l.originalUrl))) && l.shortUrl == code && l.userId == caller.id
  {
    var thrown: bool;
    if fails {
      thrown := res.Send(Reply(500, ErrorJson(DatabaseError)));
      return;
    }
    var found := FindLink(db.links, ByCodeOwner(code, caller.id));
    if found.None? {
      thrown := res.Send(Reply(404, ErrorJson(UrlNotFound)));
    } else {
      thrown := res.Send(Reply(302, Redirect(db.links[found.value].originalUrl)));
    }
  }

  /** GET /search?s=: the caller's links whose destination contains `s`, ignoring case. */
  method SearchLinks(db: Db, res: Response, caller: User, s: string, fails: bool)
    requires res.reply.None?
    modifies res
    ensures res.cookies == old(res.cookies)
    ensures fails ==> res.reply == Some(Reply(500, ErrorJson(DatabaseError)))
    ensures !fails ==> res.reply == Some(Reply(200, LinksJson(FindLinks(db.links, ByOwnerSearch(caller.id, s)))))
  {
    var thrown: bool;
    if fails {
      thrown := res.Send(Reply(500, ErrorJson(DatabaseError)));
    } else {
      thrown := res.Send(Reply(200, LinksJson(FindLinks(db.links, ByOwnerSearch(caller.id, s)))));
    }
  }

  /** DELETE /url/:shortUrl: removes the caller's first link with that code. */
  method DeleteLink(db: Db, res: Response, caller: User, code: string, fails: bool)
    requires res.reply.None?
    modifies db, res
    ensures db.users == old(db.users) && db.nextId == old(db.nextId) && res.cookies == old(res.cookies)
    ensures fails ==> res.reply == Some(Reply(500, ErrorJson(DatabaseError))) && db.links == old(db.links)
    ensures !fails && FindLink(old(db.links), ByCodeOwner(code, caller.id)).None? ==>
      res.reply == Some(Reply(404, ErrorJson(UrlNotFound))) && db.links == old(db.links)
    ensures !fails && FindLink(old(db.links), ByCodeOwner(code, caller.id)).Some? ==>
      res.reply == Some(Reply(200, MessageJson(UrlDeleted))) &&
      db.links == RemoveAt(old(db.links), FindLink(old(db.links), ByCodeOwner(code, caller.id)).value)
  {
    var thrown: bool;
    var deleted := db.FindOneAndDeleteLink(ByCodeOwner(code, caller.id), fails);
    match deleted
    case Failed =>
      thrown := res.Send(Reply(500, ErrorJson(DatabaseError)));
    case Ok(None) =>
      thrown := res.Send(Reply(404, ErrorJson(UrlNotFound)));
    case Ok(Some(_)) =>
      thrown := res.Send(Reply(200, MessageJson(UrlDeleted)));
  }

  /**
   * DELETE /account: deletes the caller's user record, then every link the caller owns.
   * The two deletions are separate store calls; if the second fails the user is gone already.
   */
  method DeleteAccount(db: Db, res: Response, caller: User, userDeleteFails: bool, linksDeleteFails: bool)
    requires db.Valid() && res.reply.None?
    modifies db, res
    ensures db.Valid() && db.nextId == old(db.nextId) && res.cookies == old(res.cookies)
    ensures userDeleteFails ==>
      res.reply == Some(Reply(500, ErrorJson(DatabaseError))) && db.users == old(db.users) && db.links == old(db.links)
    ensures !userDeleteFails ==>
      (forall u :: u in db.users ==> u.id != caller.id) &&
      (forall u :: u in old(db.users) && u.id != caller.id ==> u in db.users) &&
      (forall u :: u in db.users ==> u in old(db.users))
    ensures !userDeleteFails && linksDeleteFails ==>
      res.reply == Some(Reply(500, ErrorJson(DatabaseError))) && db.links == old(db.links)
    ensures !userDeleteFails && !linksDeleteFails ==>
      res.reply == Some(Reply(200, MessageJson(AccountDeleted))) &&
      db.links == WithoutLinks(old(db.links), ByOwner(caller.id)) &&
      forall l :: l in db.links ==> l.userId != caller.id
  {
    var thrown: bool;
    var userDeleted := db.DeleteOneUser(caller.id, userDeleteFails);
    if !userDeleted {
      thrown := res.Send(Reply(500, ErrorJson(DatabaseError)));
      return;
    }
    var linksDeleted := db.DeleteManyLinks(ByOwner(caller.id), linksDeleteFails);
    if !linksDeleted {
      thrown := res.Send(Reply(500, ErrorJson(DatabaseError)));
      return;
    }
    thrown := res.Send(Reply(200, MessageJson(AccountDeleted)));
  }

  /** GET /:shortUrl, unauthenticated: the first stored link with that code, whoever owns it. */
  method ResolvePublic(db: Db, res: Response, code: string, fails: bool)
    requires res.reply.None?
    modifies res
    ensures res.cookies == old(res.cookies)
    ensures fails ==> res.reply == Some(Reply(500, ErrorJson(DatabaseError)))
    ensures !fails && FindLink(db.links, ByCode(code)).None? ==>
      res.reply == Some(Reply(404, ErrorJson(UrlNotFound)))
    ensures !fails && FindLink(db.links, ByCode(code)).Some? ==>
      var l := db.links[FindLink(db.links, ByCode(code)).value];
      res.reply == Some(Reply(302, Redirect(l.originalUrl))) && l.shortUrl == code
  {
    var thrown: bool;
    if fails {
      thrown := res.Send(Reply(500, ErrorJson(DatabaseError)));
      return;
    }
    var found := FindLink(db.links, ByCode(code));
    if found.None? {
      thrown := res.Send(Reply(404, ErrorJson(UrlNotFound)));
    } else {
      thrown := res.Send(Reply(302, Redirect(db.links[found.value].originalUrl)));
    }
  }

  /** A code stored only under other owners is not found by the owner-scoped filter. */
  lemma OtherOwnersCodesHidden(links: seq<ShortLink>, code: string, caller: UserId)
    requires forall l :: l in links && l.shortUrl == code ==> l.userId != caller
    ensures FindLink(links, ByCodeOwner(code, caller)).None?
  {
  }

  /** Whenever the public lookup finds a code, it finds it under some owner. */
  lemma PublicLookupFindsAnyOwner(links: seq<ShortLink>, l: ShortLink)
    requires l in links
    ensures FindLink(links, ByCode(l.shortUrl)).Some?
    ensures links[FindLink(links, ByCode(l.shortUrl)).value].shortUrl == l.shortUrl
  {
  }

  /** Search results are a sub-multiset of the caller's listing. */
  lemma SearchWithinListing(links: seq<ShortLink>, owner: UserId, s: string)
    ensures multiset(FindLinks(links, ByOwnerSearch(owner, s))) <= multiset(FindLinks(links, ByOwner(owner)))
  {
  }

  /** Searching with the empty string lists every link the caller owns. */
  lemma EmptySearchIsListing(links: seq<ShortLink>, owner: UserId)
    ensures multiset(FindLinks(links, ByOwnerSearch(owner, ""))) == multiset(FindLinks(links, ByOwner(owner)))
  {
  }
}
