/**
 * The document store: the users collection and the short-link collection, with the
 * Mongoose operations the handlers use. Sequence order is the store's natural order,
 * which decides what `findOne` and `findOneAndDelete` pick when several documents match.
 */
module Store {
  import opened Wrappers
  import opened Text
  import opened Records

  /** The index of the first element satisfying `p`. */
  function First<T>(s: seq<T>, p: T -> bool): (r: Option<nat>)
    ensures r.Some? ==> r.value < |s| && p(s[r.value])
    ensures r.Some? ==> forall k :: 0 <= k < r.value ==> !p(s[k])
    ensures r.None? <==> forall k :: 0 <= k < |s| ==> !p(s[k])
  {
    if s == [] then None
    else if p(s[0]) then Some(0)
    else
      match First(s[1..], p)
      case None => None
      case Some(i) => Some(i + 1)
  }

  /** The elements satisfying `p`, in order, each as often as it occurs. */
  function Select<T(==,!new)>(s: seq<T>, p: T -> bool): (r: seq<T>)
    ensures |r| <= |s|
    ensures forall i :: 0 <= i < |r| ==> p(r[i])
    ensures forall x :: x in r <==> x in s && p(x)
    ensures forall x :: multiset(r)[x] == if p(x) then multiset(s)[x] else 0
  {
    if s == [] then []
    else
      assert s == [s[0]] + s[1..];
      if p(s[0]) then [s[0]] + Select(s[1..], p) else Select(s[1..], p)
  }

  /** `s` with the element at index `i` taken out. */
  function RemoveAt<T>(s: seq<T>, i: nat): (r: seq<T>)
    requires i < |s|
    ensures |r| == |s| - 1
    ensures forall k :: 0 <= k < i ==> r[k] == s[k]
    ensures forall k :: i <= k < |r| ==> r[k] == s[k + 1]
    ensures multiset(r) == multiset(s) - multiset{s[i]}
  {
    assert s == s[..i] + [s[i]] + s[i + 1..];
    s[..i] + s[i + 1..]
  }

  /** The query documents the handlers pass for short links. */
  datatype LinkFilter =
    | ByCode(code: string)                          // { shortUrl }
    | ByCodeOwner(code: string, owner: UserId)      // { shortUrl, userId }
    | ByUrlOwner(url: string, owner: UserId)        // { originalUrl, userId }
    | ByOwner(owner: UserId)                        // { userId }
    | ByOwnerSearch(owner: UserId, pattern: string) // { userId, originalUrl: { $regex, $options: 'i' } }

  predicate LinkMatches(l: ShortLink, f: LinkFilter) {
    match f
    case ByCode(code) => l.shortUrl == code
    case ByCodeOwner(code, owner) => l.shortUrl == code && l.userId == owner
    case ByUrlOwner(url, owner) => l.originalUrl == url && l.userId == owner
    case ByOwner(owner) => l.userId == owner
    case ByOwnerSearch(owner, pattern) => l.userId == owner && MatchesIgnoreCase(l.originalUrl, pattern)
  }

  /** `ShortURL.findOne(f)`: the index of the first matching link. */
  function FindLink(links: seq<ShortLink>, f: LinkFilter): (r: Option<nat>)
    ensures r.Some? ==> r.value < |links| && LinkMatches(links[r.value], f)
    ensures r.Some? ==> forall k :: 0 <= k < r.value ==> !LinkMatches(links[k], f)
    ensures r.None? <==> forall l :: l in links ==> !LinkMatches(l, f)
  {
    First(links, (l: ShortLink) => LinkMatches(l, f))
  }

  /** `ShortURL.find(f)`. */
  function FindLinks(links: seq<ShortLink>, f: LinkFilter): (r: seq<ShortLink>)
    ensures forall l :: l in r <==> l in links && LinkMatches(l, f)
    ensures forall l :: multiset(r)[l] == if LinkMatches(l, f) then multiset(links)[l] else 0
  {
    Select(links, (l: ShortLink) => LinkMatches(l, f))
  }

  /** What `ShortURL.deleteMany(f)` leaves behind. */
  function WithoutLinks(links: seq<ShortLink>, f: LinkFilter): (r: seq<ShortLink>)
    ensures forall l :: l in r ==> !LinkMatches(l, f)
    ensures forall l :: multiset(r)[l] == if LinkMatches(l, f) then 0 else multiset(links)[l]
  {
    Select(links, (l: ShortLink) => !LinkMatches(l, f))
  }

  /** `find` and `deleteMany` with one filter split the collection between them. */
  lemma FindAndDeletePartition(links: seq<ShortLink>, f: LinkFilter)
    ensures multiset(FindLinks(links, f)) + multiset(WithoutLinks(links, f)) == multiset(links)
  {
  }

  /** The first match of a filter nothing matched yet is the document saved next. */
  lemma FindLinkAfterSave(links: seq<ShortLink>, l: ShortLink, f: LinkFilter)
    requires FindLink(links, f).None? && LinkMatches(l, f)
    ensures FindLink(links + [l], f) == Some(|links|)
  {
  }

  /** Saving a document leaves the first match of every filter that already matched. */
  lemma FindLinkStableUnderSave(links: seq<ShortLink>, l: ShortLink, f: LinkFilter)
    requires FindLink(links, f).Some?
    ensures FindLink(links + [l], f) == FindLink(links, f)
  {
    var i := FindLink(links, f).value;
    assert (links + [l])[i] == links[i];
  }

  /** The query documents the handlers pass for users. */
  datatype UserFilter = ByEmail(email: string) | ById(id: UserId)

  predicate UserMatches(u: User, f: UserFilter) {
    match f
    case ByEmail(email) => u.email == email
    case ById(id) => u.id == id
  }

  /** `User.findOne(f)`: the index of the first matching user. */
  function FindUser(users: seq<User>, f: UserFilter): (r: Option<nat>)
    ensures r.Some? ==> r.value < |users| && UserMatches(users[r.value], f)
    ensures r.Some? ==> forall k :: 0 <= k < r.value ==> !UserMatches(users[k], f)
    ensures r.None? <==> forall u :: u in users ==> !UserMatches(u, f)
  {
    First(users, (u: User) => UserMatches(u, f))
  }

  /** `User.findOne(f)` as the promise resolves: a store error, or the document (or `null`). */
  function LookupUser(users: seq<User>, f: UserFilter, fails: bool): (r: Result<Option<User>>)
    ensures r.Failed? <==> fails
    ensures r.Ok? && r.value.Some? ==> r.value.value in users && UserMatches(r.value.value, f)
    ensures r.Ok? && r.value.None? ==> forall u :: u in users ==> !UserMatches(u, f)
  {
    if fails then Failed
    else
      match FindUser(users, f)
      case None => Ok(None)
      case Some(i) => Ok(Some(users[i]))
  }

  /** No two users share an id. */
  ghost predicate UniqueIds(users: seq<User>) {
    forall i, j :: 0 <= i < j < |users| ==> users[i].id != users[j].id
  }

  /** No two users share an email: the schema's unique index. */
  ghost predicate UniqueEmails(users: seq<User>) {
    forall i, j :: 0 <= i < j < |users| ==> users[i].email != users[j].email
  }

  /** With unique ids, looking a stored user up by its id finds exactly that user. */
  lemma LookupByUniqueId(users: seq<User>, u: User)
    requires UniqueIds(users) && u in users
    ensures LookupUser(users, ById(u.id), false) == Ok(Some(u))
  {
  }

  /** With unique emails, looking a stored user up by its email finds exactly that user. */
  lemma LookupByUniqueEmail(users: seq<User>, u: User)
    requires UniqueEmails(users) && u in users
    ensures LookupUser(users, ByEmail(u.email), false) == Ok(Some(u))
  {
  }

  /** Every stored email is in lower case: what registering through `/register` guarantees. */
  ghost predicate AllEmailsLower(users: seq<User>) {
    forall i :: 0 <= i < |users| ==> IsLower(users[i].email)
  }

  class Db {
    var users: seq<User>
    var links: seq<ShortLink>
    /** The next `_id` the store hands out. */
    var nextId: UserId

    /** Ids are unique and below `nextId`; the unique index keeps emails unique. */
    ghost predicate Valid()
      reads this
    {
      && (forall i :: 0 <= i < |users| ==> users[i].id < nextId)
      && UniqueIds(users)
      && UniqueEmails(users)
    }

    constructor ()
      ensures Valid() && users == [] && links == [] && nextId == 0
    {
      users, links, nextId := [], [], 0;
    }

    /**
     * `User.create(...)`: rejected by a store failure or by the unique email index, and
     * otherwise stored under a fresh id.
     */
    method CreateUser(firstName: Option<string>, lastName: Option<string>, email: string, password: string, fails: bool)
      returns (created: Option<User>)
      requires Valid()
      modifies this
      ensures Valid() && links == old(links)
      ensures created.Some? <==> !fails && FindUser(old(users), ByEmail(email)).None?
      ensures created.Some? ==> created.value == User(old(nextId), firstName, lastName, email, password)
      ensures created.Some? ==> users == old(users) + [created.value] && nextId == old(nextId) + 1
      ensures created.None? ==> users == old(users) && nextId == old(nextId)
    {
      if fails || FindUser(users, ByEmail(email)).Some? {
        return None;
      }
      var u := User(nextId, firstName, lastName, email, password);
      users := users + [u];
      nextId := nextId + 1;
      created := Some(u);
    }

    /** `new ShortURL(l).save()`. */
    method SaveLink(l: ShortLink, fails: bool) returns (saved: bool)
      modifies this
      ensures saved == !fails
      ensures links == (if saved then old(links) + [l] else old(links))
      ensures users == old(users) && nextId == old(nextId)
    {
      saved := !fails;
      if saved {
        links := links + [l];
      }
    }

    /** `ShortURL.findOneAndDelete(f)`: removes and returns the first match, if any. */
    method FindOneAndDeleteLink(f: LinkFilter, fails: bool) returns (r: Result<Option<ShortLink>>)
      modifies this
      ensures users == old(users) && nextId == old(nextId)
      ensures fails ==> r == Failed && links == old(links)
      ensures !fails && FindLink(old(links), f).None? ==> r == Ok(None) && links == old(links)
      ensures !fails && FindLink(old(links), f).Some? ==>
        var i := FindLink(old(links), f).value;
        r == Ok(Some(old(links)[i])) && links == RemoveAt(old(links), i)
    {
      if fails {
        return Failed;
      }
      match FindLink(links, f)
      case None =>
        r := Ok(None);
      case Some(i) =>
        r := Ok(Some(links[i]));
        links := RemoveAt(links, i);
    }

    /** `User.deleteOne({ _id: id })`: removes the first user with that id. */
    method DeleteOneUser(id: UserId, fails: bool) returns (ok: bool)
      requires Valid()
      modifies this
      ensures Valid() && links == old(links) && nextId == old(nextId)
      ensures ok == !fails
      ensures !ok ==> users == old(users)
      ensures ok && FindUser(old(users), ById(id)).None? ==> users == old(users)
      ensures ok && FindUser(old(users), ById(id)).Some? ==>
        users == RemoveAt(old(users), FindUser(old(users), ById(id)).value)
      ensures ok ==> forall u :: u in users ==> u.id != id
      ensures forall u :: u in users ==> u in old(users)
    {
      ok := !fails;
      if !ok {
        return;
      }
      match FindUser(users, ById(id))
      case None =>
      case Some(i) =>
        ghost var before := users;
        users := RemoveAt(users, i);
        forall u | u in users
          ensures u.id != id && u in before
        {
          var k :| 0 <= k < |users| && users[k] == u;
          if k < i {
            assert before[k] == u;
          } else {
            assert before[k + 1] == u;
          }
        }
    }

    /** `ShortURL.deleteMany(f)`. */
    method DeleteManyLinks(f: LinkFilter, fails: bool) returns (ok: bool)
      modifies this
      ensures ok == !fails
      ensures links == (if ok then WithoutLinks(old(links), f) else old(links))
      ensures users == old(users) && nextId == old(nextId)
    {
      ok := !fails;
      if ok {
        links := WithoutLinks(links, f);
      }
    }
  }
}
