/**
 * Identity tokens as `jsonwebtoken` issues and checks them, with signing left opaque:
 * a token is its payload, and whether its signature verifies is a separate input.
 */
module Tokens {
  import opened Records

  /** `expiresIn: "2h"`, in seconds. */
  const Lifetime: nat := 7200

  /** The payload `{ user_id, email }` with the `iat` and `exp` claims `jwt.sign` adds. */
  datatype Token = Token(userId: UserId, email: string, issuedAt: nat, expiresAt: nat)

  /** `jwt.sign({ user_id, email }, key, { expiresIn: "2h" })` at clock time `now` (seconds). */
  function Issue(userId: UserId, email: string, now: nat): (t: Token)
    ensures t.userId == userId && t.email == email && t.issuedAt == now
    ensures forall later: nat :: Unexpired(t, later) <==> later < now + Lifetime
  {
    Token(userId, email, now, now + Lifetime)
  }

  /** `jwt.verify` rejects a token once the clock reaches its `exp` claim. */
  predicate Unexpired(t: Token, now: nat) {
    now < t.expiresAt
  }
}
