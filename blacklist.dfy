/** The token blacklist collection (models/TokenBlacklist.js) and the TTL monitor
    that MongoDB runs over a collection with an `expires` index.

    Logout (routes/auth.js) saves `{ token, expiresAt }`, but the schema declares only
    `token` and `blacklistedAt`; Mongoose's strict mode drops the undeclared path, and
    no TTL index exists, so entries are never removed. `StoreAsWritten` models that
    schema; `StoreCorrected` declares `expiresAt` with a TTL index, as the logout
    handler evidently intends, and is the one the account service uses. */
module Blacklist {
  import opened Wrappers
  import opened Collection

  /** A blacklist document: the token, when it was blacklisted, and the instant the
      TTL monitor may remove it (absent when the schema has no such path). */
  datatype Entry = Entry(token: string, blacklistedAt: int, expiresAt: Option<int>)

  /** Saving a token with an expiry under the schema as written: the
      declared `token`, `blacklistedAt` defaulted to now, and no expiry. */
  function StoreAsWritten(token: string, now: int, expiresAt: int): (e: Entry)
    ensures e.token == token && e.blacklistedAt == now
    ensures e.expiresAt.None?
  {
    Entry(token, now, None)
  }

  /** The same document under a schema that declares `expiresAt` with
      `index: { expires: 0 }`. */
  function StoreCorrected(token: string, now: int, expiresAt: int): (e: Entry)
    ensures e.token == token && e.blacklistedAt == now
    ensures e.expiresAt == Some(expiresAt)
  {
    Entry(token, now, Some(expiresAt))
  }

  predicate Live(now: int, e: Entry) {
    !(e.expiresAt.Some? && now > e.expiresAt.value)
  }

  /** One pass of the TTL monitor: documents whose `expiresAt` lies in the past are
      removed; documents without the path are never removed. */
  function Sweep(entries: seq<Entry>, now: int): (r: seq<Entry>)
    ensures forall e :: e in r <==> e in entries && Live(now, e)
    ensures Distinct(entries, TokenOf) ==> Distinct(r, TokenOf)
  {
    var keep := e => Live(now, e);
    if Distinct(entries, TokenOf) then
      WhereDistinct(entries, keep, TokenOf);
      Where(entries, keep)
    else
      Where(entries, keep)
  }

  function TokenOf(e: Entry): string {
    e.token
  }

  function TokenSet(entries: seq<Entry>): (ts: set<string>)
    ensures forall t :: t in ts <==> exists e :: e in entries && e.token == t
  {
    set e | e in entries :: e.token
  }

  /** As written, a blacklist entry survives every sweep at every instant, however
      long after its token expired. */
  lemma AsWrittenNeverSwept(entries: seq<Entry>, token: string, blacklistedAt: int, expiresAt: int, now: int)
    requires StoreAsWritten(token, blacklistedAt, expiresAt) in entries
    ensures StoreAsWritten(token, blacklistedAt, expiresAt) in Sweep(entries, now)
    ensures token in TokenSet(Sweep(entries, now))
  {
  }

  /** A concrete instance: a token logged out with an expiry at 1000 ms is still in
      the collection a day later. */
  lemma AsWrittenOutlivesExpiry()
    ensures var e := StoreAsWritten("t", 0, 1000);
      e in Sweep([e], 86400000) && 86400000 > 1000
  {
  }

  /** With the corrected schema, an entry is kept exactly until its expiry has passed. */
  lemma CorrectedExpires(entries: seq<Entry>, token: string, blacklistedAt: int, expiresAt: int, now: int)
    requires StoreCorrected(token, blacklistedAt, expiresAt) in entries
    ensures StoreCorrected(token, blacklistedAt, expiresAt) in Sweep(entries, now) <==> now <= expiresAt
  {
  }

  /** Sweeping never adds a token. */
  lemma SweepShrinks(entries: seq<Entry>, now: int)
    ensures TokenSet(Sweep(entries, now)) <= TokenSet(entries)
  {
  }
}
