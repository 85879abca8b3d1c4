/**
  The Redis keyspace the queue gateway reads and writes, reduced to what the
  gateway uses: string values, `SET key value EX seconds` and `GET key`,
  under a logical clock counted in seconds. Every command also takes whether
  the connection answered; a command on a connection that did not answer is
  rejected and changes nothing.
 */
module KeyedStore {
  import opened Common

  /** A stored value and the instant from which it is gone. */
  datatype Entry = Entry(value: string, expiresAt: int)

  type Store = map<string, Entry>

  /** A command's reply: a value, or a rejected command. */
  datatype Reply<T> = Ok(value: T) | Rejected

  /** The entry is still there at time `now`. */
  predicate Live(e: Entry, now: int) {
    now < e.expiresAt
  }

  /** `GET key` at time `now`: the value while it lives, nothing once expired or never set. */
  function Get(s: Store, key: string, now: int): (r: Option<string>)
    ensures r.Some? ==> key in s && r.value == s[key].value
    ensures key in s && Live(s[key], now) ==> r.Some?
    ensures r.Some? ==> Live(s[key], now)
  {
    if key in s && Live(s[key], now) then Some(s[key].value) else None
  }

  /**
    `SET key value EX ttl` at time `now`. Redis rejects an expiry that is not a
    positive integer (a NaN from `parseInt` arrives as `None`), and nothing is
    written when the connection does not answer.
   */
  function SetEx(s: Store, up: bool, key: string, value: string, ttl: Option<int>, now: int): (r: Reply<Store>)
    ensures r.Ok? <==> up && ttl.Some? && ttl.value > 0
    ensures r.Ok? ==> r.value.Keys == s.Keys + {key}
  {
    if up && ttl.Some? && ttl.value > 0 then Ok(s[key := Entry(value, now + ttl.value)]) else Rejected
  }

  /** `GET key` on the connection: rejected when it does not answer. */
  function Read(s: Store, up: bool, key: string, now: int): (r: Reply<Option<string>>)
    ensures r.Ok? <==> up
    ensures r.Ok? ==> r.value == Get(s, key, now)
  {
    if up then Ok(Get(s, key, now)) else Rejected
  }

  // ---------------------------------------------------------------------
  // Properties

  /** A value set with a positive expiry is read back until the expiry, and not from then on. */
  lemma GetAfterSetEx(s: Store, key: string, value: string, ttl: int, now: int, t: int)
    requires ttl > 0
    ensures Get(SetEx(s, true, key, value, Some(ttl), now).value, key, t)
         == if t < now + ttl then Some(value) else None
  {
  }

  /** Setting one key leaves what every other key reads unchanged. */
  lemma SetExFrame(s: Store, up: bool, key: string, value: string, ttl: Option<int>, now: int, other: string, t: int)
    requires other != key
    requires SetEx(s, up, key, value, ttl, now).Ok?
    ensures Get(SetEx(s, up, key, value, ttl, now).value, other, t) == Get(s, other, t)
  {
  }

  /** Once an entry has expired it stays expired. */
  lemma ExpiryIsPermanent(s: Store, key: string, t: int, t': int)
    requires t <= t'
    requires Get(s, key, t).None?
    ensures Get(s, key, t').None?
  {
  }
}
