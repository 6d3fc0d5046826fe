/** The key-value store behind the three engines, as the engines see it: get a payload by
    key, set a payload with a time-to-live. Transport failures are an input (`Faults`),
    the clock is an input (`now`, in seconds). */
module KeyValueCache {
  import opened Common
  import opened Payload

  /** The expiry every engine gives its entries: 30 minutes. */
  const CacheTtlSeconds: nat := 30 * 60

  datatype Entry = Entry(payload: Json, expiresAt: int)

  /** What a read gives: a stored payload, nothing, or a raised exception. */
  datatype Read = Hit(payload: Json) | Miss | Unavailable

  /** Whether this request's cache read and cache write raise. */
  datatype Faults = Faults(readFails: bool, writeFails: bool)

  /** A read of `entries` at time `now`: an entry is visible until its expiry time. */
  function LookupAt(entries: map<string, Entry>, key: string, now: int): (r: Read)
    ensures r != Unavailable
    ensures r.Hit? <==> key in entries && now < entries[key].expiresAt
    ensures r.Hit? ==> r.payload == entries[key].payload
  {
    if key in entries && now < entries[key].expiresAt then Hit(entries[key].payload) else Miss
  }

  /** The list an engine returns straight from the cache: the read hit and the payload
      passed its converter's checks. Anything else falls through to recomputation. */
  function CachedList<T>(read: Read, decode: Json -> Result<T, DecodeError>): (c: Option<seq<T>>)
    ensures c.Some? <==> read.Hit? && DecodeList(read.payload, decode).Success?
    ensures c.Some? ==> c.value == DecodeList(read.payload, decode).value
  {
    if read.Hit? && DecodeList(read.payload, decode).Success?
    then Some(DecodeList(read.payload, decode).value)
    else None
  }

  /** After a successful write, the key reads back the payload for exactly `ttl` seconds. */
  lemma {:induction false} SetThenLookup(entries: map<string, Entry>, key: string, payload: Json, ttl: nat, now: int, later: int)
    requires now <= later
    ensures LookupAt(entries[key := Entry(payload, now + ttl)], key, later)
         == if later < now + ttl then Hit(payload) else Miss
  {
  }

  /** A write to one key leaves every other key's reads unchanged. */
  lemma {:induction false} SetLeavesOtherKeys(entries: map<string, Entry>, key: string, other: string, payload: Json, ttl: nat, now: int, later: int)
    requires other != key
    ensures LookupAt(entries[key := Entry(payload, now + ttl)], other, later) == LookupAt(entries, other, later)
  {
  }

  class Cache {
    var entries: map<string, Entry>

    constructor ()
      ensures entries == map[]
    {
      entries := map[];
    }

    /** Cache.get; a transport or parse error is reported as Unavailable. */
    method Get(key: string, now: int, fails: bool) returns (r: Read)
      ensures r == if fails then Unavailable else LookupAt(entries, key, now)
    {
      if fails {
        r := Unavailable;
      } else {
        r := LookupAt(entries, key, now);
      }
    }

    /** Cache.set with an expiry of `ttl` seconds; a failed write stores nothing. */
    method Set(key: string, payload: Json, ttl: nat, now: int, fails: bool)
      modifies this
      ensures entries == if fails then old(entries) else old(entries)[key := Entry(payload, now + ttl)]
    {
      if !fails {
        entries := entries[key := Entry(payload, now + ttl)];
      }
    }
  }
}
