/**
 * The shared in-memory cache: entries keyed by string, each with the moment
 * it stops being served. The clock is passed in as a millisecond timestamp.
 */
module Store {
  import opened Wrappers

  const MsPerSecond: nat := 1000

  /** A response body of the picture service, passed through without being looked at. */
  datatype Payload = Payload(json: string)

  datatype Entry = Entry(value: Payload, expiresAt: int)

  /** What a lookup of `key` at time `nowMs` sees: the stored value while it has not expired. */
  function Live(entries: map<string, Entry>, key: string, nowMs: nat): Option<Payload> {
    if key in entries && nowMs < entries[key].expiresAt then Some(entries[key].value) else None
  }

  /** The entry `Set` writes for a value stored at `nowMs` for a positive `ttlSeconds`. */
  function Stored(value: Payload, ttlSeconds: nat, nowMs: nat): (e: Entry)
    requires ttlSeconds > 0
    ensures e.value == value
    ensures e.expiresAt > nowMs && e.expiresAt - nowMs == ttlSeconds * MsPerSecond
  {
    Entry(value, nowMs + ttlSeconds * MsPerSecond)
  }

  /** A value stored for a positive TTL is served, unchanged, until the TTL has run out, and never after. */
  lemma LiveAfterStore(entries: map<string, Entry>, key: string, value: Payload, ttlSeconds: nat, nowMs: nat, laterMs: nat)
    requires ttlSeconds > 0
    requires nowMs <= laterMs
    ensures var after := entries[key := Stored(value, ttlSeconds, nowMs)];
      && (laterMs < nowMs + ttlSeconds * MsPerSecond ==> Live(after, key, laterMs) == Some(value))
      && (laterMs >= nowMs + ttlSeconds * MsPerSecond ==> Live(after, key, laterMs) == None)
  {
  }

  /** Storing one key leaves what every other key serves unchanged. */
  lemma StoreLeavesOthers(entries: map<string, Entry>, key: string, other: string, e: Entry, nowMs: nat)
    requires other != key
    ensures Live(entries[key := e], other, nowMs) == Live(entries, other, nowMs)
  {
  }

  class Cache {
    var entries: map<string, Entry>

    /** A fresh cache holds nothing. */
    constructor ()
      ensures entries == map[]
    {
      entries := map[];
    }

    /** `cache.get`: the stored value if the entry exists and has not expired, otherwise nothing. */
    method Get(key: string, nowMs: nat) returns (r: Option<Payload>)
      ensures r == Live(entries, key, nowMs)
    {
      if key in entries && nowMs < entries[key].expiresAt {
        r := Some(entries[key].value);
      } else {
        r := None;
      }
    }

    /** `cache.set`: stores `value` under `key`, replacing any earlier entry, for `ttlSeconds`. */
    method Set(key: string, value: Payload, ttlSeconds: nat, nowMs: nat)
      requires ttlSeconds > 0
      modifies this
      ensures entries == old(entries)[key := Stored(value, ttlSeconds, nowMs)]
    {
      entries := entries[key := Stored(value, ttlSeconds, nowMs)];
    }
  }
}
