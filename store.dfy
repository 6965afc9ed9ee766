/**
 * The challenge store: a key-value cache whose entries expire a fixed number
 * of seconds after they are written (Redis `SETEX` / `GET` / `DELETE`). The
 * clock is a parameter of every operation; an entry whose expiry time has
 * been reached reads as absent, which is what TTL expiry looks like to a
 * caller.
 */
module Store {
  import opened Wrappers

  datatype Entry = Entry(value: string, expiresAt: real)

  /** What `GET key` answers at time `now`. */
  function Live(entries: map<string, Entry>, key: string, now: real): Option<string> {
    if key in entries && now < entries[key].expiresAt then Some(entries[key].value) else None
  }

  class ChallengeStore {
    var entries: map<string, Entry>

    /** A connection to a shared, persistent database, which may already
        hold entries written earlier or by other server processes. */
    constructor (init: map<string, Entry>)
      ensures entries == init
    {
      entries := init;
    }

    /** `SETEX key ttl value` at time `now`: overwrites the key, touches no other. */
    method SetEx(key: string, ttl: nat, value: string, now: real)
      modifies this
      ensures entries == old(entries)[key := Entry(value, now + ttl as real)]
      ensures forall k :: k != key ==> Live(entries, k, now) == Live(old(entries), k, now)
    {
      entries := entries[key := Entry(value, now + ttl as real)];
    }

    /** `GET key` at time `now`: the value written last, until it expires. */
    method Get(key: string, now: real) returns (r: Option<string>)
      ensures r.Some? <==> key in entries && now < entries[key].expiresAt
      ensures r.Some? ==> r.value == entries[key].value
    {
      if key in entries && now < entries[key].expiresAt {
        r := Some(entries[key].value);
      } else {
        r := None;
      }
    }

    /** `DELETE key`. */
    method Delete(key: string)
      modifies this
      ensures entries == old(entries) - {key}
    {
      entries := entries - {key};
    }
  }
}
