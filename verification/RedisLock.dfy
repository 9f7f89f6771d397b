/**
 The lock primitives of `RedisService`: one key with a value and a time to live.
 Times are milliseconds on the clock of the Redis server. A key is gone from the
 instant at which it expires.
*/
module RedisLock {

  datatype Cell = Free | Held(owner: nat, expires: int)

  /** What the server sees at time `now`: an expired key does not exist. */
  function At(c: Cell, now: int): (r: Cell)
    ensures r.Held? <==> c.Held? && now < c.expires
    ensures r.Held? ==> r == c
  {
    if c.Held? && c.expires <= now then Free else c
  }

  /** SET key value EX ttl NX. The flag says whether the reply is OK. */
  function SetNx(c: Cell, owner: nat, ttl: int, now: int): (Cell, bool) {
    if At(c, now).Free? then (Held(owner, now + ttl), true) else (At(c, now), false)
  }

  /** EXPIRE key ttl: it looks at the key only, never at the value. The flag is the reply 1. */
  function Expire(c: Cell, ttl: int, now: int): (Cell, bool) {
    if At(c, now).Held? then (At(c, now).(expires := now + ttl), true) else (Free, false)
  }

  /** The key space with the lock primitives as its only operations. */
  class RedisService {
    var store: map<string, Cell>

    constructor ()
      ensures store == map[]
    {
      store := map[];
    }

    function Lookup(key: string): Cell
      reads this
    {
      if key in store then store[key] else Free
    }

    method SetLock(key: string, value: nat, ttl: int, now: int) returns (ok: bool)
      modifies this
      ensures (Lookup(key), ok) == SetNx(old(Lookup(key)), value, ttl, now)
      ensures ok <==> old(Lookup(key)).Free? || old(Lookup(key)).expires <= now
      ensures ok ==> Lookup(key) == Held(value, now + ttl)
      ensures !ok ==> Lookup(key) == old(Lookup(key))
      ensures forall other | other != key :: Lookup(other) == old(Lookup(other))
    {
      var cell := Lookup(key);
      if At(cell, now).Free? {
        store := store[key := Held(value, now + ttl)];
        ok := true;
      } else {
        ok := false;
      }
    }

    /** DEL key: whoever the owner is. */
    method ReleaseLock(key: string)
      modifies this
      ensures Lookup(key) == Free
      ensures forall other | other != key :: Lookup(other) == old(Lookup(other))
    {
      store := store - {key};
    }

    method RenewLock(key: string, ttl: int, now: int) returns (ok: bool)
      modifies this
      ensures (Lookup(key), ok) == Expire(old(Lookup(key)), ttl, now)
      ensures ok <==> old(Lookup(key)).Held? && now < old(Lookup(key)).expires
      ensures ok ==> Lookup(key) == Held(old(Lookup(key)).owner, now + ttl)
      ensures !ok ==> Lookup(key) == Free
      ensures forall other | other != key :: Lookup(other) == old(Lookup(other))
    {
      match At(Lookup(key), now)
      case Free =>
        store := store - {key};
        ok := false;
      case Held(owner, _) =>
        store := store[key := Held(owner, now + ttl)];
        ok := true;
    }

    method GetRaw(key: string, now: int) returns (cell: Cell)
      ensures cell == At(Lookup(key), now)
    {
      cell := At(Lookup(key), now);
    }
  }
}
