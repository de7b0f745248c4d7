/** Redis leases with owner tokens (app/core/dist_lock.py): the two owner
    scripts, the handle that calls them and the registry of the process. */
module DistLock {
  import opened Wrappers

  const LOCK_MIN_TTL_SECONDS := 1

  /** The value and the expiry, in milliseconds, of one Redis key. */
  datatype Entry = Entry(token: nat, expiry: int)

  type Redis = map<string, Entry>

  predicate Free(redis: Redis, key: string, now: int) {
    key !in redis || redis[key].expiry <= now
  }

  predicate Held(redis: Redis, key: string, token: nat, now: int) {
    !Free(redis, key, now) && redis[key].token == token
  }

  /** SET NX PX. */
  function SetNx(redis: Redis, key: string, token: nat, ms: int, now: int): Redis {
    if Free(redis, key, now) then redis[key := Entry(token, now + ms)] else redis
  }

  /** RENEW_LUA; it answers 1 exactly when the token holds the key. */
  function RenewScript(redis: Redis, key: string, token: nat, ms: int, now: int): Redis {
    if Held(redis, key, token, now) then redis[key := Entry(token, now + ms)] else redis
  }

  /** RELEASE_LUA; it answers 1 exactly when the token holds the key. */
  function ReleaseScript(redis: Redis, key: string, token: nat, now: int): Redis {
    if Held(redis, key, token, now) then redis - {key} else redis
  }

  /** How a script call ends: answered, or the connection broke before or after
      the server ran it. */
  datatype Link = Answered | BrokenBefore | BrokenAfter

  datatype LockError = BadTtl | Outage | Reentry | TimedOut

  class Server {
    var entries: Redis
    var now: int
  }

  class Registry {
    var tokens: map<string, nat>
  }

  /** The first attempt of `acquire_dist_lock`: the key is taken exactly if nobody's
      lease on it runs; a refusal waits, unless this process has the key on record. */
  method FirstAttempt(key: string, token: nat, seconds: int, server: Server, registry: Registry, link: Link)
    returns (r: Result<bool, LockError>)
    modifies server`entries, registry
    ensures var free := key in old(server.entries) ==> old(server.entries)[key].expiry <= server.now;
            var taken := seconds >= 1 && link != BrokenBefore && free;
            && r == (if seconds < 1 then Err(BadTtl) else if link != Answered then Err(Outage)
                     else if free then Ok(true) else if key in old(registry.tokens) then Err(Reentry) else Ok(false))
            && server.entries == (if taken then old(server.entries)[key := Entry(token, server.now + seconds * 1000)]
                                  else old(server.entries))
            && registry.tokens == (if r == Ok(true) then old(registry.tokens)[key := token] else old(registry.tokens))
  {
    if seconds < LOCK_MIN_TTL_SECONDS {
      return Err(BadTtl);
    }
    var acquired := false;
    if link != BrokenBefore {
      acquired := Free(server.entries, key, server.now);
      server.entries := SetNx(server.entries, key, token, seconds * 1000, server.now);
    }
    if link != Answered {
      return Err(Outage);
    }
    if acquired {
      registry.tokens := registry.tokens[key := token];
    } else if key in registry.tokens {
      return Err(Reentry);
    }
    r := Ok(acquired);
  }

  /** The one retry after the wait. A timeout cancels it, before or after the server
      ran the command; then the key may stay taken with nobody on record. */
  method SecondAttempt(key: string, token: nat, seconds: int, server: Server, registry: Registry, link: Link, timely: bool)
    returns (r: Result<(), LockError>)
    requires seconds >= 1
    modifies server`entries, registry
    ensures var free := key in old(server.entries) ==> old(server.entries)[key].expiry <= server.now;
            && r == (if !timely then Err(TimedOut) else if link != Answered then Err(Outage)
                     else if free then Ok(()) else Err(TimedOut))
            && server.entries == (if link != BrokenBefore && free
                                  then old(server.entries)[key := Entry(token, server.now + seconds * 1000)]
                                  else old(server.entries))
            && registry.tokens == (if r.Ok? then old(registry.tokens)[key := token] else old(registry.tokens))
  {
    var acquired := false;
    if link != BrokenBefore {
      acquired := Free(server.entries, key, server.now);
      server.entries := SetNx(server.entries, key, token, seconds * 1000, server.now);
    }
    if timely && link != Answered {
      return Err(Outage);
    }
    if !timely || !acquired {
      return Err(TimedOut);
    }
    registry.tokens := registry.tokens[key := token];
    r := Ok(());
  }

  class LockHandle {
    const key: string
    const token: nat
    var ttl: int
    var lost: bool
    var released: bool

    /** `_mark_lost`. */
    method MarkLost(registry: Registry)
      modifies this`lost, registry
      ensures lost
      ensures registry.tokens == (if (key, token) in old(registry.tokens).Items then old(registry.tokens) - {key}
                                  else old(registry.tokens))
    {
      lost := true;
      if key in registry.tokens && registry.tokens[key] == token {
        registry.tokens := registry.tokens - {key};
      }
    }

    /** Only a token that holds its key, by the server's clock, gets the new time to
        live; no other key of the server changes. */
    method Renew(seconds: Option<int>, server: Server, registry: Registry, link: Link)
      returns (r: Result<bool, LockError>)
      modifies this`ttl, this`lost, server`entries, registry
      ensures var wanted := if seconds.Some? then seconds.value else old(ttl);
              var held := key in old(server.entries) && old(server.entries)[key].token == token
                          && old(server.entries)[key].expiry > server.now;
              if old(lost) || old(released) then
                r == Ok(false) && server.entries == old(server.entries)
                && registry.tokens == old(registry.tokens) && ttl == old(ttl) && lost == old(lost)
              else if wanted < 1 || link == BrokenBefore then
                r == Err(if wanted < 1 then BadTtl else Outage)
                && server.entries == old(server.entries)
                && registry.tokens == old(registry.tokens) && ttl == old(ttl) && !lost
              else
                && server.entries == RenewScript(old(server.entries), key, token, wanted * 1000, server.now)
                && server.entries == (if held then old(server.entries)[key := Entry(token, server.now + wanted * 1000)]
                                      else old(server.entries))
                && r == (if link == Answered then Ok(held) else Err(Outage))
                && ttl == (if r == Ok(true) then wanted else old(ttl))
                && (lost <==> r == Ok(false))
                && registry.tokens == (if lost && (key, token) in old(registry.tokens).Items
                                       then old(registry.tokens) - {key} else old(registry.tokens))
    {
      if lost || released {
        return Ok(false);
      }
      var wanted := if seconds.Some? then seconds.value else ttl;
      if wanted < LOCK_MIN_TTL_SECONDS {
        return Err(BadTtl);
      }
      if link == BrokenBefore {
        return Err(Outage);
      }
      var held := Held(server.entries, key, token, server.now);
      server.entries := RenewScript(server.entries, key, token, wanted * 1000, server.now);
      if link == BrokenAfter {
        return Err(Outage);
      }
      if held {
        ttl := wanted;
        return Ok(true);
      }
      MarkLost(registry);
      r := Ok(false);
    }

    /** Only a token that holds its key deletes it; no other key changes. */
    method Release(server: Server, registry: Registry, link: Link) returns (r: Result<bool, LockError>)
      modifies this`lost, this`released, server`entries, registry
      ensures var held := key in old(server.entries) && old(server.entries)[key].token == token
                          && old(server.entries)[key].expiry > server.now;
              if old(released) || old(lost) then
                r == Ok(false) && released && lost == old(lost)
                && server.entries == old(server.entries) && registry.tokens == old(registry.tokens)
              else if link == BrokenBefore then
                r == Err(Outage) && !released && !lost
                && server.entries == old(server.entries) && registry.tokens == old(registry.tokens)
              else
                && server.entries == ReleaseScript(old(server.entries), key, token, server.now)
                && server.entries == (if held then old(server.entries) - {key} else old(server.entries))
                && r == (if link == Answered then Ok(held) else Err(Outage))
                && (released <==> link == Answered) && (lost <==> r == Ok(false))
                && registry.tokens == (if r == Ok(true) then old(registry.tokens) - {key}
                                       else if lost && (key, token) in old(registry.tokens).Items
                                       then old(registry.tokens) - {key}
                                       else old(registry.tokens))
    {
      if released {
        return Ok(false);
      }
      if lost {
        released := true;
        return Ok(false);
      }
      if link == BrokenBefore {
        return Err(Outage);
      }
      var held := Held(server.entries, key, token, server.now);
      server.entries := ReleaseScript(server.entries, key, token, server.now);
      if link == BrokenAfter {
        return Err(Outage);
      }
      released := true;
      if held {
        registry.tokens := registry.tokens - {key};
        return Ok(true);
      }
      MarkLost(registry);
      r := Ok(false);
    }
  }
}
