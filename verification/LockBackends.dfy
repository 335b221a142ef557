/** The three lock tables. Each call is one step of the abstract lock; they differ only
    in what they answer at, and after, the instant a grant runs out. */
module LockBackends {
  import opened Lifecycle
  import opened Locks

  /** The handle a memory lock hands out; it remembers that it was released. */
  class MemoryLock {
    const value: Handle
    var released: bool

    constructor (value: Handle)
      ensures this.value == value && !released
    {
      this.value := value;
      released := false;
    }
  }

  class MemoryLocks {
    var locks: map<Resource, MemoryLock>

    ghost function View(): Held
      reads this
    {
      map r | r in locks :: locks[r].value
    }

    /** No lock in the table was released; each lies under its own resource. */
    ghost predicate Valid()
      reads this, locks.Values
    {
      forall r :: r in locks ==> !locks[r].released && locks[r].value.resource == r && locks[r].value.until.At?
    }

    constructor ()
      ensures Valid() && View() == map[]
    {
      locks := map[];
    }

    /** Granted as soon as the instant of expiry is reached. */
    method AcquireLock(resource: Resource, owner: Owner, ttl: Time, now: Time) returns (lock: MemoryLock?)
      requires Valid()
      modifies this
      ensures Valid()
      ensures lock == null <==> resource in old(locks) && !RunOut(old(View())[resource].until, now)
      ensures lock != null ==> fresh(lock) && !lock.released
      ensures var call, answer := Acquire(resource, owner, At(now + ttl), now), if lock == null then NotHeld else Granted(lock.value);
        Allowed(old(View()), call, answer) && View() == Apply(old(View()), call, answer)
    {
      if resource in locks && now < locks[resource].value.until.t {
        return null;
      }
      lock := new MemoryLock(Handle(resource, owner, At(now + ttl)));
      locks := locks[resource := lock];
    }

    /** Owner ids are unique, so the table holds this very lock or somebody else's. */
    ghost predicate OwnersApart(lock: MemoryLock)
      reads this
    {
      forall r :: r in locks && locks[r].value.owner == lock.value.owner ==> locks[r] == lock
    }

    method Release(lock: MemoryLock, now: Time) returns (ok: bool)
      requires Valid() && OwnersApart(lock)
      modifies this, lock
      ensures Valid()
      ensures ok <==> HeldBy(old(View()), lock.value)
      ensures lock.released == (old(lock.released) || ok)
      ensures var call, answer := Call.Release(lock.value, now), if ok then Released else NotHeld;
        Allowed(old(View()), call, answer) && View() == Apply(old(View()), call, answer)
    {
      if lock.released {
        return false;
      }
      var resource := lock.value.resource;
      if resource !in locks || locks[resource].value.owner != lock.value.owner {
        return false;
      }
      locks := locks - {resource};
      lock.released := true;
      return true;
    }
  }

  class PostgresLocks {
    var rows: map<Resource, Handle>

    constructor ()
      ensures rows == map[]
    {
      rows := map[];
    }

    ghost predicate Valid()
      reads this
    {
      forall r :: r in rows ==> rows[r].resource == r && rows[r].until.At?
    }

    /** The row is dropped only when it expired before now: at the instant of expiry
        the lock is still held. */
    method AcquireLock(resource: Resource, owner: Owner, ttl: Time, now: Time) returns (ok: bool)
      requires Valid()
      modifies this
      ensures Valid()
      ensures ok <==> (resource in old(rows) ==> !Blocks(old(rows)[resource].until, now))
      ensures var call := Acquire(resource, owner, At(now + ttl), now);
        var answer := if ok then Granted(Handle(resource, owner, At(now + ttl))) else NotHeld;
        Allowed(old(rows), call, answer) && rows == Apply(old(rows), call, answer)
    {
      if resource in rows && rows[resource].until.t < now {
        rows := rows - {resource};
      }
      if resource in rows {
        return false;
      }
      rows := rows[resource := Handle(resource, owner, At(now + ttl))];
      return true;
    }

    method Release(lock: Handle, now: Time) returns (ok: bool)
      requires Valid()
      modifies this
      ensures Valid()
      ensures ok <==> HeldBy(old(rows), lock)
      ensures var call, answer := Call.Release(lock, now), if ok then Released else NotHeld;
        Allowed(old(rows), call, answer) && rows == Apply(old(rows), call, answer)
    {
      ok := lock.resource in rows && rows[lock.resource].owner == lock.owner;
      if ok {
        rows := rows - {lock.resource};
      }
    }
  }

  class RedisLocks {
    /** Keys with their expiry; a key that ran out may still be there, unseen. */
    var keys: map<Resource, Handle>

    constructor ()
      ensures keys == map[]
    {
      keys := map[];
    }

    /** Does a command at this instant see the key? The server decides at the very
        instant the key runs out. */
    ghost predicate Sees(seen: bool, resource: Resource, now: Time)
      reads this
    {
      if resource !in keys then !seen
      else if RunOut(keys[resource].until, now) && Blocks(keys[resource].until, now) then true
      else seen == Blocks(keys[resource].until, now)
    }

    /** SET NX with an expiry; a time to live of zero or less sets none. */
    method AcquireLock(resource: Resource, owner: Owner, ttl: Time, now: Time, seen: bool) returns (ok: bool)
      requires Sees(seen, resource, now)
      modifies this
      ensures ok == !seen
      ensures var until := if ttl <= 0 then Forever else At(now + ttl);
        var call, answer := Acquire(resource, owner, until, now), if ok then Granted(Handle(resource, owner, until)) else NotHeld;
        Allowed(old(keys), call, answer) && keys == Apply(old(keys), call, answer)
    {
      if seen {
        return false;
      }
      keys := keys[resource := Handle(resource, owner, if ttl <= 0 then Forever else At(now + ttl))];
      return true;
    }

    /** The release script: a key that has run out is not there to be deleted. */
    method Release(lock: Handle, now: Time, seen: bool) returns (ok: bool)
      requires Sees(seen, lock.resource, now)
      modifies this
      ensures ok <==> seen && HeldBy(old(keys), lock)
      ensures var call, answer := Call.Release(lock, now), if ok then Released else NotHeld;
        Allowed(old(keys), call, answer) && keys == Apply(old(keys), call, answer)
    {
      if seen && keys[lock.resource].owner == lock.owner {
        keys := keys - {lock.resource};
        return true;
      }
      return false;
    }
  }
}
