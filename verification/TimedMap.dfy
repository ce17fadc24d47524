/** The expiring map (control/expire_map.go): values with a deadline each, removed lazily by
    readers and eagerly by a janitor.  Abstractly a map from keys to (value, deadline) pairs,
    observed through `At`, the entries still live at a given time.  Time is an integer in
    nanoseconds; a deadline of 0 means "never". */
module TimedMap {
  import opened Text

  type Entries<!K, T> = map<K, (T, int)>

  predicate Live<T>(e: (T, int), now: int) {
    e.1 <= 0 || now <= e.1
  }

  /** What a reader can see at time `now`. */
  function At<K(!new), T>(m: Entries<K, T>, now: int): (r: Entries<K, T>)
    ensures forall k :: k in r <==> k in m && Live(m[k], now)
    ensures forall k :: k in r ==> r[k] == m[k]
  {
    map k | k in m && Live(m[k], now) :: m[k]
  }

  /** A lookup removes the entry it finds expired. */
  function AfterGet<K, T>(m: Entries<K, T>, k: K, now: int): Entries<K, T> {
    if k in m && !Live(m[k], now) then m - {k} else m
  }

  function Deadline(ttl: int, now: int): int {
    if ttl > 0 then now + ttl else 0
  }

  /** Dropping what has expired earlier loses nothing a later reader could see. */
  lemma AtLater<K(!new), T>(m: Entries<K, T>, t: int, later: int)
    requires t <= later
    ensures At(At(m, t), later) == At(m, later)
  {
  }

  /** A stored value is visible exactly until its time to live has passed, and nothing else moves. */
  lemma AtAfterSet<K(!new), T>(m: Entries<K, T>, k: K, v: T, ttl: int, now: int, t: int)
    requires 0 <= now <= t
    ensures var m' := m[k := (v, Deadline(ttl, now))];
      && (k in At(m', t) <==> ttl <= 0 || t <= now + ttl)
      && (k in At(m', t) ==> At(m', t)[k].0 == v)
      && At(m', t) - {k} == At(m, t) - {k}
  {
  }

  lemma AtUpdateOther<K(!new), T>(m: Entries<K, T>, k: K, e: (T, int), t: int)
    ensures At(m[k := e], t) - {k} == At(m, t) - {k}
    ensures At(m - {k}, t) == At(m, t) - {k}
  {
  }

  class ExpireMap<K(==, !new), T> {
    var data: map<K, T>
    var expiration: map<K, int>
    const ttl: int

    ghost predicate Valid()
      reads this
    {
      expiration.Keys <= data.Keys
    }

    ghost function Entries(): (m: Entries<K, T>)
      reads this
      ensures m.Keys == data.Keys
    {
      map k | k in data :: (data[k], if k in expiration then expiration[k] else 0)
    }

    constructor (ttl: int)
      ensures Valid() && this.ttl == ttl && Entries() == map[]
    {
      this.ttl := ttl;
      data, expiration := map[], map[];
    }

    method Set(key: K, value: T, now: int)
      requires Valid()
      modifies this
      ensures Valid() && Entries() == old(Entries())[key := (value, Deadline(ttl, now))]
    {
      var deadline := if ttl > 0 then now + ttl else 0;
      data := data[key := value];
      if deadline == 0 {
        expiration := expiration - {key};
      } else {
        expiration := expiration[key := deadline];
      }
    }

    /** Claims `key` exactly when no live entry holds it. */
    method TrySetIfAbsent(key: K, value: T, now: int) returns (claimed: bool)
      requires Valid()
      modifies this
      ensures Valid() && claimed == (key !in At(old(Entries()), now))
      ensures Entries() == if claimed then old(Entries())[key := (value, Deadline(ttl, now))] else old(Entries())
    {
      if key in expiration && expiration[key] > 0 && now > expiration[key] {
        data := data - {key};
        expiration := expiration - {key};
      }
      if key in data {
        return false;
      }
      data := data[key := value];
      if ttl > 0 {
        expiration := expiration[key := now + ttl];
      } else {
        expiration := expiration - {key};
      }
      return true;
    }

    /** Answers from the live view; the lazy removal is invisible from `now` on. */
    method Get(key: K, now: int) returns (r: Option<T>)
      requires Valid()
      modifies this
      ensures Valid()
      ensures r == if key in At(old(Entries()), now) then Some(old(Entries())[key].0) else None
      ensures Entries() == AfterGet(old(Entries()), key, now)
      ensures forall t :: now <= t ==> At(Entries(), t) == At(old(Entries()), t)
    {
      if key !in data {
        return None;
      }
      var val := data[key];
      if key in expiration && expiration[key] > 0 && now > expiration[key] {
        data := data - {key};
        expiration := expiration - {key};
        return None;
      }
      return Some(val);
    }

    method Delete(key: K)
      requires Valid()
      modifies this
      ensures Valid() && Entries() == old(Entries()) - {key}
    {
      data := data - {key};
      expiration := expiration - {key};
    }

    /** One janitor round, in whatever order the keys come. */
    method Sweep(now: int)
      requires Valid()
      modifies this
      ensures Valid() && Entries() == At(old(Entries()), now)
      ensures forall t :: now <= t ==> At(Entries(), t) == At(old(Entries()), t)
    {
      var todo := expiration.Keys;
      while todo != {}
        invariant Valid() && todo <= expiration.Keys
        invariant forall k :: k in data ==> k in old(data) && data[k] == old(data[k])
        invariant forall k :: k in expiration <==> k in old(expiration) && k in data
        invariant forall k :: k in expiration ==> expiration[k] == old(expiration[k])
        invariant forall k :: k in old(data) && Live(old(Entries())[k], now) ==> k in data
        invariant forall k :: k in data && k !in todo ==> Live(old(Entries())[k], now)
        decreases |todo|
      {
        var k :| k in todo;
        todo := todo - {k};
        if expiration[k] > 0 && now > expiration[k] {
          expiration := expiration - {k};
          data := data - {k};
        }
      }
    }
  }
}
