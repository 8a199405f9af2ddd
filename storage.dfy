/**
 * The key-value store of `Storage`: a map from key to a value with an
 * optional expiry instant.  Expired entries are not removed by a timer;
 * `Get`, `RemoveExpiredKey` and `GetAllKeys` erase them when they meet
 * them.  The clock (`steady_clock::now()`) is the parameter `now`, in
 * milliseconds.
 */
module Storage {
  import opened CLib

  /** `ValueWithExpiry`: `expiry` is `None` when `hasExpiry` is false, else `Some(expiryTime)`. */
  datatype Entry = Entry(value: string, expiry: Option<int>)

  /** The test `hasExpiry && now >= expiryTime` shared by the three sweeping operations. */
  predicate Expired(e: Entry, now: int)
  {
    e.expiry.Some? && now >= e.expiry.value
  }

  /** What `get` answers at time `now`: the value of a present, unexpired entry. */
  function Lookup(m: map<string, Entry>, key: string, now: int): Option<string>
  {
    if key in m && !Expired(m[key], now) then Some(m[key].value) else None
  }

  /** The map after `get(key)` or `removeExpiredKey(key)`: the entry is erased when it has expired. */
  function Purge(m: map<string, Entry>, key: string, now: int): map<string, Entry>
  {
    if key in m && Expired(m[key], now) then m - {key} else m
  }

  /** The entries that have not expired at `now`. */
  function Live(m: map<string, Entry>, now: int): map<string, Entry>
  {
    map k | k in m && !Expired(m[k], now) :: m[k]
  }

  /** The map part-way through the sweep of `getAllKeys`: the keys still in `todo` are not yet visited. */
  function Swept(m: map<string, Entry>, todo: set<string>, now: int): map<string, Entry>
  {
    map k | k in m && (k in todo || !Expired(m[k], now)) :: m[k]
  }

  predicate NoDuplicates(s: seq<string>)
  {
    forall i, j :: 0 <= i < j < |s| ==> s[i] != s[j]
  }

  class Store {
    /** `data_` */
    var data: map<string, Entry>

    constructor()
      ensures data == map[]
    {
      data := map[];
    }

    /** `set`: stores `value` under `key` with no expiry, replacing any entry. */
    method Set(key: string, value: string)
      modifies this
      ensures data == old(data)[key := Entry(value, None)]
    {
      data := data[key := Entry(value, None)];
    }

    /** `setWithExpiry`: stores `value` under `key`, expiring `expiryMs` after `now`. */
    method SetWithExpiry(key: string, value: string, expiryMs: int, now: nat)
      modifies this
      ensures data == old(data)[key := Entry(value, Some(now + expiryMs))]
    {
      data := data[key := Entry(value, Some(now + expiryMs))];
    }

    /** `get`: the value of an unexpired entry; an expired entry is erased and reads as absent. */
    method Get(key: string, now: nat) returns (r: Option<string>)
      modifies this
      ensures r == Lookup(old(data), key, now)
      ensures data == Purge(old(data), key, now)
    {
      if key !in data {
        return None;
      }
      var e := data[key];
      if e.expiry.Some? {
        if now >= e.expiry.value {
          data := data - {key};
          return None;
        }
      }
      return Some(e.value);
    }

    /** `removeExpiredKey`: erases `key` when its entry has an expiry that has passed. */
    method RemoveExpiredKey(key: string, now: nat)
      modifies this
      ensures data == Purge(old(data), key, now)
    {
      if key in data && data[key].expiry.Some? {
        if now >= data[key].expiry.value {
          data := data - {key};
        }
      }
    }

    /**
     * `getAllKeys`: visits every entry once, in the map's iteration order,
     * which the model leaves arbitrary, erasing the expired ones and listing the others.
     */
    method GetAllKeys(now: nat) returns (keys: seq<string>)
      modifies this
      ensures data == Live(old(data), now)
      ensures forall k :: k in keys <==> k in data
      ensures NoDuplicates(keys)
    {
      keys := [];
      var todo := data.Keys;
      ghost var m := data;
      while todo != {}
        invariant todo <= m.Keys
        invariant data == Swept(m, todo, now)
        invariant forall k :: k in keys <==> k in m && k !in todo && !Expired(m[k], now)
        invariant NoDuplicates(keys)
        decreases |todo|
      {
        var k :| k in todo;
        if data[k].expiry.Some? && now >= data[k].expiry.value {
          data := data - {k};
        } else {
          keys := keys + [k];
        }
        todo := todo - {k};
      }
      assert Swept(m, {}, now) == Live(m, now);
    }
  }

  // ---------------------------------------------------------------------
  // Properties

  /** After `set(k, v)`, `get(k)` returns `v` at every time: the entry never expires. */
  lemma {:induction false} SetThenLookup(m: map<string, Entry>, k: string, v: string, now: int)
    ensures Lookup(m[k := Entry(v, None)], k, now) == Some(v)
  {
  }

  /** After `setWithExpiry(k, v, ms)` at `t0`, `get(k)` at `t` returns `v` iff `t < t0 + ms`. */
  lemma {:induction false} SetWithExpiryThenLookup(m: map<string, Entry>, k: string, v: string, t0: int, ms: int, t: int)
    ensures Lookup(m[k := Entry(v, Some(t0 + ms))], k, t) == if t < t0 + ms then Some(v) else None
  {
  }

  /** Storing under `k` changes no other key, at any time. */
  lemma {:induction false} StoreTouchesOnlyKey(m: map<string, Entry>, k: string, e: Entry, other: string, now: int)
    requires other != k
    ensures (other in m[k := e]) == (other in m)
    ensures other in m ==> m[k := e][other] == m[other]
    ensures Lookup(m[k := e], other, now) == Lookup(m, other, now)
  {
  }

  /** An entry that has expired stays expired: its expiry instant never moves. */
  lemma {:induction false} ExpiredStaysExpired(m: map<string, Entry>, k: string, t: int, later: int)
    requires t <= later
    ensures Lookup(m, k, t).None? ==> Lookup(m, k, later).None?
  {
  }

  /**
   * Lazy deletion is not observable: after a purge at `now`, lookups at
   * `now` or later answer as they did on the map before the purge.
   */
  lemma {:induction false} PurgeIsUnobservable(m: map<string, Entry>, k: string, now: int, other: string, later: int)
    requires now <= later
    ensures Lookup(Purge(m, k, now), other, later) == Lookup(m, other, later)
  {
  }

  /** A purge erases at most the one key, and only when it has expired. */
  lemma {:induction false} PurgeErasesOnlyExpired(m: map<string, Entry>, k: string, now: int)
    ensures Purge(m, k, now).Keys == if k in m && Expired(m[k], now) then m.Keys - {k} else m.Keys
    ensures forall j :: j in Purge(m, k, now) ==> Purge(m, k, now)[j] == m[j]
  {
  }

  /**
   * The sweep of `getAllKeys` keeps exactly the unexpired entries, unchanged,
   * and lookups at `now` or later answer as before it.
   */
  lemma {:induction false} LiveKeepsUnexpired(m: map<string, Entry>, now: int, k: string, later: int)
    requires now <= later
    ensures k in Live(m, now) <==> k in m && !Expired(m[k], now)
    ensures k in Live(m, now) ==> Live(m, now)[k] == m[k]
    ensures Lookup(Live(m, now), k, later) == Lookup(m, k, later)
  {
  }

  /** A second sweep at the same instant changes nothing. */
  lemma {:induction false} LiveIdempotent(m: map<string, Entry>, now: int)
    ensures Live(Live(m, now), now) == Live(m, now)
  {
  }
}
