/**
 * The in-memory response cache: a JavaScript Map from key to (audio, expiry),
 * which iterates in insertion order. Adding to a full cache first deletes the
 * earliest-inserted key; reads expire entries lazily; a timer per addition
 * deletes the entry later if it has expired by then.
 */
module Cache {
  import opened Wrappers
  import Transcode

  datatype Entry = Entry(value: Transcode.Audio, expiry: int)

  /** The Map's contents: its keys in insertion order and what each key holds. */
  datatype Store = Store(order: seq<string>, entries: map<string, Entry>) {

    ghost predicate Valid() {
      Distinct(order) && (forall k :: k in entries <==> k in order)
    }

    function Size(): nat {
      |order|
    }

    /** `map.delete(key)`. */
    function Delete(key: string): Store {
      Store(Without(order, key), entries - {key})
    }

    /** `map.set(key, e)`: an existing key keeps its position, a new one goes last. */
    function Set(key: string, e: Entry): Store {
      if key in entries then Store(order, entries[key := e]) else Store(order + [key], entries[key := e])
    }

    /** `addToCache(key, value)` at time `now` (milliseconds). */
    function Add(key: string, value: Transcode.Audio, now: int, ttlSeconds: nat, maxSize: int): Store {
      var evicted := if Size() >= maxSize && |order| > 0 then Delete(order[0]) else this;
      evicted.Set(key, Entry(value, now + ttlSeconds * 1000))
    }

    /** `getFromCache(key)` at time `now`: the value, and the store after lazy expiry. */
    function Get(key: string, now: int): (Option<Transcode.Audio>, Store) {
      if key !in entries then (None, this)
      else if entries[key].expiry <= now then (None, Delete(key))
      else (Some(entries[key].value), this)
    }

    /** The timer callback for key, firing at `now`. */
    function Sweep(key: string, now: int): Store {
      if key in entries && entries[key].expiry <= now then Delete(key) else this
    }
  }

  /** The keys of s without x, in their order. */
  function Without(s: seq<string>, x: string): seq<string> {
    if |s| == 0 then [] else if s[0] == x then Without(s[1..], x) else [s[0]] + Without(s[1..], x)
  }

  /** No key occurs twice. */
  ghost predicate Distinct(s: seq<string>) {
    forall i, j :: 0 <= i < j < |s| ==> s[i] != s[j]
  }

  /** Removing a key keeps the others, drops exactly one occurrence from distinct keys, and keeps them distinct. */
  lemma {:induction false} WithoutFacts(s: seq<string>, x: string)
    ensures forall y :: y in Without(s, x) <==> y in s && y != x
    ensures x in s && Distinct(s) ==> |Without(s, x)| == |s| - 1
    ensures x !in s ==> Without(s, x) == s
    ensures Distinct(s) ==> Distinct(Without(s, x))
  {
    if |s| > 0 {
      WithoutFacts(s[1..], x);
      assert forall i :: 0 < i < |s| ==> s[i] in s[1..];
      assert Distinct(s) ==> Distinct(s[1..]) && s[0] !in s[1..] by {
        if Distinct(s) {
          assert forall i :: 0 < i < |s| ==> s[i] != s[0];
          assert forall i, j :: 0 <= i < j < |s| - 1 ==> s[1..][i] == s[i + 1] && s[1..][j] == s[j + 1];
        }
      }
      if s[0] != x {
        assert x !in s ==> [s[0]] + s[1..] == s;
      }
    }
  }

  const EmptyStore := Store([], map[])

  /** The size bound a store keeps under additions: maxSize, but at least the one entry just added. */
  function Capacity(maxSize: int): nat {
    if maxSize >= 1 then maxSize else 1
  }

  /** Deleting keeps the store well formed and removes one entry exactly when the key was present. */
  lemma DeleteKeepsInvariant(s: Store, key: string)
    requires s.Valid()
    ensures s.Delete(key).Valid()
    ensures s.Delete(key).Size() == if key in s.entries then s.Size() - 1 else s.Size()
    ensures s.Delete(key).entries.Keys == s.entries.Keys - {key}
  {
    WithoutFacts(s.order, key);
  }

  /** Adding keeps the store well formed and within capacity, and evicts at most the oldest key. */
  lemma AddKeepsInvariant(s: Store, key: string, value: Transcode.Audio, now: int, ttl: nat, maxSize: int)
    requires s.Valid() && s.Size() <= Capacity(maxSize)
    ensures s.Add(key, value, now, ttl, maxSize).Valid()
    ensures s.Add(key, value, now, ttl, maxSize).Size() <= Capacity(maxSize)
  {
    if |s.order| > 0 {
      DeleteKeepsInvariant(s, s.order[0]);
    }
    var evicted := if s.Size() >= maxSize && |s.order| > 0 then s.Delete(s.order[0]) else s;
    assert evicted.Valid();
    assert evicted.Size() < Capacity(maxSize) || key in evicted.entries || (s.Size() < maxSize);
  }

  /** When full, exactly the first-inserted entry goes (unless it is the key being re-added); nothing else changes. */
  lemma AddEvictsOldest(s: Store, key: string, value: Transcode.Audio, now: int, ttl: nat, maxSize: int)
    requires s.Valid() && |s.order| > 0 && s.Size() >= maxSize
    ensures var t := s.Add(key, value, now, ttl, maxSize);
      t.order == Without(s.order, s.order[0]) + (if key in s.entries && key != s.order[0] then [] else [key]) &&
      t.entries.Keys == s.entries.Keys - {s.order[0]} + {key} &&
      t.entries[key] == Entry(value, now + ttl * 1000) &&
      (forall k :: k in t.entries && k != key ==> t.entries[k] == s.entries[k])
  {
    assert s.order[0] in s.entries;
  }

  /** Below capacity nothing is evicted. */
  lemma AddWithRoom(s: Store, key: string, value: Transcode.Audio, now: int, ttl: nat, maxSize: int)
    requires s.Valid() && s.Size() < maxSize
    ensures var t := s.Add(key, value, now, ttl, maxSize);
      t.entries == s.entries[key := Entry(value, now + ttl * 1000)] &&
      t.order == if key in s.entries then s.order else s.order + [key]
  {
  }

  /** Reading back before the entry's lifetime ends returns what was added, and changes nothing. */
  lemma AddThenGet(s: Store, key: string, value: Transcode.Audio, now: int, ttl: nat, maxSize: int, later: int)
    requires later < now + ttl * 1000
    ensures s.Add(key, value, now, ttl, maxSize).Get(key, later) ==
      (Some(value), s.Add(key, value, now, ttl, maxSize))
  {
  }

  /** A read at or after the expiry misses and removes the entry. */
  lemma GetExpired(s: Store, key: string, now: int)
    requires s.Valid() && key in s.entries && s.entries[key].expiry <= now
    ensures s.Get(key, now).0 == None
    ensures key !in s.Get(key, now).1.entries
    ensures s.Get(key, now).1.Size() == s.Size() - 1
    ensures s.Get(key, now).1.entries == s.entries - {key} && s.Get(key, now).1.order == Without(s.order, key)
  {
    DeleteKeepsInvariant(s, key);
  }

  /** A read before the expiry returns the stored value and changes nothing. */
  lemma GetFresh(s: Store, key: string, now: int)
    requires key in s.entries && s.entries[key].expiry > now
    ensures s.Get(key, now) == (Some(s.entries[key].value), s)
  {
  }

  /** A read keeps the store well formed and never grows it. */
  lemma GetKeepsInvariant(s: Store, key: string, now: int)
    requires s.Valid()
    ensures s.Get(key, now).1.Valid()
    ensures s.Get(key, now).1.Size() <= s.Size()
    ensures s.Get(key, now).1.entries.Keys <= s.entries.Keys
  {
    DeleteKeepsInvariant(s, key);
  }

  /** A read of an absent key misses and changes nothing. */
  lemma GetAbsent(s: Store, key: string, now: int)
    requires key !in s.entries
    ensures s.Get(key, now) == (None, s)
  {
  }

  /** The timer of an earlier addition does not remove an entry re-added later with a later expiry. */
  lemma SweepSparesReAdded(s: Store, key: string, v1: Transcode.Audio, v2: Transcode.Audio, t1: int, t2: int, ttl: nat, maxSize: int)
    requires t1 < t2
    ensures var firedAt := t1 + ttl * 1000 + 1000;
      var s2 := s.Add(key, v1, t1, ttl, maxSize).Add(key, v2, t2, ttl, maxSize);
      firedAt < t2 + ttl * 1000 + 1000 &&
      (t1 + 1000 < t2 ==> s2.Sweep(key, firedAt) == s2)
  {
  }

  /** The timer removes an entry that was not re-added: it fires 1000 ms after the expiry. */
  lemma SweepRemovesExpired(s: Store, key: string, value: Transcode.Audio, now: int, ttl: nat, maxSize: int)
    ensures var t := s.Add(key, value, now, ttl, maxSize);
      var swept := t.Sweep(key, now + ttl * 1000 + 1000);
      key !in swept.entries && swept.entries == t.entries - {key} && swept.order == Without(t.order, key)
  {
  }

  /** Any sequence of additions from a well-formed store within capacity stays within capacity. */
  function AddAll(s: Store, items: seq<(string, Transcode.Audio, int)>, ttl: nat, maxSize: int): Store
    decreases |items|
  {
    if |items| == 0 then s
    else AddAll(s.Add(items[0].0, items[0].1, items[0].2, ttl, maxSize), items[1..], ttl, maxSize)
  }

  lemma {:induction false} CapacityHolds(s: Store, items: seq<(string, Transcode.Audio, int)>, ttl: nat, maxSize: int)
    requires s.Valid() && s.Size() <= Capacity(maxSize)
    ensures AddAll(s, items, ttl, maxSize).Valid()
    ensures maxSize >= 1 ==> AddAll(s, items, ttl, maxSize).Size() <= maxSize
    decreases |items|
  {
    if |items| > 0 {
      AddKeepsInvariant(s, items[0].0, items[0].1, items[0].2, ttl, maxSize);
      CapacityHolds(s.Add(items[0].0, items[0].1, items[0].2, ttl, maxSize), items[1..], ttl, maxSize);
    }
  }

  /** The module-level cache the request handlers share. */
  class MemoryCache {
    const ttlSeconds: nat
    const maxSize: int
    var order: seq<string>
    var entries: map<string, Entry>

    function State(): Store
      reads this
    {
      Store(order, entries)
    }

    ghost predicate Valid()
      reads this
    {
      State().Valid() && |order| <= Capacity(maxSize)
    }

    constructor (ttlSeconds: nat, maxSize: int)
      ensures Valid() && State() == EmptyStore
      ensures this.ttlSeconds == ttlSeconds && this.maxSize == maxSize
    {
      this.ttlSeconds := ttlSeconds;
      this.maxSize := maxSize;
      order := [];
      entries := map[];
    }

    /** `addToCache`: returns when its clean-up timer fires. */
    method AddToCache(key: string, value: Transcode.Audio, now: int) returns (sweepAt: int)
      requires Valid()
      modifies this
      ensures Valid()
      ensures State() == old(State()).Add(key, value, now, ttlSeconds, maxSize)
      ensures sweepAt == now + ttlSeconds * 1000 + 1000
    {
      ghost var before := State();
      AddKeepsInvariant(before, key, value, now, ttlSeconds, maxSize);
      if |order| >= maxSize && |order| > 0 {
        var firstKey := order[0];
        order := Without(order, firstKey);
        entries := entries - {firstKey};
      }
      ghost var evicted := State();
      assert evicted == if before.Size() >= maxSize && |before.order| > 0 then before.Delete(before.order[0]) else before;
      var expiryTime := now + ttlSeconds * 1000;
      if key !in entries {
        order := order + [key];
      }
      entries := entries[key := Entry(value, expiryTime)];
      assert State() == evicted.Set(key, Entry(value, expiryTime));
      sweepAt := expiryTime + 1000;
    }

    /** `getFromCache`: the stored value, or None when absent or expired (an expired entry is deleted). */
    method GetFromCache(key: string, now: int) returns (value: Option<Transcode.Audio>)
      requires Valid()
      modifies this
      ensures Valid()
      ensures (value, State()) == old(State()).Get(key, now)
    {
      if key !in entries {
        return None;
      }
      var item := entries[key];
      if item.expiry <= now {
        DeleteKeepsInvariant(State(), key);
        order := Without(order, key);
        entries := entries - {key};
        return None;
      }
      return Some(item.value);
    }

    /** The body of the timer set by AddToCache, run at time `now`. */
    method SweepExpired(key: string, now: int)
      requires Valid()
      modifies this
      ensures Valid()
      ensures State() == old(State()).Sweep(key, now)
    {
      if key in entries {
        var item := entries[key];
        if item.expiry <= now {
          DeleteKeepsInvariant(State(), key);
          order := Without(order, key);
          entries := entries - {key};
        }
      }
    }
  }
}
