/** The time-limited cache both services keep in a `Map`: entries stamped with the time they
    were written; a read treats an entry as present only while it is younger than the timeout
    and forgets it otherwise; a write that leaves the cache larger than a threshold sweeps out
    the entries older than the timeout. Times are milliseconds, passed in as `now`. */
module TtlCache {
  import opened Js

  datatype Entry<V> = Entry(data: V, timestamp: int)

  /** What a read accepts: strictly younger than the timeout. */
  predicate IsFresh<V>(e: Entry<V>, now: int, timeout: int) {
    now - e.timestamp < timeout
  }

  /** What the sweep removes: strictly older than the timeout. */
  predicate IsStale<V>(e: Entry<V>, now: int, timeout: int) {
    now - e.timestamp > timeout
  }

  /** The data a read at `now` returns. */
  function Read<V>(m: map<string, Entry<V>>, key: string, now: int, timeout: int): Option<V> {
    if key in m && IsFresh(m[key], now, timeout) then Some(m[key].data) else None
  }

  /** The cache once the sweep has run at `now`. */
  function Swept<V>(m: map<string, Entry<V>>, now: int, timeout: int): map<string, Entry<V>> {
    map k | k in m && !IsStale(m[k], now, timeout) :: m[k]
  }

  /** The cache after a write at `now`, including the sweep when the size passes the threshold. */
  function AfterWrite<V>(m: map<string, Entry<V>>, key: string, data: V, now: int,
                         timeout: int, threshold: int): map<string, Entry<V>> {
    var m' := m[key := Entry(data, now)];
    if |m'| > threshold then Swept(m', now, timeout) else m'
  }

  /** A read right after a write at the same instant returns what was written, whether or not
      the write swept the cache. */
  lemma ReadAfterWrite<V>(m: map<string, Entry<V>>, key: string, data: V, now: int,
                          timeout: int, threshold: int)
    requires timeout > 0
    ensures Read(AfterWrite(m, key, data, now, timeout, threshold), key, now, timeout) == Some(data)
  {
  }

  /** A write changes what reads at the same instant see only at its own key: the sweep removes
      nothing a read would have returned. */
  lemma WriteKeepsOtherReads<V>(m: map<string, Entry<V>>, key: string, data: V, now: int,
                                timeout: int, threshold: int, other: string)
    requires other != key
    ensures Read(AfterWrite(m, key, data, now, timeout, threshold), other, now, timeout)
         == Read(m, other, now, timeout)
  {
  }

  /** The two boundaries differ: an entry aged exactly the timeout is no longer returned by a
      read, yet the sweep keeps it. */
  lemma ExactlyTimeoutEntry<V>(m: map<string, Entry<V>>, key: string, now: int, timeout: int)
    requires key in m && now - m[key].timestamp == timeout
    ensures Read(m, key, now, timeout) == None
    ensures key in Swept(m, now, timeout)
  {
  }

  /** The sweep only removes, never adds or alters, and never removes a fresh entry. */
  lemma SweptIsSubMap<V>(m: map<string, Entry<V>>, now: int, timeout: int)
    ensures forall k :: k in Swept(m, now, timeout) <==> k in m && !IsStale(m[k], now, timeout)
    ensures forall k :: k in Swept(m, now, timeout) ==> Swept(m, now, timeout)[k] == m[k]
    ensures |Swept(m, now, timeout)| <= |m|
  {
    var s := Swept(m, now, timeout);
    assert s.Keys <= m.Keys;
    SubsetCard(s.Keys, m.Keys);
  }

  lemma {:induction false} SubsetCard<K>(a: set<K>, b: set<K>)
    requires a <= b
    ensures |a| <= |b|
    decreases b
  {
    if a != {} {
      var x :| x in a;
      SubsetCard(a - {x}, b - {x});
    }
  }

  /** The cache kept by one service. */
  class Cache<V> {
    var entries: map<string, Entry<V>>
    const timeout: int
    const threshold: int

    constructor (timeout: int, threshold: int)
      ensures entries == map[] && this.timeout == timeout && this.threshold == threshold
    {
      entries := map[];
      this.timeout := timeout;
      this.threshold := threshold;
    }

    /** `getFromCache`: the data if the entry is fresh; otherwise the key is deleted. */
    method Get(key: string, now: int) returns (r: Option<V>)
      modifies this`entries
      ensures r == Read(old(entries), key, now, timeout)
      ensures entries == if r.Some? then old(entries) else old(entries) - {key}
    {
      if key in entries && now - entries[key].timestamp < timeout {
        r := Some(entries[key].data);
      } else {
        entries := entries - {key};
        r := None;
      }
    }

    /** `setCache`: store the data stamped with `now`, then sweep if the cache grew too large. */
    method Set(key: string, data: V, now: int)
      modifies this`entries
      ensures entries == AfterWrite(old(entries), key, data, now, timeout, threshold)
    {
      entries := entries[key := Entry(data, now)];
      if |entries| > threshold {
        Sweep(now);
      }
    }

    /** The sweep loop: every entry is visited once and deleted when stale. */
    method Sweep(now: int)
      modifies this`entries
      ensures entries == Swept(old(entries), now, timeout)
    {
      ghost var start := entries;
      var pending := entries.Keys;
      while pending != {}
        invariant pending <= start.Keys
        invariant entries == map k | k in start && (k in pending || !IsStale(start[k], now, timeout)) :: start[k]
        decreases pending
      {
        var k :| k in pending;
        if now - entries[k].timestamp > timeout {
          entries := entries - {k};
        }
        pending := pending - {k};
      }
    }

    /** `clearCache`. */
    method Clear()
      modifies this`entries
      ensures entries == map[]
    {
      entries := map[];
    }

    /** `cache.size`. */
    function Size(): nat
      reads this
    {
      |entries|
    }
  }
}
