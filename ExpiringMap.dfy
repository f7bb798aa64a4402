/**
 * The time-to-live map both components keep their state in (a cachetools
 * `TTLCache`). Each stored entry remembers when it was last written; an entry
 * is visible only while less than `ttl` seconds have passed since then, and
 * every write refreshes that time. A write first drops the entries that have
 * expired and, when the key is new and the store is still full, evicts one
 * stored entry (the `victim`) to stay within capacity.
 */
module ExpiringMap {
  import opened Wrappers

  /** A stored value together with the time of its last write. */
  datatype Entry<V> = Entry(value: V, written: int)

  type Store<V> = map<string, Entry<V>>

  /** An entry is live while `now - written < ttl`. */
  predicate Visible<V>(e: Entry<V>, now: int, ttl: int) {
    now - e.written < ttl
  }

  /** Lookup at time `now`: expired entries read as absent. */
  function Get<V>(s: Store<V>, k: string, now: int, ttl: int): (r: Option<V>)
    ensures r.Some? <==> k in s && now - s[k].written < ttl
    ensures r.Some? ==> r.value == s[k].value
  {
    if k in s && Visible(s[k], now, ttl) then Some(s[k].value) else None
  }

  /** The entries that are still live at `now`. */
  function Purge<V>(s: Store<V>, now: int, ttl: int): (r: Store<V>)
    ensures forall k :: k in s ==> (k in r <==> Visible(s[k], now, ttl))
    ensures forall k :: k in r ==> k in s && r[k] == s[k]
  {
    map k | k in s && Visible(s[k], now, ttl) :: s[k]
  }

  /** Writing `k` at `now` must evict another entry to stay within `cap`. */
  predicate NeedsEviction<V>(s: Store<V>, k: string, now: int, ttl: int, cap: nat) {
    var live := Purge(s, now, ttl);
    k !in live && |live| >= cap
  }

  /** A victim is acceptable when it is a live entry or no eviction is needed. */
  predicate ValidVictim<V>(s: Store<V>, k: string, now: int, ttl: int, cap: nat, victim: string) {
    NeedsEviction(s, k, now, ttl, cap) ==> victim in Purge(s, now, ttl)
  }

  /** `s[k] = v` at time `now`. */
  function Put<V>(s: Store<V>, k: string, v: V, now: int, ttl: int, cap: nat, victim: string): (r: Store<V>)
    ensures k in r && r[k] == Entry(v, now)
    ensures forall k' :: k' in r && k' != k ==> k' in s && Visible(s[k'], now, ttl) && r[k'] == s[k']
    ensures !NeedsEviction(s, k, now, ttl, cap) ==> forall k' :: k' in s && Visible(s[k'], now, ttl) ==> k' in r
  {
    var live := Purge(s, now, ttl);
    if NeedsEviction(s, k, now, ttl, cap) then (live - {victim})[k := Entry(v, now)]
    else live[k := Entry(v, now)]
  }

  /** Picks the entry to evict; which one is not load-bearing. */
  method ChooseVictim<V>(s: Store<V>, k: string, now: int, ttl: int, cap: nat) returns (victim: string)
    requires cap >= 1
    ensures ValidVictim(s, k, now, ttl, cap, victim)
  {
    var live := Purge(s, now, ttl);
    if k !in live && |live| >= cap {
      victim :| victim in live;
    } else {
      victim := k;
    }
  }

  /** Some acceptable victim always exists when the capacity is at least one. */
  lemma VictimExists<V>(s: Store<V>, k: string, now: int, ttl: int, cap: nat)
    requires cap >= 1
    ensures exists victim :: ValidVictim(s, k, now, ttl, cap, victim)
  {
    if NeedsEviction(s, k, now, ttl, cap) {
      var live := Purge(s, now, ttl);
      assert |live.Keys| == |live| >= 1;
      var victim :| victim in live.Keys;
      assert ValidVictim(s, k, now, ttl, cap, victim);
    } else {
      assert ValidVictim(s, k, now, ttl, cap, k);
    }
  }

  /** Purging changes nothing a reader can see, now or later. */
  lemma PurgeInvisible<V>(s: Store<V>, k: string, now: int, ttl: int, t: int)
    requires now <= t
    ensures Get(Purge(s, now, ttl), k, t, ttl) == Get(s, k, t, ttl)
  {
  }

  /** A stored value reads back until `ttl` seconds after the write, and not after. */
  lemma PutGet<V>(s: Store<V>, k: string, v: V, now: int, ttl: int, cap: nat, victim: string, t: int)
    requires now <= t
    ensures Get(Put(s, k, v, now, ttl, cap, victim), k, t, ttl) == if t < now + ttl then Some(v) else None
  {
  }

  /**
   * Writing `k` leaves every other key as readers see it, at `now` and at any
   * later time, unless that key is the entry evicted to make room.
   */
  lemma PutOthers<V>(s: Store<V>, k: string, v: V, now: int, ttl: int, cap: nat, victim: string, k': string, t: int)
    requires k' != k && now <= t
    requires !NeedsEviction(s, k, now, ttl, cap) || victim != k'
    ensures Get(Put(s, k, v, now, ttl, cap, victim), k', t, ttl) == Get(s, k', t, ttl)
  {
  }

  /** Only a victim can lose its entry, and only when the store is full. */
  lemma PutEvictsOnlyVictim<V>(s: Store<V>, k: string, v: V, now: int, ttl: int, cap: nat, victim: string, k': string)
    requires k' != k && Get(s, k', now, ttl).Some?
    requires Get(Put(s, k, v, now, ttl, cap, victim), k', now, ttl).None?
    ensures NeedsEviction(s, k, now, ttl, cap) && k' == victim
  {
  }

  lemma {:induction false} SubsetCard(a: set<string>, b: set<string>)
    requires a <= b
    ensures |a| <= |b|
    decreases |b|
  {
    if a != {} {
      var x :| x in a;
      SubsetCard(a - {x}, b - {x});
    }
  }

  /** Writes keep the store within its capacity. */
  lemma PutBounded<V>(s: Store<V>, k: string, v: V, now: int, ttl: int, cap: nat, victim: string)
    requires cap >= 1 && |s| <= cap
    requires ValidVictim(s, k, now, ttl, cap, victim)
    ensures |Put(s, k, v, now, ttl, cap, victim)| <= cap
  {
    var live := Purge(s, now, ttl);
    SubsetCard(live.Keys, s.Keys);
    assert |live| == |live.Keys| && |s| == |s.Keys|;
    if NeedsEviction(s, k, now, ttl, cap) {
      var rest := live - {victim};
      assert rest.Keys == live.Keys - {victim};
      assert |rest.Keys| == |live.Keys| - 1;
      assert rest[k := Entry(v, now)].Keys == rest.Keys + {k};
    } else if k !in live {
      assert live[k := Entry(v, now)].Keys == live.Keys + {k};
    } else {
      assert live[k := Entry(v, now)].Keys == live.Keys;
    }
  }
}
