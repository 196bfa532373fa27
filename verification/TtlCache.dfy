/** The in-memory cache of model configurations: a value map and a timestamp map changed
    side by side, entries that expire, and a size limit. */
module TtlCache {
  import opened Options

  type Time = int

  datatype Cache<K, V> = Cache(data: map<K, V>, stamp: map<K, Time>)

  /** A key that min() over the timestamps may return; ties are left open. */
  ghost predicate Oldest<K(!new), V>(c: Cache<K, V>, k: K) {
    k in c.stamp && forall j :: j in c.stamp ==> c.stamp[k] <= c.stamp[j]
  }

  /** What a put leaves; `victim` goes when the cache is full. */
  function AfterPut<K, V>(c: Cache<K, V>, max: nat, k: K, v: V, now: Time, victim: K): Cache<K, V> {
    var kept := if |c.data| >= max then Cache(c.data - {victim}, c.stamp - {victim}) else c;
    Cache(kept.data[k := v], kept.stamp[k := now])
  }

  predicate Expired(stamp: Time, ttl: Time, now: Time) {
    now - stamp > ttl
  }

  function AfterGet<K, V>(c: Cache<K, V>, ttl: Time, k: K, now: Time): Cache<K, V> {
    if k in c.stamp && Expired(c.stamp[k], ttl, now) then Cache(c.data - {k}, c.stamp - {k}) else c
  }

  function Answer<K, V>(c: Cache<K, V>, ttl: Time, k: K, now: Time): Option<V> {
    if k in c.stamp && !Expired(c.stamp[k], ttl, now) && k in c.data then Some(c.data[k]) else None
  }

  class ConfigCache<K(==, !new), V> {
    var cache: map<K, V>
    var cacheTs: map<K, Time>
    const ttl: Time
    const maxSize: nat

    constructor (ttl: Time, maxSize: nat)
      ensures this.ttl == ttl && this.maxSize == maxSize && View() == Cache(map[], map[])
    {
      this.ttl, this.maxSize := ttl, maxSize;
      cache, cacheTs := map[], map[];
    }

    function View(): Cache<K, V>
      reads this
    {
      Cache(cache, cacheTs)
    }

    method Get(key: K, now: Time) returns (r: Option<V>)
      modifies this
      ensures r == Answer(old(View()), ttl, key, now)
      ensures View() == AfterGet(old(View()), ttl, key, now)
      ensures key in old(cacheTs) && now - old(cacheTs)[key] > ttl ==>
          key !in cache && key !in cacheTs && r == None
      ensures forall k :: k != key || key !in old(cacheTs) || now - old(cacheTs)[key] <= ttl ==>
          (k in cache <==> k in old(cache)) && (k in cacheTs <==> k in old(cacheTs))
          && (k in cache ==> cache[k] == old(cache)[k]) && (k in cacheTs ==> cacheTs[k] == old(cacheTs)[k])
    {
      if key !in cacheTs {
        return None;
      }
      if now - cacheTs[key] > ttl {
        cache := cache - {key};
        cacheTs := cacheTs - {key};
        return None;
      }
      r := if key in cache then Some(cache[key]) else None;
    }

    /** min() over the timestamps; of no keys at all it raises ValueError. */
    method OldestKey() returns (oldest: Option<K>)
      ensures oldest.None? <==> cacheTs == map[]
      ensures oldest.Some? ==> Oldest(View(), oldest.value)
    {
      var todo := cacheTs.Keys;
      oldest := None;
      while todo != {}
        invariant todo <= cacheTs.Keys
        invariant oldest.None? <==> todo == cacheTs.Keys
        invariant oldest.Some? ==> oldest.value in cacheTs
        invariant oldest.Some? ==> forall j :: j in cacheTs.Keys - todo ==> cacheTs[oldest.value] <= cacheTs[j]
      {
        var k :| k in todo;
        todo := todo - {k};
        if oldest.None? || cacheTs[k] < cacheTs[oldest.value] {
          oldest := Some(k);
        }
      }
    }

    /** Fails, changing nothing, only where the cache is full with nothing to evict. */
    method Put(key: K, value: V, now: Time) returns (ok: bool, ghost victim: K)
      modifies this
      ensures ok <==> |old(cache)| < maxSize || old(cacheTs) != map[]
      ensures !ok ==> View() == old(View())
      ensures ok && |old(cache)| >= maxSize ==> Oldest(old(View()), victim)
      ensures ok ==> View() == AfterPut(old(View()), maxSize, key, value, now, victim)
    {
      victim := key;
      if |cache| >= maxSize {
        var oldest := OldestKey();
        if oldest.None? {
          return false, key;
        }
        victim := oldest.value;
        cache := cache - {oldest.value};
        cacheTs := cacheTs - {oldest.value};
      }
      cache := cache[key := value];
      cacheTs := cacheTs[key := now];
      ok := true;
    }

    method Clear()
      modifies this
      ensures View() == Cache(map[], map[])
    {
      cache, cacheTs := map[], map[];
    }
  }

  // ---------------------------------------------------------------- runs

  datatype Event<K, V> = Put(k: K, v: V, at: Time, victim: K) | Get(k: K, at: Time) | Clear(at: Time)

  function Do<K, V>(c: Cache<K, V>, ttl: Time, max: nat, e: Event<K, V>): Cache<K, V> {
    match e
    case Put(k, v, now, victim) => AfterPut(c, max, k, v, now, victim)
    case Get(k, now) => AfterGet(c, ttl, k, now)
    case Clear(_) => Cache(map[], map[])
  }

  function After<K, V>(ttl: Time, max: nat, events: seq<Event<K, V>>): Cache<K, V> {
    if events == [] then Cache(map[], map[])
    else Do(After(ttl, max, events[..|events| - 1]), ttl, max, events[|events| - 1])
  }

  /** The last event is no later than `now`. */
  predicate Until<K, V>(events: seq<Event<K, V>>, now: Time) {
    events == [] || events[|events| - 1].at <= now
  }

  /** The clock never runs backwards and every eviction takes an oldest key. */
  ghost predicate Legal<K(!new), V>(ttl: Time, max: nat, events: seq<Event<K, V>>) {
    events == [] ||
    var before, e := events[..|events| - 1], events[|events| - 1];
    && Legal(ttl, max, before) && Until(before, e.at)
    && (e.Put? && |After(ttl, max, before).data| >= max ==> Oldest(After(ttl, max, before), e.victim))
  }

  datatype Entry<V> = Entry(value: V, at: Time)

  /** The last put of a key since the last clear: what a cache without limits would know. */
  function LastPut<K(==), V>(events: seq<Event<K, V>>, k: K): Option<Entry<V>> {
    if events == [] then None
    else
      var e := events[|events| - 1];
      if e.Put? && e.k == k then Some(Entry(e.v, e.at))
      else if e.Clear? then None
      else LastPut(events[..|events| - 1], k)
  }

  /** Both maps have the same keys, within the limit, and hold what was put last. */
  ghost predicate Faithful<K(!new), V>(c: Cache<K, V>, max: nat, events: seq<Event<K, V>>) {
    && c.data.Keys == c.stamp.Keys && |c.data| <= max
    && forall k :: k in c.data ==> LastPut(events, k) == Some(Entry(c.data[k], c.stamp[k]))
  }

  lemma MinusOne<K, V>(m: map<K, V>, k: K)
    requires k in m
    ensures |m - {k}| == |m| - 1
  {
    assert m == (m - {k})[k := m[k]];
  }

  lemma PutStaysWithin<K(!new), V>(c: Cache<K, V>, max: nat, k: K, v: V, now: Time, victim: K)
    requires max > 0 && c.data.Keys == c.stamp.Keys && |c.data| <= max
    requires |c.data| >= max ==> Oldest(c, victim)
    ensures var c' := AfterPut(c, max, k, v, now, victim); c'.data.Keys == c'.stamp.Keys && |c'.data| <= max
  {
    if |c.data| >= max {
      MinusOne(c.data, victim);
    }
  }

  /** Over every run the cache is faithful. */
  lemma {:induction false} EveryRunIsFaithful<K(!new), V>(ttl: Time, max: nat, events: seq<Event<K, V>>)
    requires max > 0 && Legal(ttl, max, events)
    ensures Faithful(After(ttl, max, events), max, events)
  {
    if events != [] {
      var before, e := events[..|events| - 1], events[|events| - 1];
      EveryRunIsFaithful(ttl, max, before);
      var c := After(ttl, max, before);
      if e.Put? {
        assert events[..|events| - 1] == before;
        PutStaysWithin(c, max, e.k, e.v, e.at, e.victim);
      } else if e.Get? && e.k in c.data && Expired(c.stamp[e.k], ttl, e.at) {
        MinusOne(c.data, e.k);
      }
    }
  }

  /** A hit is the value put last, no older than the time to live. */
  lemma HitIsLastPut<K(!new), V>(ttl: Time, max: nat, events: seq<Event<K, V>>, k: K, now: Time)
    requires max > 0 && Legal(ttl, max, events)
    requires Answer(After(ttl, max, events), ttl, k, now).Some?
    ensures var hit := Answer(After(ttl, max, events), ttl, k, now).value;
            exists t :: LastPut(events, k) == Some(Entry(hit, t)) && now - t <= ttl
  {
    EveryRunIsFaithful(ttl, max, events);
    var c := After(ttl, max, events);
    assert LastPut(events, k) == Some(Entry(c.data[k], c.stamp[k]));
  }

  // ---------------------------------------------------------------- when nothing is evicted

  function PutKeys<K, V>(events: seq<Event<K, V>>): set<K> {
    if events == [] then {}
    else
      var e := events[|events| - 1];
      PutKeys(events[..|events| - 1]) + if e.Put? then {e.k} else {}
  }

  /** Whatever was put last is there, or is past its time. */
  ghost predicate Complete<K(!new), V>(c: Cache<K, V>, ttl: Time, events: seq<Event<K, V>>, now: Time) {
    forall k :: LastPut(events, k).Some? ==> k in c.data || Expired(LastPut(events, k).value.at, ttl, now)
  }

  lemma {:induction false} KeysWerePut<K(!new), V>(ttl: Time, max: nat, events: seq<Event<K, V>>)
    ensures After(ttl, max, events).data.Keys <= PutKeys(events)
  {
    if events != [] {
      KeysWerePut(ttl, max, events[..|events| - 1]);
    }
  }

  lemma SubsetSize<T>(a: set<T>, b: set<T>)
    requires a <= b
    ensures |a| <= |b|
  {
    assert b == a + (b - a);
  }

  lemma LastPutAfter<K(!new), V>(before: seq<Event<K, V>>, e: Event<K, V>, k: K)
    ensures LastPut(before + [e], k) ==
            if e.Put? && e.k == k then Some(Entry(e.v, e.at)) else if e.Clear? then None else LastPut(before, k)
  {
    assert (before + [e])[..|before|] == before;
  }

  /** One event, with room left in the cache. */
  lemma StaysComplete<K(!new), V>(c: Cache<K, V>, ttl: Time, max: nat, before: seq<Event<K, V>>, e: Event<K, V>,
                                  now: Time)
    requires Faithful(c, max, before) && Complete(c, ttl, before, now) && |c.data| < max && e.at <= now
    ensures Complete(Do(c, ttl, max, e), ttl, before + [e], now)
  {
    forall k | LastPut(before + [e], k).Some?
      ensures k in Do(c, ttl, max, e).data || Expired(LastPut(before + [e], k).value.at, ttl, now)
    {
      LastPutAfter(before, e, k);
    }
  }

  lemma NoMoreBefore<K, V>(events: seq<Event<K, V>>)
    requires events != []
    ensures |PutKeys(events[..|events| - 1])| <= |PutKeys(events)|
  {
    SubsetSize(PutKeys(events[..|events| - 1]), PutKeys(events));
  }

  lemma FewKeysLeaveRoom<K(!new), V>(ttl: Time, max: nat, events: seq<Event<K, V>>)
    requires |PutKeys(events)| < max
    ensures |After(ttl, max, events).data| < max
  {
    var c := After(ttl, max, events);
    KeysWerePut(ttl, max, events);
    SubsetSize(c.data.Keys, PutKeys(events));
    assert |c.data| == |c.data.Keys|;
  }

  lemma ReadyForTheLast<K(!new), V>(ttl: Time, max: nat, events: seq<Event<K, V>>)
    requires Legal(ttl, max, events) && |PutKeys(events)| < max && events != []
    ensures var before := events[..|events| - 1];
      && |PutKeys(before)| < max && |After(ttl, max, before).data| < max
      && Faithful(After(ttl, max, before), max, before)
  {
    NoMoreBefore(events);
    EveryRunIsFaithful(ttl, max, events[..|events| - 1]);
    FewKeysLeaveRoom(ttl, max, events[..|events| - 1]);
  }

  lemma {:induction false} FewKeysComplete<K(!new), V>(ttl: Time, max: nat, events: seq<Event<K, V>>, now: Time)
    requires Legal(ttl, max, events) && |PutKeys(events)| < max
    requires Until(events, now)
    ensures Complete(After(ttl, max, events), ttl, events, now)
  {
    if events != [] {
      var before, e := events[..|events| - 1], events[|events| - 1];
      ReadyForTheLast(ttl, max, events);
      FewKeysComplete(ttl, max, before, now);
      StaysComplete(After(ttl, max, before), ttl, max, before, e, now);
      assert events == before + [e];
    }
  }

  /** With fewer different keys than the limit the cache is exact: it answers just what a
      cache without a limit would. */
  lemma FewKeysAreExact<K(!new), V>(ttl: Time, max: nat, events: seq<Event<K, V>>, k: K, now: Time)
    requires Legal(ttl, max, events) && |PutKeys(events)| < max
    requires Until(events, now)
    ensures Answer(After(ttl, max, events), ttl, k, now) ==
            var last := LastPut(events, k);
            if last.Some? && now - last.value.at <= ttl then Some(last.value.value) else None
  {
    EveryRunIsFaithful(ttl, max, events);
    FewKeysComplete(ttl, max, events, now);
  }

  /** The bound is sharp: at the limit, putting again a key that is there evicts the oldest
      key all the same, and leaves the cache one short of its limit. */
  lemma PutAgainEvictsAnother<K(!new), V>(c: Cache<K, V>, max: nat, k: K, v: V, now: Time, victim: K)
    requires c.data.Keys == c.stamp.Keys && |c.data| == max
    requires k in c.data && Oldest(c, victim) && victim != k
    ensures var c' := AfterPut(c, max, k, v, now, victim); victim !in c'.data && |c'.data| == max - 1
  {
    MinusOne(c.data, victim);
    assert AfterPut(c, max, k, v, now, victim).data.Keys == c.data.Keys - {victim};
    assert |c.data.Keys - {victim}| == max - 1;
  }

  // ---------------------------------------------------------------- eviction and use

  /** The last hit of a key since it was put last. */
  function LastHit<K(==), V>(ttl: Time, max: nat, events: seq<Event<K, V>>, k: K): Option<Time> {
    if events == [] then None
    else
      var before, e := events[..|events| - 1], events[|events| - 1];
      if e.Clear? || (e.Put? && e.k == k) then None
      else if e.Get? && e.k == k && Answer(After(ttl, max, before), ttl, k, e.at).Some? then Some(e.at)
      else LastHit(ttl, max, before, k)
  }

  /** When a key was used last: hit, or else put. */
  function LastUse<K(==), V>(ttl: Time, max: nat, events: seq<Event<K, V>>, k: K): Option<Time> {
    if LastHit(ttl, max, events, k).Some? then LastHit(ttl, max, events, k)
    else if LastPut(events, k).Some? then Some(LastPut(events, k).value.at)
    else None
  }

  ghost predicate LeastRecentlyUsed<K(!new), V>(ttl: Time, max: nat, events: seq<Event<K, V>>, victim: K) {
    var used := LastUse(ttl, max, events, victim);
    forall k :: k in After(ttl, max, events).data && used.Some? && LastUse(ttl, max, events, k).Some? ==>
      used.value <= LastUse(ttl, max, events, k).value
  }

  /** A key is never hit before it was put, and never after the last event. */
  lemma {:induction false} HitAfterPut<K(!new), V>(ttl: Time, max: nat, events: seq<Event<K, V>>, k: K)
    requires max > 0 && Legal(ttl, max, events)
    ensures LastHit(ttl, max, events, k).Some? ==>
              && LastPut(events, k).Some? && LastPut(events, k).value.at <= LastHit(ttl, max, events, k).value
              && LastHit(ttl, max, events, k).value <= events[|events| - 1].at
    ensures LastPut(events, k).Some? ==> events != [] && LastPut(events, k).value.at <= events[|events| - 1].at
  {
    if events != [] {
      var before, e := events[..|events| - 1], events[|events| - 1];
      HitAfterPut(ttl, max, before, k);
      EveryRunIsFaithful(ttl, max, before);
    }
  }

  /** The key a full cache evicts is a least recently used one exactly when it has not been
      hit since its last put, or every other key has been used since that hit. */
  lemma EvictsLeastRecentlyUsedIff<K(!new), V>(ttl: Time, max: nat, events: seq<Event<K, V>>, victim: K)
    requires max > 0 && Legal(ttl, max, events) && Oldest(After(ttl, max, events), victim)
    ensures LeastRecentlyUsed(ttl, max, events, victim) <==>
            var hit := LastHit(ttl, max, events, victim);
            hit.None? || forall k :: k in After(ttl, max, events).data && LastUse(ttl, max, events, k).Some? ==>
                           hit.value <= LastUse(ttl, max, events, k).value
    ensures forall k :: k in After(ttl, max, events).data ==> LastUse(ttl, max, events, k).Some?
  {
    var c := After(ttl, max, events);
    EveryRunIsFaithful(ttl, max, events);
    assert LastPut(events, victim) == Some(Entry(c.data[victim], c.stamp[victim]));
    forall k | k in c.data
        ensures LastUse(ttl, max, events, k).Some? && c.stamp[victim] <= LastUse(ttl, max, events, k).value {
      assert LastPut(events, k) == Some(Entry(c.data[k], c.stamp[k]));
      HitAfterPut(ttl, max, events, k);
    }
  }

  /** Where it is not: with room for two, key 2 was used last at time 2 and key 1 at time 3,
      and still the next put evicts key 1. */
  const ReadAgain: seq<Event<int, int>> := [Put(1, 10, 1, 1), Put(2, 20, 2, 2), Get(1, 3)]

  const OnePut: seq<Event<int, int>> := [Put(1, 10, 1, 1)]
  const TwoPuts: seq<Event<int, int>> := [Put(1, 10, 1, 1), Put(2, 20, 2, 2)]

  lemma ReadAgainLeaves()
    ensures ReadAgain[..2] == TwoPuts && TwoPuts[..1] == OnePut && OnePut[..0] == []
    ensures After(100, 2, ReadAgain) == After(100, 2, TwoPuts) == Cache(map[1 := 10, 2 := 20], map[1 := 1, 2 := 2])
    ensures Legal(100, 2, ReadAgain)
  {
    assert ReadAgain[..2] == TwoPuts && TwoPuts[..1] == OnePut && OnePut[..0] == [];
    assert After(100, 2, OnePut) == Cache(map[1 := 10], map[1 := 1]) && Legal(100, 2, OnePut);
    assert Legal(100, 2, TwoPuts);
  }

  lemma ReadAgainUses()
    ensures LastUse(100, 2, ReadAgain, 1) == Some(3) && LastUse(100, 2, ReadAgain, 2) == Some(2)
  {
    ReadAgainLeaves();
    assert LastHit(100, 2, OnePut, 2) == None && LastHit(100, 2, TwoPuts, 2) == None;
    assert LastPut(TwoPuts, 2) == Some(Entry(20, 2));
  }

  lemma AHitDoesNotSaveAKey()
    ensures var c := After(100, 2, ReadAgain);
      && Legal(100, 2, ReadAgain) && Oldest(c, 1) && !Oldest(c, 2) && !LeastRecentlyUsed(100, 2, ReadAgain, 1)
      && LastUse(100, 2, ReadAgain, 1) == Some(3) && LastUse(100, 2, ReadAgain, 2) == Some(2)
    ensures forall victim :: Legal(100, 2, ReadAgain + [Put(3, 30, 4, victim)]) <==> victim == 1
  {
    ReadAgainLeaves();
    ReadAgainUses();
    forall victim ensures Legal(100, 2, ReadAgain + [Put(3, 30, 4, victim)]) <==> victim == 1 {
      assert (ReadAgain + [Put(3, 30, 4, victim)])[..3] == ReadAgain;
      assert Oldest(After(100, 2, ReadAgain), victim) <==> victim == 1;
    }
  }
}
