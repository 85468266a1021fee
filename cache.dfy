/** `src/utils/cache.ts`: an in-memory map from a request key to the time it was
    stored and the data, read back only while it is at most an hour old. The
    clock (`Date.now()`) is the parameter `now`, in milliseconds. */
module Cache {
  import opened Wrappers
  import opened TripTypes
  import opened Text

  /** One hour in milliseconds. */
  const CacheDuration: int := 1000 * 60 * 60

  datatype Entry<D> = Entry(timestamp: int, data: D)

  function BoolText(b: bool): string {
    if b then "true" else "false"
  }

  /** `kidsAge?.join(',') || 'none'`: the empty join is falsy. */
  function KidsSegment(kidsAge: seq<int>): (s: string)
    ensures s == "none" <==> kidsAge == []
  {
    var joined := Join(kidsAge);
    if joined == "" then "none"
    else
      assert joined[0] == '-' || IsDigit(joined[0]) by {
        assert joined[..|IntToString(kidsAge[0])|] == IntToString(kidsAge[0]);
      }
      joined
  }

  /** `${destination}-${travelDays}-${withKids}-${kids}-${withElders}`. */
  function CacheKey(details: TripDetails): string
  {
    details.destination + "-" + IntToString(details.travelDays) + "-" + BoolText(details.withKids)
      + "-" + KidsSegment(details.kidsAge) + "-" + BoolText(details.withElders)
  }

  /** The fields a cache key is built from. */
  predicate SameKeyFields(d1: TripDetails, d2: TripDetails) {
    && d1.destination == d2.destination
    && d1.travelDays == d2.travelDays
    && d1.withKids == d2.withKids
    && d1.kidsAge == d2.kidsAge
    && d1.withElders == d2.withElders
  }

  /** Numbers the form can produce: no minus sign appears in the key's numeric parts. */
  predicate NonNegativeNumbers(d: TripDetails) {
    d.travelDays >= 0 && forall k :: 0 <= k < |d.kidsAge| ==> d.kidsAge[k] >= 0
  }

  lemma NoDashInDigits(s: string)
    requires forall i :: 0 <= i < |s| ==> IsDigit(s[i]) || s[i] == ','
    ensures '-' !in s
  {
    assert forall i :: 0 <= i < |s| ==> s[i] != '-';
  }

  /** Equal keys come from requests that agree on every field the key shows
      (destination, days, kids flag, ages, elders flag), as long as the numbers
      are non-negative; a destination may itself contain '-'. */
  lemma CacheKeyInjective(d1: TripDetails, d2: TripDetails)
    requires NonNegativeNumbers(d1) && NonNegativeNumbers(d2)
    requires CacheKey(d1) == CacheKey(d2)
    ensures SameKeyFields(d1, d2)
  {
    var n1, n2 := IntToString(d1.travelDays), IntToString(d2.travelDays);
    var k1, k2 := KidsSegment(d1.kidsAge), KidsSegment(d2.kidsAge);
    NoDashInDigits(n1);
    NoDashInDigits(n2);
    if d1.kidsAge != [] { JoinDigits(d1.kidsAge); NoDashInDigits(k1); }
    if d2.kidsAge != [] { JoinDigits(d2.kidsAge); NoDashInDigits(k2); }
    assert '-' !in k1 && '-' !in k2;
    var p1 := d1.destination + "-" + n1 + "-" + BoolText(d1.withKids) + "-" + k1;
    var p2 := d2.destination + "-" + n2 + "-" + BoolText(d2.withKids) + "-" + k2;
    SplitAtLast(p1, BoolText(d1.withElders), p2, BoolText(d2.withElders), '-');
    var q1 := d1.destination + "-" + n1 + "-" + BoolText(d1.withKids);
    var q2 := d2.destination + "-" + n2 + "-" + BoolText(d2.withKids);
    SplitAtLast(q1, k1, q2, k2, '-');
    SplitAtLast(d1.destination + "-" + n1, BoolText(d1.withKids), d2.destination + "-" + n2, BoolText(d2.withKids), '-');
    SplitAtLast(d1.destination, n1, d2.destination, n2, '-');
    IntToStringInjective(d1.travelDays, d2.travelDays);
    if d1.kidsAge != [] && d2.kidsAge != [] {
      JoinInjective(d1.kidsAge, d2.kidsAge);
    }
  }

  /** Requests that differ in a field the key shows get different keys. */
  lemma CacheKeysDiffer(d1: TripDetails, d2: TripDetails)
    requires NonNegativeNumbers(d1) && NonNegativeNumbers(d2)
    requires !SameKeyFields(d1, d2)
    ensures CacheKey(d1) != CacheKey(d2)
  {
    if CacheKey(d1) == CacheKey(d2) {
      CacheKeyInjective(d1, d2);
    }
  }

  predicate Expired<D>(e: Entry<D>, now: int) {
    now - e.timestamp > CacheDuration
  }

  /** What `getFromCache(key)` returns at time `now`. */
  function Lookup<D>(entries: map<string, Entry<D>>, key: string, now: int): (r: Option<D>)
    ensures r.Some? <==> key in entries && now - entries[key].timestamp <= CacheDuration
    ensures r.Some? ==> r.value == entries[key].data
  {
    if key !in entries then None
    else if Expired(entries[key], now) then None
    else Some(entries[key].data)
  }

  /** The map after `getFromCache(key)` at time `now`: an expired entry is deleted. */
  function AfterLookup<D>(entries: map<string, Entry<D>>, key: string, now: int): (m: map<string, Entry<D>>)
    ensures forall k :: k != key ==> (k in m <==> k in entries)
    ensures forall k :: k in m ==> k in entries && m[k] == entries[k]
    ensures key in m <==> Lookup(entries, key, now).Some?
  {
    if key in entries && Expired(entries[key], now) then entries - {key} else entries
  }

  /** Data stored at time `t` is served at every `now` with `now - t <= 1 hour`. */
  lemma FreshEntryServed<D>(entries: map<string, Entry<D>>, key: string, data: D, t: int, now: int)
    requires now - t <= CacheDuration
    ensures Lookup(entries[key := Entry(t, data)], key, now) == Some(data)
    ensures AfterLookup(entries[key := Entry(t, data)], key, now) == entries[key := Entry(t, data)]
  {
  }

  /** Past the hour the read misses and removes only that key. */
  lemma StaleEntryDropped<D>(entries: map<string, Entry<D>>, key: string, now: int)
    requires key in entries && now - entries[key].timestamp > CacheDuration
    ensures Lookup(entries, key, now) == None
    ensures AfterLookup(entries, key, now) == entries - {key}
  {
  }

  /** Reading again right after a read gives the same answer and changes nothing more. */
  lemma LookupStable<D>(entries: map<string, Entry<D>>, key: string, now: int)
    ensures Lookup(AfterLookup(entries, key, now), key, now) == Lookup(entries, key, now)
    ensures AfterLookup(AfterLookup(entries, key, now), key, now) == AfterLookup(entries, key, now)
  {
  }

  /** The module-level `cache` Map. */
  class TimedCache<D> {
    var entries: map<string, Entry<D>>

    constructor()
      ensures entries == map[]
    {
      entries := map[];
    }

    /** `getFromCache`. */
    method Get(key: string, now: int) returns (r: Option<D>)
      modifies this
      ensures r == Lookup(old(entries), key, now)
      ensures entries == AfterLookup(old(entries), key, now)
    {
      if key !in entries {
        return None;
      }
      var entry := entries[key];
      if now - entry.timestamp > CacheDuration {
        entries := entries - {key};
        return None;
      }
      return Some(entry.data);
    }

    /** `setInCache`: the entry is replaced, stamped with `now`. */
    method Set(key: string, data: D, now: int)
      modifies this
      ensures entries == old(entries)[key := Entry(now, data)]
      ensures Lookup(entries, key, now) == Some(data)
    {
      entries := entries[key := Entry(now, data)];
    }

    /** `clearCache`. */
    method Clear()
      modifies this
      ensures entries == map[]
    {
      entries := map[];
    }

    /** `clearCacheForKey`. */
    method ClearKey(key: string)
      modifies this
      ensures entries == old(entries) - {key}
    {
      entries := entries - {key};
    }
  }
}
