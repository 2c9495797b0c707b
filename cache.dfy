/**
 * The two-tier cache of app.js: a volatile in-memory map (`CACHE_MEM`) in front of
 * `localStorage`, both holding `{data, ts}` entries that are valid for 30 minutes.
 *
 * `localStorage` is the map `ls`, keyed by the full storage key `cdt_dash_<k>`; its JSON
 * round trip is the identity. Every access to it may throw (storage disabled, quota
 * exceeded, a scheme that refuses storage): whether a given access throws is an input of
 * the operation, so every property below holds for every pattern of failures. The clock
 * `Date.now()` is the parameter `now`.
 */
module TwoTierCache {
  import opened Wrappers
  import opened Api

  /** `CACHE_TTL`: 30 minutes, in milliseconds. */
  const CACHE_TTL: int := 30 * 60 * 1000

  /** `LS_PREFIX`: the prefix of the dashboard's `localStorage` keys. */
  const LS_PREFIX: string := "cdt_dash_"

  /** A cached payload with the clock reading at which it was stored. */
  datatype Entry = Entry(data: Json, ts: int)

  /** Both tiers: `CACHE_MEM` and the part of `localStorage` the dashboard uses. */
  datatype Tiers = Tiers(mem: map<string, Entry>, ls: map<string, Entry>)

  /** The result of a `getCached` call together with the tiers it leaves behind. */
  datatype Read = Read(value: Option<Json>, after: Tiers)

  /** The validity test of `getCached`: strictly less than the TTL has elapsed. */
  predicate Fresh(e: Entry, now: int)
  {
    now - e.ts < CACHE_TTL
  }

  /** The `localStorage` key under which cache key `k` is persisted. */
  function LsKey(k: string): string
  {
    LS_PREFIX + k
  }

  /** What the memory tier alone yields for `k` at time `now`. */
  function MemLookup(t: Tiers, k: string, now: int): Option<Json>
  {
    if k in t.mem && Fresh(t.mem[k], now) then Some(t.mem[k].data) else None
  }

  /** The payload the tiers hold for `k` at time `now`: valid memory first, then valid durable storage. */
  function Lookup(t: Tiers, k: string, now: int): Option<Json>
  {
    if MemLookup(t, k, now).Some? then MemLookup(t, k, now)
    else if LsKey(k) in t.ls && Fresh(t.ls[LsKey(k)], now) then Some(t.ls[LsKey(k)].data)
    else None
  }

  /**
   * `getCached(k)` at time `now`. `readFails`: `localStorage.getItem` throws;
   * `removeFails`: `localStorage.removeItem` throws. A valid durable entry is promoted
   * into memory with its original timestamp; an expired one is removed.
   */
  function GetCached(t: Tiers, k: string, now: int, readFails: bool, removeFails: bool): (r: Read)
    ensures r.value.Some? ==> k in r.after.mem && Fresh(r.after.mem[k], now) && r.after.mem[k].data == r.value.value
    ensures r.after.mem.Keys <= t.mem.Keys + {k} && r.after.ls.Keys <= t.ls.Keys
  {
    if k in t.mem && Fresh(t.mem[k], now) then Read(Some(t.mem[k].data), t)
    else if readFails || LsKey(k) !in t.ls then Read(None, t)
    else
      var entry := t.ls[LsKey(k)];
      if Fresh(entry, now) then Read(Some(entry.data), t.(mem := t.mem[k := Entry(entry.data, entry.ts)]))
      else if removeFails then Read(None, t)
      else Read(None, t.(ls := t.ls - {LsKey(k)}))
  }

  /** `setCache(k, d)` at time `now`; `writeFails`: `localStorage.setItem` throws. */
  function SetCache(t: Tiers, k: string, d: Json, now: int, writeFails: bool): (r: Tiers)
    ensures r.mem.Keys == t.mem.Keys + {k} && r.mem[k] == Entry(d, now)
    ensures r.ls.Keys == if writeFails then t.ls.Keys else t.ls.Keys + {LsKey(k)}
  {
    var entry := Entry(d, now);
    Tiers(t.mem[k := entry], if writeFails then t.ls else t.ls[LsKey(k) := entry])
  }

  /** `invalidateCache(k)`; `removeFails`: `localStorage.removeItem` throws. */
  function InvalidateCache(t: Tiers, k: string, removeFails: bool): (r: Tiers)
    ensures r.mem.Keys == t.mem.Keys - {k}
    ensures LsKey(k) in r.ls <==> removeFails && LsKey(k) in t.ls
    ensures r.ls.Keys <= t.ls.Keys
  {
    Tiers(t.mem - {k}, if removeFails then t.ls else t.ls - {LsKey(k)})
  }

  /** Distinct cache keys are persisted under distinct storage keys. */
  lemma LsKeyInjective(k1: string, k2: string)
    ensures LsKey(k1) == LsKey(k2) <==> k1 == k2
  {
    if LsKey(k1) == LsKey(k2) {
      assert k1 == LsKey(k1)[|LS_PREFIX|..];
      assert k2 == LsKey(k2)[|LS_PREFIX|..];
    }
  }

  /**
   * A read that reaches `localStorage` returns exactly what the tiers hold; a failed read
   * returns only what memory holds. No exception escapes: the result is always a `Read`.
   */
  lemma GetReturnsLookup(t: Tiers, k: string, now: int, readFails: bool, removeFails: bool)
    ensures !readFails ==> GetCached(t, k, now, readFails, removeFails).value == Lookup(t, k, now)
    ensures readFails ==> GetCached(t, k, now, readFails, removeFails).value == MemLookup(t, k, now)
  {
  }

  /**
   * Promotion: on a memory miss, a valid durable entry is returned and copied into memory
   * with its original timestamp, the durable tier untouched.
   */
  lemma GetPromotes(t: Tiers, k: string, now: int, removeFails: bool)
    requires MemLookup(t, k, now).None?
    requires LsKey(k) in t.ls && Fresh(t.ls[LsKey(k)], now)
    ensures GetCached(t, k, now, false, removeFails) == Read(Some(t.ls[LsKey(k)].data), t.(mem := t.mem[k := t.ls[LsKey(k)]]))
  {
  }

  /** Expiry: on a memory miss, an expired durable entry yields nothing and is removed unless removal throws. */
  lemma GetDropsExpired(t: Tiers, k: string, now: int, removeFails: bool)
    requires MemLookup(t, k, now).None?
    requires LsKey(k) in t.ls && !Fresh(t.ls[LsKey(k)], now)
    ensures GetCached(t, k, now, false, removeFails).value == None
    ensures GetCached(t, k, now, false, removeFails).after ==
      if removeFails then t else t.(ls := t.ls - {LsKey(k)})
  {
  }

  /**
   * A read never changes what any key yields, now or later: promotion copies a valid entry,
   * and the entry a read removes had already expired.
   */
  lemma GetPreservesLookup(t: Tiers, k: string, now: int, readFails: bool, removeFails: bool, j: string, later: int)
    requires now <= later
    ensures Lookup(GetCached(t, k, now, readFails, removeFails).after, j, later) == Lookup(t, j, later)
  {
    LsKeyInjective(k, j);
  }

  /** After a read that found a payload, reading again at the same time finds it in memory, whatever fails. */
  lemma GetAgainHits(t: Tiers, k: string, now: int, rf1: bool, rm1: bool, rf2: bool, rm2: bool)
    requires GetCached(t, k, now, rf1, rm1).value.Some?
    ensures var first := GetCached(t, k, now, rf1, rm1);
      GetCached(first.after, k, now, rf2, rm2) == Read(first.value, first.after)
  {
  }

  /** A read that found nothing finds nothing again at the same time when the same accesses fail. */
  lemma GetAgainMisses(t: Tiers, k: string, now: int, readFails: bool, removeFails: bool)
    requires GetCached(t, k, now, readFails, removeFails).value.None?
    ensures var first := GetCached(t, k, now, readFails, removeFails);
      GetCached(first.after, k, now, readFails, removeFails).value.None?
  {
  }

  /** Reading a key twice at the same time, with the same accesses failing, is reading it once. */
  lemma GetTwice(t: Tiers, k: string, now: int, readFails: bool, removeFails: bool)
    ensures var first := GetCached(t, k, now, readFails, removeFails);
      GetCached(first.after, k, now, readFails, removeFails) == first
  {
  }

  /** Reading one key never changes what a read of another key returns. */
  lemma GetElsewhere(t: Tiers, k: string, now: int, rf: bool, rm: bool, j: string, rfj: bool, rmj: bool)
    requires j != k
    ensures GetCached(GetCached(t, k, now, rf, rm).after, j, now, rfj, rmj).value == GetCached(t, j, now, rfj, rmj).value
  {
    LsKeyInjective(k, j);
  }

  /**
   * Round trip: after `setCache(k, d)` at time `t0`, `getCached(k)` yields `d` at every
   * `now` with `now - t0 < TTL`, whether or not the `localStorage` write or later reads throw.
   */
  lemma SetThenGet(t: Tiers, k: string, d: Json, t0: int, writeFails: bool, now: int, readFails: bool, removeFails: bool)
    requires now - t0 < CACHE_TTL
    ensures GetCached(SetCache(t, k, d, t0, writeFails), k, now, readFails, removeFails).value == Some(d)
    ensures Lookup(SetCache(t, k, d, t0, writeFails), k, now) == Some(d)
  {
  }

  /** The memory tier is written even when the durable write throws; the durable tier only when it does not. */
  lemma SetWritesMemory(t: Tiers, k: string, d: Json, t0: int, writeFails: bool)
    ensures SetCache(t, k, d, t0, writeFails).mem[k] == Entry(d, t0)
    ensures LsKey(k) in SetCache(t, k, d, t0, writeFails).ls <==> !writeFails || LsKey(k) in t.ls
    ensures !writeFails ==> SetCache(t, k, d, t0, writeFails).ls[LsKey(k)] == Entry(d, t0)
  {
  }

  /** Writing one key leaves what every other key yields unchanged. */
  lemma SetElsewhere(t: Tiers, k: string, d: Json, t0: int, writeFails: bool, j: string, now: int)
    requires j != k
    ensures Lookup(SetCache(t, k, d, t0, writeFails), j, now) == Lookup(t, j, now)
  {
    LsKeyInjective(k, j);
  }

  /** After `invalidateCache(k)` has reached both tiers, `getCached(k)` yields nothing. */
  lemma InvalidateThenGet(t: Tiers, k: string, now: int, readFails: bool, removeFails: bool)
    ensures GetCached(InvalidateCache(t, k, false), k, now, readFails, removeFails).value == None
  {
  }

  /**
   * If the durable removal throws, `invalidateCache(k)` clears memory only, and a still-valid
   * durable copy is served again by the next read.
   */
  lemma InvalidateFailureResurfaces(t: Tiers, k: string, now: int)
    requires LsKey(k) in t.ls && Fresh(t.ls[LsKey(k)], now)
    ensures GetCached(InvalidateCache(t, k, true), k, now, false, false).value == Some(t.ls[LsKey(k)].data)
  {
  }

  /** Invalidating one key leaves what every other key yields unchanged. */
  lemma InvalidateElsewhere(t: Tiers, k: string, removeFails: bool, j: string, now: int)
    requires j != k
    ensures Lookup(InvalidateCache(t, k, removeFails), j, now) == Lookup(t, j, now)
  {
    LsKeyInjective(k, j);
  }

  /** Once a key yields nothing, it yields nothing at every later time unless it is written again. */
  lemma LookupStaysExpired(t: Tiers, k: string, now: int, later: int)
    requires now <= later
    requires Lookup(t, k, now) == None
    ensures Lookup(t, k, later) == None
  {
  }

  class Store {
    /** `CACHE_MEM`: the volatile tier. */
    var mem: map<string, Entry>
    /** `localStorage`: the durable tier, keyed by full storage keys. */
    var ls: map<string, Entry>

    function Value(): Tiers
      reads this
    {
      Tiers(mem, ls)
    }

    /** A fresh page: an empty memory tier in front of whatever earlier sessions persisted. */
    constructor (durable: map<string, Entry>)
      ensures Value() == Tiers(map[], durable)
    {
      mem := map[];
      ls := durable;
    }

    /** `getCached(k)` at time `now`. */
    method Get(k: string, now: int, readFails: bool, removeFails: bool) returns (r: Option<Json>)
      modifies this
      ensures Read(r, Value()) == GetCached(old(Value()), k, now, readFails, removeFails)
    {
      if k in mem && Fresh(mem[k], now) {
        return Some(mem[k].data);
      }
      var key := LsKey(k);
      if readFails || key !in ls {
        return None;
      }
      var entry := ls[key];
      if Fresh(entry, now) {
        mem := mem[k := Entry(entry.data, entry.ts)];
        return Some(entry.data);
      }
      if !removeFails {
        ls := ls - {key};
      }
      return None;
    }

    /** `setCache(k, d)` at time `now`. */
    method Set(k: string, d: Json, now: int, writeFails: bool)
      modifies this
      ensures Value() == SetCache(old(Value()), k, d, now, writeFails)
    {
      var entry := Entry(d, now);
      mem := mem[k := entry];
      if !writeFails {
        ls := ls[LsKey(k) := entry];
      }
    }

    /** `invalidateCache(k)`. */
    method Invalidate(k: string, removeFails: bool)
      modifies this
      ensures Value() == InvalidateCache(old(Value()), k, removeFails)
    {
      mem := mem - {k};
      if !removeFails {
        ls := ls - {LsKey(k)};
      }
    }
  }
}
