/**
 * The local usage counters (services/metricsStorage.ts): one IndexedDB record holding seven
 * counters and `firstLaunchAt`. Reads overlay the stored object on `ZERO`; `incrementMetric`
 * reads, bumps one counter and writes back; `resetMetrics` writes fresh counters.
 */
module MetricsStorage {
  import opened Wrappers

  /** The seven counters of `AppMetrics`, the keys `incrementMetric` accepts. */
  const COUNTERS: seq<string> := [
    "totalTryOns", "totalVideos", "totalShares", "totalShopClicks",
    "totalArchiveSaves", "totalCollectionsCreated", "totalOutfitsUploaded"
  ]

  const FIRST_LAUNCH: string := "firstLaunchAt"

  /** `MetricKey`: a counter name, never `firstLaunchAt`. */
  type MetricKey = k: string | k in COUNTERS witness "totalTryOns"

  /** An `AppMetrics` object as stored: property names to numbers. */
  type Metrics = map<string, int>

  /** `ZERO`: every counter and `firstLaunchAt` at 0. */
  const ZERO: Metrics := map k | k in COUNTERS + [FIRST_LAUNCH] :: 0

  /** `{ ...ZERO, firstLaunchAt: now }`, what a first launch or a failed read gives. */
  function Fresh(now: int): (r: Metrics)
    ensures r.Keys == ZERO.Keys && r[FIRST_LAUNCH] == now
    ensures forall k :: k in COUNTERS ==> r[k] == 0
  {
    ZERO[FIRST_LAUNCH := now]
  }

  /**
   * What `getFromIDB` resolves to; `raw` is the record's `value` when it is a truthy object and
   * `None` otherwise: `{ ...ZERO, ...raw, firstLaunchAt: raw.firstLaunchAt || 0 }`, or
   * `Fresh(now)` when there is no such object.
   */
  function Read(raw: Option<Metrics>, now: int): Metrics {
    if raw.None? then Fresh(now)
    else
      var first := if FIRST_LAUNCH in raw.value && raw.value[FIRST_LAUNCH] != 0 then raw.value[FIRST_LAUNCH] else 0;
      (ZERO + raw.value)[FIRST_LAUNCH := first]
  }

  /** `(m[key] ?? 0)` */
  function CountOf(m: Metrics, key: string): int {
    if key in m then m[key] else 0
  }

  /**
   * The record `incrementMetric` writes from the metrics `m` it read: `firstLaunchAt` set to
   * `now` when it is 0, then `delta` added to `key`.
   */
  function Bump(m: Metrics, key: MetricKey, delta: int, now: int): Metrics
    requires FIRST_LAUNCH in m
  {
    var started := if m[FIRST_LAUNCH] == 0 then m[FIRST_LAUNCH := now] else m;
    started[key := CountOf(started, key) + delta]
  }

  /** `ZERO` holds every counter and `firstLaunchAt`. */
  lemma ZeroKeys()
    ensures FIRST_LAUNCH in ZERO && forall k :: k in COUNTERS ==> k in ZERO
  {
    assert (COUNTERS + [FIRST_LAUNCH])[|COUNTERS|] == FIRST_LAUNCH;
  }

  /** `firstLaunchAt` is never one of the counters. */
  lemma FirstLaunchIsNoCounter()
    ensures FIRST_LAUNCH !in COUNTERS
  {
    assert forall i :: 0 <= i < |COUNTERS| ==> COUNTERS[i][0] == 't';
  }

  /**
   * A read keeps every stored property over `ZERO`, with the counters the object lacks at 0 and
   * a falsy `firstLaunchAt` as 0; nothing stored gives `ZERO` with `firstLaunchAt` at `now`.
   */
  lemma ReadSpec(raw: Option<Metrics>, now: int)
    ensures var m := Read(raw, now);
      m.Keys == (if raw.Some? then ZERO.Keys + raw.value.Keys else ZERO.Keys)
      && (raw.None? ==> m == Fresh(now))
      && (raw.Some? ==> forall k :: k in COUNTERS ==> m[k] == CountOf(raw.value, k))
      && (raw.Some? ==> forall k :: k in raw.value && k != FIRST_LAUNCH ==> m[k] == raw.value[k])
      && (raw.Some? ==> m[FIRST_LAUNCH] == CountOf(raw.value, FIRST_LAUNCH))
  {
    FirstLaunchIsNoCounter();
  }

  /**
   * `incrementMetric(key, delta)`: counter `key` goes up by `delta`, every other property is
   * left as it was, and `firstLaunchAt` becomes `now` only when it was 0.
   */
  lemma BumpSpec(m: Metrics, key: MetricKey, delta: int, now: int)
    requires FIRST_LAUNCH in m
    ensures var r := Bump(m, key, delta, now);
      r.Keys == m.Keys + {key}
      && r[key] == CountOf(m, key) + delta
      && (forall k :: k in m && k != key && k != FIRST_LAUNCH ==> r[k] == m[k])
      && (m[FIRST_LAUNCH] != 0 ==> r[FIRST_LAUNCH] == m[FIRST_LAUNCH])
      && (m[FIRST_LAUNCH] == 0 ==> r[FIRST_LAUNCH] == now)
  {
    FirstLaunchIsNoCounter();
  }

  /**
   * A record holding every property of `ZERO` with a non-zero `firstLaunchAt`, as an increment
   * or a reset at a non-zero `now` writes, reads back unchanged.
   */
  lemma ReadOfWritten(m: Metrics, now: int)
    requires ZERO.Keys <= m.Keys && m[FIRST_LAUNCH] != 0
    ensures Read(Some(m), now) == m
  {
    assert (ZERO + m).Keys == m.Keys;
  }

  /** An increment at a non-zero clock reading writes a record that reads back unchanged. */
  lemma BumpReadsBack(m: Metrics, key: MetricKey, delta: int, now: int, later: int)
    requires ZERO.Keys <= m.Keys && now != 0
    ensures Read(Some(Bump(m, key, delta, now)), later) == Bump(m, key, delta, now)
  {
    BumpSpec(m, key, delta, now);
    ReadOfWritten(Bump(m, key, delta, now), later);
  }

  /** The body of `incrementMetric` between the read and the write, on the metrics `m` it read. */
  method Increment(m: Metrics, key: MetricKey, delta: int, now: int) returns (r: Metrics)
    requires FIRST_LAUNCH in m
    ensures r == Bump(m, key, delta, now)
  {
    r := m;
    if r[FIRST_LAUNCH] == 0 {
      r := r[FIRST_LAUNCH := now];
    }
    r := r[key := CountOf(r, key) + delta];
  }

  /** The `metrics` object store; `available` says whether opening it succeeds. */
  class MetricsDb {
    var record: Option<Metrics>
    var available: bool

    constructor(record: Option<Metrics>, available: bool)
      ensures this.record == record && this.available == available
    {
      this.record := record;
      this.available := available;
    }

    /** `getMetrics()` at clock reading `now`: the read, or `Fresh(now)` when it fails. */
    method GetMetrics(now: int) returns (m: Metrics)
      ensures m == if available then Read(record, now) else Fresh(now)
      ensures FIRST_LAUNCH in m
      ensures ZERO.Keys <= m.Keys
    {
      ZeroKeys();
      if available {
        m := Read(record, now);
        ReadSpec(record, now);
      } else {
        m := Fresh(now);
      }
    }

    /**
     * `incrementMetric(key, delta)` with both clock readings at `now`; `delta` is 1 when not
     * given. `ok` is false when the write rejects, and then nothing changes.
     */
    method IncrementMetric(key: MetricKey, delta: Option<int>, now: int) returns (ok: bool)
      modifies this
      ensures ok == available && available == old(available)
      ensures ok ==> record == Some(Bump(Read(old(record), now), key, delta.GetOr(1), now))
      ensures !ok ==> record == old(record)
    {
      var m := GetMetrics(now);
      m := Increment(m, key, delta.GetOr(1), now);
      if available {
        record := Some(m);
      }
      ok := available;
    }

    /** `resetMetrics()`: stores `Fresh(now)` and returns what it stored. */
    method ResetMetrics(now: int) returns (stored: Metrics, ok: bool)
      modifies this
      ensures stored == Fresh(now) && ok == available && available == old(available)
      ensures ok ==> record == Some(stored)
      ensures !ok ==> record == old(record)
    {
      stored := Fresh(now);
      if available {
        record := Some(stored);
      }
      ok := available;
    }
  }
}
