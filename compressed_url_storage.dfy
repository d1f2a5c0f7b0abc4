/**
 * The cache of compressed images by URL (services/compressedUrlStorage.ts): an IndexedDB store
 * keyed by `url`; every save is followed by an eviction that deletes the oldest entries until
 * at most `MAX_ENTRIES` are left.
 */
module CompressedUrlStorage {
  import opened Wrappers

  /** `MAX_ENTRIES` */
  const MAX_ENTRIES: nat := 100

  /** `StoredEntry`; `createdAt` is the clock reading at the save. */
  datatype StoredEntry = StoredEntry(url: string, dataUrl: string, createdAt: int)

  /** `small` is `big` with some keys removed and nothing else changed. */
  predicate SubMap(small: map<string, StoredEntry>, big: map<string, StoredEntry>) {
    forall k :: k in small ==> k in big && small[k] == big[k]
  }

  /** No entry of `big` missing from `small` is newer than an entry `small` keeps. */
  predicate OldestRemoved(small: map<string, StoredEntry>, big: map<string, StoredEntry>) {
    forall d, k :: d in big && d !in small && k in small ==> big[d].createdAt <= small[k].createdAt
  }

  /** A non-empty map has an entry no newer than any other. */
  lemma {:induction false} OldestExists(m: map<string, StoredEntry>)
    requires |m| > 0
    ensures exists k :: k in m && forall j :: j in m ==> m[k].createdAt <= m[j].createdAt
    decreases |m|
  {
    var a :| a in m;
    var rest := m - {a};
    if exists c :: c in m && c != a {
      var c :| c in m && c != a;
      assert c in rest;
      OldestExists(rest);
      var b :| b in rest && forall j :: j in rest ==> rest[b].createdAt <= rest[j].createdAt;
      if m[a].createdAt <= m[b].createdAt {
        assert forall j :: j in m ==> m[a].createdAt <= m[j].createdAt by {
          forall j | j in m ensures m[a].createdAt <= m[j].createdAt {
            if j != a {
              assert j in rest;
            }
          }
        }
      } else {
        assert forall j :: j in m ==> m[b].createdAt <= m[j].createdAt by {
          forall j | j in m ensures m[b].createdAt <= m[j].createdAt {
            if j != a {
              assert j in rest;
            }
          }
        }
      }
    }
  }

  /** The `compressed_urls` object store; `available` says whether opening it succeeds. */
  class UrlCache {
    var entries: map<string, StoredEntry>
    var available: bool

    /** The store's key path: every entry sits under its own `url`. */
    predicate Valid()
      reads this
    {
      forall k :: k in entries ==> entries[k].url == k
    }

    constructor(entries: map<string, StoredEntry>, available: bool)
      requires forall k :: k in entries ==> entries[k].url == k
      ensures Valid()
      ensures this.entries == entries && this.available == available
    {
      this.entries := entries;
      this.available := available;
    }

    /** `getCompressedByUrl(url)`: the stored data URL, `null` (here `None`) when absent or on an error. */
    function Get(url: string): (r: Option<string>)
      reads this
      ensures r.Some? <==> available && url in entries
      ensures r.Some? ==> r.value == entries[url].dataUrl
      ensures Valid() && r.Some? ==> entries[url].url == url
    {
      if available && url in entries then Some(entries[url].dataUrl) else None
    }

    /**
     * `evictIfNeeded()`: nothing while there are at most `MAX_ENTRIES` entries; otherwise it
     * deletes `count - MAX_ENTRIES` entries, none newer than any it keeps.
     */
    method EvictIfNeeded()
      requires Valid()
      modifies this
      ensures Valid() && available == old(available)
      ensures SubMap(entries, old(entries)) && OldestRemoved(entries, old(entries))
      ensures |old(entries)| <= MAX_ENTRIES ==> entries == old(entries)
      ensures |old(entries)| > MAX_ENTRIES ==> |entries| == MAX_ENTRIES
    {
      if |entries| <= MAX_ENTRIES {
        return;
      }
      ghost var all := entries;
      while |entries| > MAX_ENTRIES
        invariant Valid() && available == old(available)
        invariant SubMap(entries, all) && OldestRemoved(entries, all)
        invariant |entries| >= MAX_ENTRIES
        decreases |entries|
      {
        OldestExists(entries);
        var oldest :| oldest in entries && forall j :: j in entries ==> entries[oldest].createdAt <= entries[j].createdAt;
        entries := entries - {oldest};
      }
    }

    /**
     * `saveCompressedByUrl(url, dataUrl)` at clock reading `now`: puts the entry under `url`,
     * replacing an earlier one, then evicts; `ok` is false when the store cannot be opened,
     * and then nothing changes.
     */
    method SaveCompressedByUrl(url: string, dataUrl: string, now: int) returns (ok: bool)
      requires Valid()
      modifies this
      ensures Valid() && ok == available && available == old(available)
      ensures !ok ==> entries == old(entries)
      ensures ok ==> |entries| <= MAX_ENTRIES
      ensures ok ==> SubMap(entries, old(entries)[url := StoredEntry(url, dataUrl, now)])
      ensures ok ==> OldestRemoved(entries, old(entries)[url := StoredEntry(url, dataUrl, now)])
      ensures ok && |old(entries)[url := StoredEntry(url, dataUrl, now)]| > MAX_ENTRIES ==> |entries| == MAX_ENTRIES
      ensures ok && |old(entries)[url := StoredEntry(url, dataUrl, now)]| <= MAX_ENTRIES ==>
        entries == old(entries)[url := StoredEntry(url, dataUrl, now)]
      ensures ok && (forall k :: k in old(entries) && k != url ==> old(entries)[k].createdAt < now) ==>
        Get(url) == Some(dataUrl)
    {
      if !available {
        return false;
      }
      var entry := StoredEntry(url, dataUrl, now);
      entries := entries[url := entry];
      ghost var put := entries;
      EvictIfNeeded();
      ok := true;
      if (forall k :: k in old(entries) && k != url ==> old(entries)[k].createdAt < now) && |put| > MAX_ENTRIES {
        NewestSurvives(entries, put, url);
      }
    }
  }

  /**
   * When eviction leaves at least one entry and removes only entries no newer than those it
   * keeps, an entry strictly newer than every other survives.
   */
  lemma NewestSurvives(small: map<string, StoredEntry>, big: map<string, StoredEntry>, url: string)
    requires SubMap(small, big) && OldestRemoved(small, big) && |small| > 0
    requires url in big && forall k :: k in big && k != url ==> big[k].createdAt < big[url].createdAt
    ensures url in small
  {
  }
}
