/**
 * The try-on history (services/historyStorage.ts): one IndexedDB record whose `items` list is
 * written sorted newest first and capped at `ARCHIVE_MAX_ITEMS`, with a one-time migration from
 * the older localStorage copy. Items are JSON values; only their `timestamp` is looked at.
 */
module HistoryStorage {
  import opened Wrappers
  import opened Json
  import opened ListStore

  /** `ARCHIVE_MAX_ITEMS` */
  const ARCHIVE_MAX_ITEMS: nat := 50

  /**
   * `item.timestamp ?? 0`, for a numeric or absent timestamp. Any other item, `null` included,
   * also gets 0 here, where the source's comparator reads `null.timestamp` and throws.
   */
  function Key(item: Json): int {
    var t := Field(Some(item), "timestamp");
    if t.Some? && t.value.JNum? then t.value.n else 0
  }

  /** Newest first: no item is preceded by one with a smaller timestamp. */
  predicate SortedDesc(s: seq<Json>) {
    forall i, j :: 0 <= i < j < |s| ==> Key(s[i]) >= Key(s[j])
  }

  /** Puts `x` in front of the first item of `s` whose timestamp is not larger than its own. */
  function Insert(x: Json, s: seq<Json>): seq<Json> {
    if s == [] || Key(x) >= Key(s[0]) then [x] + s else [s[0]] + Insert(x, s[1..])
  }

  /**
   * `[...items].sort((a, b) => (b.timestamp ?? 0) - (a.timestamp ?? 0))`: the sort is stable,
   * so of two items with the same timestamp the earlier one stays first.
   */
  function SortDesc(xs: seq<Json>): seq<Json> {
    if xs == [] then [] else Insert(xs[0], SortDesc(xs[1..]))
  }

  /** The list `putToIDB` and `saveHistory` keep: sorted, then `slice(0, ARCHIVE_MAX_ITEMS)`. */
  function SortCap(xs: seq<Json>): seq<Json> {
    Take(SortDesc(xs), ARCHIVE_MAX_ITEMS)
  }

  /** Inserting adds exactly `x`. */
  lemma {:induction false} InsertPerm(x: Json, s: seq<Json>)
    ensures multiset(Insert(x, s)) == multiset(s) + multiset{x}
    ensures |Insert(x, s)| == |s| + 1
    decreases |s|
  {
    if s != [] && Key(x) < Key(s[0]) {
      InsertPerm(x, s[1..]);
      assert s == [s[0]] + s[1..];
    }
  }

  /** A bound on every timestamp of `s` and on that of `x` bounds every timestamp after inserting. */
  lemma {:induction false} InsertBound(x: Json, s: seq<Json>, b: int)
    requires Key(x) <= b
    requires forall i :: 0 <= i < |s| ==> Key(s[i]) <= b
    ensures forall i :: 0 <= i < |Insert(x, s)| ==> Key(Insert(x, s)[i]) <= b
    decreases |s|
  {
    if s != [] && Key(x) < Key(s[0]) {
      var tail := s[1..];
      assert forall i :: 0 <= i < |tail| ==> tail[i] == s[i + 1];
      InsertBound(x, tail, b);
      var rest := Insert(x, tail);
      assert forall i :: 1 <= i < |Insert(x, s)| ==> Insert(x, s)[i] == rest[i - 1];
    }
  }

  /** Inserting into a list that is newest first keeps it newest first. */
  lemma {:induction false} InsertSorted(x: Json, s: seq<Json>)
    requires SortedDesc(s)
    ensures SortedDesc(Insert(x, s))
    decreases |s|
  {
    InsertPerm(x, s);
    if s != [] && Key(x) < Key(s[0]) {
      var tail := s[1..];
      assert SortedDesc(tail) by {
        forall i, j | 0 <= i < j < |tail| ensures Key(tail[i]) >= Key(tail[j]) {
          assert tail[i] == s[i + 1] && tail[j] == s[j + 1];
        }
      }
      InsertSorted(x, tail);
      assert forall i :: 0 <= i < |tail| ==> Key(tail[i]) <= Key(s[0]) by {
        assert forall i :: 0 <= i < |tail| ==> tail[i] == s[i + 1];
      }
      InsertBound(x, tail, Key(s[0]));
      var r := Insert(x, s);
      var rest := Insert(x, tail);
      assert r == [s[0]] + rest;
      forall i, j | 0 <= i < j < |r| ensures Key(r[i]) >= Key(r[j]) {
        assert r[j] == rest[j - 1];
        if i > 0 {
          assert r[i] == rest[i - 1];
        }
      }
    }
  }

  /** The sort orders newest first and keeps every item, each as often as it occurs. */
  lemma SortDescSpec(xs: seq<Json>)
    ensures SortedDesc(SortDesc(xs))
    ensures multiset(SortDesc(xs)) == multiset(xs)
    ensures |SortDesc(xs)| == |xs|
  {
    SortDescSorted(xs);
    SortDescPerm(xs);
  }

  lemma {:induction false} SortDescSorted(xs: seq<Json>)
    ensures SortedDesc(SortDesc(xs))
  {
    if xs != [] {
      SortDescSorted(xs[1..]);
      InsertSorted(xs[0], SortDesc(xs[1..]));
    }
  }

  lemma {:induction false} SortDescPerm(xs: seq<Json>)
    ensures multiset(SortDesc(xs)) == multiset(xs)
    ensures |SortDesc(xs)| == |xs|
  {
    if xs != [] {
      SortDescPerm(xs[1..]);
      InsertPerm(xs[0], SortDesc(xs[1..]));
      assert xs == [xs[0]] + xs[1..];
    }
  }

  /** Sorting a list that is already newest first changes nothing: the sort is stable. */
  lemma {:induction false} SortedIsFixed(xs: seq<Json>)
    requires SortedDesc(xs)
    ensures SortDesc(xs) == xs
  {
    if xs != [] {
      var tail := xs[1..];
      assert SortedDesc(tail) by {
        forall i, j | 0 <= i < j < |tail| ensures Key(tail[i]) >= Key(tail[j]) {
          assert tail[i] == xs[i + 1] && tail[j] == xs[j + 1];
        }
      }
      SortedIsFixed(tail);
      if tail != [] {
        assert Key(xs[0]) >= Key(xs[1]);
      }
      assert xs == [xs[0]] + tail;
    }
  }

  /**
   * What is saved is newest first, at most 50 items, each taken from the input, all of them
   * when there are no more than 50; what is dropped is never newer than what is kept.
   */
  lemma SortCapSpec(xs: seq<Json>)
    ensures var r := SortCap(xs);
      SortedDesc(r) && |r| <= ARCHIVE_MAX_ITEMS && multiset(r) <= multiset(xs)
      && (|xs| <= ARCHIVE_MAX_ITEMS ==> multiset(r) == multiset(xs))
      && forall y, i :: y in multiset(xs) - multiset(r) && 0 <= i < |r| ==> Key(r[i]) >= Key(y)
  {
    var s := SortDesc(xs);
    SortDescSpec(xs);
    var r := SortCap(xs);
    PrefixOfSorted(s, |r|);
    forall y, i | y in multiset(xs) - multiset(r) && 0 <= i < |r| ensures Key(r[i]) >= Key(y) {
      DroppedIsOlder(s, |r|, y, i);
    }
  }

  /** A prefix of a newest-first list is newest first, and with the rest it makes up the list. */
  lemma PrefixOfSorted(s: seq<Json>, k: nat)
    requires SortedDesc(s) && k <= |s|
    ensures SortedDesc(s[..k])
    ensures multiset(s) == multiset(s[..k]) + multiset(s[k..])
  {
    assert s == s[..k] + s[k..];
  }

  /** An item past the cut of a newest-first list is no newer than one before it. */
  lemma DroppedIsOlder(s: seq<Json>, k: nat, y: Json, i: nat)
    requires SortedDesc(s) && i < k <= |s|
    requires y in multiset(s) - multiset(s[..k])
    ensures Key(s[..k][i]) >= Key(y)
  {
    PrefixOfSorted(s, k);
    assert y in multiset(s[k..]);
    var j :| 0 <= j < |s[k..]| && s[k..][j] == y;
    assert s[k + j] == y;
  }

  /** Sorting and capping twice is sorting and capping once. */
  lemma SortCapIdempotent(xs: seq<Json>)
    ensures SortCap(SortCap(xs)) == SortCap(xs)
  {
    SortCapSpec(xs);
    SortedIsFixed(SortCap(xs));
  }

  /** Reading back a saved list gives it unchanged: it is already within the read cap. */
  lemma ReadAfterSave(xs: seq<Json>)
    ensures ReadArray(Some(JArr(SortCap(xs))), ARCHIVE_MAX_ITEMS) == SortCap(xs)
  {
    SortCapSpec(xs);
  }

  /**
   * The `history` object store: `items` is the `items` property of the record under the key
   * `'items'` (`None` when there is no record); `readable` and `writable` say whether a read and
   * a write transaction succeed.
   */
  class HistoryDb {
    var items: Option<Json>
    var readable: bool
    var writable: bool

    constructor(items: Option<Json>, readable: bool, writable: bool)
      ensures this.items == items && this.readable == readable && this.writable == writable
    {
      this.items := items;
      this.readable := readable;
      this.writable := writable;
    }

    /** `getFromIDB()`: the stored array capped at 50, `[]` for a non-array; `None` when it rejects. */
    function Read(): (r: Option<seq<Json>>)
      reads this
      ensures r.None? <==> !readable
      ensures r.Some? ==> |r.value| <= ARCHIVE_MAX_ITEMS
    {
      if readable then Some(ReadArray(items, ARCHIVE_MAX_ITEMS)) else None
    }

    /** `putToIDB(items)`: writes the items sorted newest first and capped; `ok` is false when it rejects. */
    method Put(xs: seq<Json>) returns (ok: bool)
      modifies this
      ensures ok == writable && readable == old(readable) && writable == old(writable)
      ensures writable ==> items == Some(JArr(SortCap(xs)))
      ensures !writable ==> items == old(items)
    {
      var sorted := SortCap(xs);
      if writable {
        items := Some(JArr(sorted));
      }
      ok := writable;
    }

    /**
     * `getHistory(localStorageKey)`: `local` is the parsed localStorage value. The choice is
     * `Choose` of the store read and the capped localStorage list, and a migration writes that
     * list into the store; the write's failure is ignored.
     */
    method GetHistory(local: Option<Json>) returns (r: seq<Json>)
      modifies this
      ensures var c := Choose(old(Read()), ReadArray(local, ARCHIVE_MAX_ITEMS));
        r == c.items
        && (c.migrate && writable ==> items == Some(JArr(SortCap(c.items))))
        && (!(c.migrate && writable) ==> items == old(items))
      ensures readable == old(readable) && writable == old(writable)
      ensures |r| <= ARCHIVE_MAX_ITEMS
    {
      var fromLs := ReadArray(local, ARCHIVE_MAX_ITEMS);
      if !readable {
        return fromLs;
      }
      var arr := ReadArray(items, ARCHIVE_MAX_ITEMS);
      if |arr| == 0 && |fromLs| > 0 {
        var _ := Put(fromLs);
        return fromLs;
      }
      return arr;
    }

    /**
     * `saveHistory(items)`: sorts and caps, and `putToIDB` sorts and caps again, which by
     * `SortCapIdempotent` stores the once-sorted list; a failed write is ignored.
     */
    method SaveHistory(xs: seq<Json>)
      modifies this
      ensures readable == old(readable) && writable == old(writable)
      ensures writable ==> items == Some(JArr(SortCap(xs))) && Read() == (if readable then Some(SortCap(xs)) else None)
      ensures !writable ==> items == old(items)
    {
      var sorted := SortCap(xs);
      var _ := Put(sorted);
      SortCapIdempotent(xs);
      ReadAfterSave(xs);
    }
  }
}
