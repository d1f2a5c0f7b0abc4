/**
 * The shop's product list (services/merchantProductsStorage.ts): one IndexedDB record whose
 * `items` list keeps the first `MAX_MERCHANT_PRODUCTS` products in their own order, with the
 * same one-time migration from localStorage as the history.
 */
module MerchantProductsStorage {
  import opened Wrappers
  import opened Json
  import opened ListStore

  /** `MAX_MERCHANT_PRODUCTS` */
  const MAX_MERCHANT_PRODUCTS: nat := 50

  /** What a write keeps is read back unchanged: it is already within the read cap. */
  lemma ReadAfterPut(xs: seq<Json>)
    ensures ReadArray(Some(JArr(Take(xs, MAX_MERCHANT_PRODUCTS))), MAX_MERCHANT_PRODUCTS) == Take(xs, MAX_MERCHANT_PRODUCTS)
  {
  }

  /** A write keeps the first products in their order: every kept product sits where it was. */
  lemma PutKeepsOrder(xs: seq<Json>)
    ensures var kept := Take(xs, MAX_MERCHANT_PRODUCTS);
      |kept| <= MAX_MERCHANT_PRODUCTS
      && (forall i :: 0 <= i < |kept| ==> kept[i] == xs[i])
      && (|xs| <= MAX_MERCHANT_PRODUCTS ==> kept == xs)
  {
  }

  /**
   * The `merchant_products` object store: `items` is the `items` property of the record under
   * the key `'items'`; `readable` and `writable` say whether a read and a write succeed.
   */
  class MerchantDb {
    var items: Option<Json>
    var readable: bool
    var writable: bool

    constructor(items: Option<Json>, readable: bool, writable: bool)
      ensures this.items == items && this.readable == readable && this.writable == writable
    {
      this.items := items;
      this.readable := readable;
      this.writable := writable;
    }

    /** `getFromIDB()`: the stored array capped at 50, `[]` for a non-array; `None` when it rejects. */
    function Read(): (r: Option<seq<Json>>)
      reads this
      ensures r.None? <==> !readable
      ensures r.Some? ==> |r.value| <= MAX_MERCHANT_PRODUCTS
    {
      if readable then Some(ReadArray(items, MAX_MERCHANT_PRODUCTS)) else None
    }

    /** `putToIDB(items)`: writes the first 50 products, unsorted; `ok` is false when it rejects. */
    method Put(xs: seq<Json>) returns (ok: bool)
      modifies this
      ensures ok == writable && readable == old(readable) && writable == old(writable)
      ensures writable ==> items == Some(JArr(Take(xs, MAX_MERCHANT_PRODUCTS)))
      ensures !writable ==> items == old(items)
    {
      var limited := Take(xs, MAX_MERCHANT_PRODUCTS);
      if writable {
        items := Some(JArr(limited));
      }
      ok := writable;
    }

    /**
     * `getMerchantProducts(localStorageKey)`: `local` is the parsed localStorage value; the
     * choice and the migration follow `Choose`, and a failed migration write is ignored.
     */
    method GetMerchantProducts(local: Option<Json>) returns (r: seq<Json>)
      modifies this
      ensures var c := Choose(old(Read()), ReadArray(local, MAX_MERCHANT_PRODUCTS));
        r == c.items
        && (c.migrate && writable ==> items == Some(JArr(c.items)))
        && (!(c.migrate && writable) ==> items == old(items))
      ensures readable == old(readable) && writable == old(writable)
      ensures |r| <= MAX_MERCHANT_PRODUCTS
    {
      var fromLs := ReadArray(local, MAX_MERCHANT_PRODUCTS);
      if !readable {
        return fromLs;
      }
      var arr := ReadArray(items, MAX_MERCHANT_PRODUCTS);
      if |arr| == 0 && |fromLs| > 0 {
        var _ := Put(fromLs);
        return fromLs;
      }
      return arr;
    }

    /** `saveMerchantProducts(items)`: the write of the capped list, whose failure is swallowed. */
    method SaveMerchantProducts(xs: seq<Json>)
      modifies this
      ensures readable == old(readable) && writable == old(writable)
      ensures writable ==> items == Some(JArr(Take(xs, MAX_MERCHANT_PRODUCTS)))
      ensures writable ==> Read() == (if readable then Some(Take(xs, MAX_MERCHANT_PRODUCTS)) else None)
      ensures !writable ==> items == old(items)
    {
      var _ := Put(xs);
      ReadAfterPut(xs);
    }
  }
}
