/**
 * What the history and merchant-product stores share: the read caps (`slice(0, 50)` after an
 * `Array.isArray` test) and the rule `getHistory` / `getMerchantProducts` use to choose between
 * the IndexedDB list and the localStorage list, and when to migrate the latter.
 */
module ListStore {
  import opened Wrappers
  import opened Json

  /** `xs.slice(0, n)` */
  function Take<T>(xs: seq<T>, n: nat): (r: seq<T>)
    ensures r <= xs
    ensures |r| == if |xs| <= n then |xs| else n
  {
    if |xs| <= n then xs else xs[..n]
  }

  /**
   * `Array.isArray(raw) ? raw.slice(0, cap) : []`, for the record's `items` read from the store
   * and for the parsed localStorage value alike. `None` stands for a missing record, a missing
   * or empty localStorage key, and a value `JSON.parse` refuses.
   */
  function ReadArray(raw: Option<Json>, cap: nat): (r: seq<Json>)
    ensures |r| <= cap
    ensures !IsArray(raw) ==> r == []
    ensures IsArray(raw) ==> r == Take(raw.value.items, cap)
  {
    if IsArray(raw) then Take(raw.value.items, cap) else []
  }

  /** What the loader returns, and whether it writes that list back into the store. */
  datatype Loaded = Loaded(items: seq<Json>, migrate: bool)

  /**
   * The choice of `getHistory` and `getMerchantProducts`: `store` is the list the store read
   * gives, `None` when opening or reading the store fails; `local` is the localStorage list.
   * The store's items win when there are any; an empty store gives the localStorage list when
   * that is non-empty, and only then is it migrated; a failing store gives the localStorage list
   * and writes nothing.
   */
  function Choose(store: Option<seq<Json>>, local: seq<Json>): (r: Loaded)
    ensures store.Some? && store.value != [] ==> r == Loaded(store.value, false)
    ensures store.Some? && store.value == [] && local != [] ==> r == Loaded(local, true)
    ensures store.Some? && store.value == [] && local == [] ==> r == Loaded([], false)
    ensures store.None? ==> r == Loaded(local, false)
    ensures r.migrate <==> store == Some([]) && local != []
  {
    if store.None? then Loaded(local, false)
    else if |store.value| == 0 && |local| > 0 then Loaded(local, true)
    else Loaded(store.value, false)
  }

  /** The result is one of the two lists, so within the cap when both are. */
  lemma ChooseWithinCap(store: Option<seq<Json>>, local: seq<Json>, cap: nat)
    requires store.Some? ==> |store.value| <= cap
    requires |local| <= cap
    ensures |Choose(store, local).items| <= cap
    ensures Choose(store, local).items == local || (store.Some? && Choose(store, local).items == store.value)
  {
  }
}
