/**
 * bills.service.ts: bills of every store cached in memory. The first page
 * is shown at once and the rest is loaded in the background in batches of 2
 * under `Promise.allSettled`; a manual update prepends the new bills and
 * re-sorts, with a `finally` that clears `updating`.
 */
module BillsMemory {
  import opened Wrappers
  import opened Upstream
  import opened Sorting
  import opened Paging
  import opened StoreRegistry
  import opened Incremental
  import opened DbSync
  import opened MemoryLoad

  /** The two-phase refresh of this service: the cursor advances by `datetime || date`, phase 2 stays on the cursor's original day, and the result is sorted. */
  const BillsVariant := Variant(DatetimeOrDate, false, true)

  /** The background load: batches of 2, `Promise.allSettled`, pages read as `data.data || data`, an envelope without `data` kept as one element, and the count check. */
  function BillsBackground(api: Api, c: StoreCache): StoreCache
  {
    Background(api, true, DataOrSelf, 2, AllSettled, false, c)
  }

  /** The full fetch: batches of 2 under `Promise.all`, pages read as `data.data || data` (an envelope without `data` kept as one element), the result sorted. */
  function AllBills(api: Api): Collected
  {
    FetchAll(api, true, DataOrSelf, 2, true)
  }

  /**
   * `updateBillsManually` on a non-empty cache once `fetchNewBills` has
   * answered `got`: nothing while an update runs; otherwise the new bills
   * are merged in front and re-sorted, a failure is caught, and the
   * `finally` leaves `updating` false.
   */
  function ManualRefresh(c: StoreCache, got: Fetch<seq<Doc>>): (r: StoreCache)
    ensures c.updating ==> r == c
    ensures !c.updating ==> !r.updating && r.fullyLoaded == c.fullyLoaded
    ensures !c.updating && got.Unavailable? ==> r == c
    ensures !c.updating && got == Fetched([]) ==> r == c
    ensures !c.updating && got.Fetched? && |got.value| > 0 ==>
              SortedBy(r.cache, NewestFirst)
              && multiset(r.cache) == multiset(got.value) + multiset(c.cache)
              && r.progress == |r.cache|
              && r.lastDatetime == StampOf(DatetimeOrDate, got.value[0])
  {
    if c.updating then c
    else
      match got
      case Unavailable => c
      case Fetched(added) => Merged(c, added, DatetimeOrDate, true)
  }

  /**
   * A manual update adds each new bill once: the refresh's bills have
   * distinct ids, so every one of them occurs in the new cache exactly one
   * time more than in the old.
   */
  lemma ManualRefreshAddsOnce(api: Api, c: StoreCache, d: Doc)
    requires !c.updating
    requires FetchNew(api, true, BillsVariant, c.lastDatetime).Fetched?
    requires d in FetchNew(api, true, BillsVariant, c.lastDatetime).value
    ensures multiset(ManualRefresh(c, FetchNew(api, true, BillsVariant, c.lastDatetime)).cache)[d]
            == multiset(c.cache)[d] + 1
  {
    var added := FetchNew(api, true, BillsVariant, c.lastDatetime).value;
    DistinctIdsOnce(added, d);
  }

  class BillsMemoryService {
    /** `storeCaches`: one cache record per store seen so far. */
    var storeCaches: map<string, StoreCache>

    constructor ()
      ensures storeCaches == map[]
    {
      storeCaches := map[];
    }

    /** `getStoreCache`: the store's record, created empty on first access. */
    method GetStoreCache(store: string) returns (c: StoreCache)
      modifies this
      ensures c == CacheOf(old(storeCaches), store)
      ensures storeCaches == WithCache(old(storeCaches), store) == old(storeCaches)[store := c]
    {
      WithCacheWrites(storeCaches, store);
      storeCaches := WithCache(storeCaches, store);
      c := storeCaches[store];
    }

    /**
     * `initializeStoreIfNeeded` with `loadInitialBillsForStore`: a store
     * whose cache is empty and not updating gets its first page (none for a
     * store `getCredentials` rejects); `started` says the background load
     * was set off.
     */
    method InitializeStoreIfNeeded(store: string, api: Api) returns (started: bool)
      modifies this
      ensures var c := CacheOf(old(storeCaches), store);
              var got := InitialFor(api, true, store);
              storeCaches == old(storeCaches)[store := if NeedsInitialLoad(c) then InitialLoaded(c, got, DatetimeOrDate) else c]
              && (started <==> NeedsInitialLoad(c) && got.Fetched?)
    {
      var c := GetStoreCache(store);
      if !NeedsInitialLoad(c) {
        return false;
      }
      Overwritten(old(storeCaches), store, c, InitialLoaded(c, InitialFor(api, true, store), DatetimeOrDate));
      var got := InitialFor(api, true, store);
      storeCaches := storeCaches[store := InitialLoaded(c, got, DatetimeOrDate)];
      started := got.Fetched?;
    }

    /** `continueLoadingInBackground`: the rest of the store's bills, appended batch by batch. */
    method ContinueLoadingInBackground(store: string, api: Api)
      modifies this
      ensures !IsValidStore(store) ==> storeCaches == old(storeCaches)
      ensures IsValidStore(store) ==>
                storeCaches == old(storeCaches)[store := BillsBackground(api, CacheOf(old(storeCaches), store))]
    {
      if !IsValidStore(store) {
        return;
      }
      var c := GetStoreCache(store);
      var r := RunBackground(api, true, DataOrSelf, 2, AllSettled, false, c);
      Overwritten(old(storeCaches), store, c, r);
      storeCaches := storeCaches[store := r];
    }

    /** `fetchAllBills`: every bill of the store, newest first; `progress` follows the fetch. */
    method FetchAllBills(store: string, api: Api) returns (r: Result<seq<Doc>, SyncFailure>)
      modifies this
      ensures !IsValidStore(store) ==> r == Err(StoreRejected(InvalidStore(store))) && storeCaches == old(storeCaches)
      ensures IsValidStore(store) ==>
                var got := AllBills(api);
                (r.Ok? <==> got.docs.Fetched?) && (r.Ok? ==> r.value == got.docs.value)
                && (r.Err? ==> r.error == RequestFailed)
                && storeCaches == old(storeCaches)[store := CacheOf(old(storeCaches), store).(progress := got.progress)]
    {
      if !IsValidStore(store) {
        return Err(StoreRejected(InvalidStore(store)));
      }
      var got := CollectWithProgress(store, api);
      r := if got.docs.Fetched? then Result.Ok(got.docs.value) else Err(RequestFailed);
    }

    /** The full fetch for a store, with `progress` left where the fetch got to. */
    method CollectWithProgress(store: string, api: Api) returns (got: Collected)
      modifies this
      ensures got == AllBills(api)
      ensures storeCaches == old(storeCaches)[store := CacheOf(old(storeCaches), store).(progress := got.progress)]
    {
      var c := GetStoreCache(store);
      got := FetchAllDocs(api, true, DataOrSelf, 2, true);
      Overwritten(old(storeCaches), store, c, c.(progress := got.progress));
      storeCaches := storeCaches[store := c.(progress := got.progress)];
    }

    /** `fetchNewBills`: the two-phase refresh from the store's last stamp; a rejected store throws first. */
    method FetchNewBills(store: string, api: Api) returns (r: Result<seq<Doc>, SyncFailure>)
      modifies this
      ensures var got := NewFor(api, true, BillsVariant, store, CacheOf(old(storeCaches), store).lastDatetime);
              (r.Ok? <==> got.Fetched?) && (r.Ok? ==> r.value == got.value)
      ensures !IsValidStore(store) ==> r == Err(StoreRejected(InvalidStore(store))) && storeCaches == old(storeCaches)
      ensures IsValidStore(store) ==> (r.Err? ==> r.error == RequestFailed) && storeCaches == WithCache(old(storeCaches), store)
    {
      if !IsValidStore(store) {
        return Err(StoreRejected(InvalidStore(store)));
      }
      var c := GetStoreCache(store);
      var got := FetchNewDocs(api, true, BillsVariant, c.lastDatetime);
      r := if got.Fetched? then Result.Ok(got.value) else Err(RequestFailed);
    }

    /** `clearCacheAndReload`: the store's record is emptied and its first page loaded again. */
    method ClearCacheAndReload(store: string, api: Api) returns (started: bool)
      modifies this
      ensures var got := InitialFor(api, true, store);
              storeCaches == old(storeCaches)[store := InitialLoaded(EmptyCache, got, DatetimeOrDate)]
              && (started <==> got.Fetched?)
    {
      // `getStoreCache` and then every field of the record reset: an empty record
      storeCaches := storeCaches[store := EmptyCache];
      ghost var cleared := storeCaches;
      assert CacheOf(cleared, store) == EmptyCache && NeedsInitialLoad(EmptyCache);
      started := InitializeStoreIfNeeded(store, api);
      Overwritten(old(storeCaches), store, EmptyCache, storeCaches[store]);
    }

    /** `loadAllBillsFromAPI`: the full fetch replaces the cache and marks the store complete; a failure is rethrown. */
    method LoadAllBillsFromApi(store: string, api: Api) returns (o: Outcome<SyncFailure>)
      modifies this
      ensures !IsValidStore(store) ==> o == Fail(StoreRejected(InvalidStore(store))) && storeCaches == old(storeCaches)
      ensures IsValidStore(store) ==>
                (o.Pass? <==> AllBills(api).docs.Fetched?)
                && storeCaches == old(storeCaches)[store := FullyLoaded(CacheOf(old(storeCaches), store), AllBills(api), DatetimeOrDate)]
    {
      var r := FetchAllBills(store, api);
      if r.Err? {
        return Fail(r.error);
      }
      var c := storeCaches[store];
      assert AllBills(api).docs == Fetched(r.value);
      Overwritten(old(storeCaches), store, c, FullyLoaded(c, Collected(Fetched(r.value), |r.value|), DatetimeOrDate));
      storeCaches := storeCaches[store := FullyLoaded(c, Collected(Fetched(r.value), |r.value|), DatetimeOrDate)];
      o := Pass;
    }

    /**
     * `updateBillsManually`: an empty cache is cleared and reloaded; a cache
     * being updated is left alone; otherwise the new bills are merged in
     * front and re-sorted, and `updating` ends false.
     */
    method UpdateBillsManually(store: string, api: Api) returns (started: bool)
      modifies this
      ensures var c := CacheOf(old(storeCaches), store);
              |c.cache| == 0 ==>
                var got := InitialFor(api, true, store);
                storeCaches == old(storeCaches)[store := InitialLoaded(EmptyCache, got, DatetimeOrDate)]
                && (started <==> got.Fetched?)
      ensures var c := CacheOf(old(storeCaches), store);
              |c.cache| > 0 ==>
                var got := NewFor(api, true, BillsVariant, store, c.lastDatetime);
                storeCaches == old(storeCaches)[store := ManualRefresh(c, got)] && !started
    {
      // `getStoreCache`: every path below overwrites the store's record or finds it present
      var c := CacheOf(storeCaches, store);
      if |c.cache| == 0 {
        started := ClearCacheAndReload(store, api);
        return;
      }
      started := false;
      if c.updating {
        assert storeCaches[store := c] == storeCaches;
        return;
      }
      storeCaches := storeCaches[store := c.(updating := true)];
      var got := RefreshBills(store, api);
      Overwritten(old(storeCaches), store, c.(updating := true), ManualRefresh(c, got));
      storeCaches := storeCaches[store := ManualRefresh(c, got)];
    }

    /** `fetchNewBills` as `updateBillsManually` sees it: the refresh's answer, with the store's record already in place. */
    method RefreshBills(store: string, api: Api) returns (got: Fetch<seq<Doc>>)
      requires store in storeCaches
      modifies this
      ensures got == NewFor(api, true, BillsVariant, store, old(storeCaches)[store].lastDatetime)
      ensures storeCaches == old(storeCaches)
    {
      var r := FetchNewBills(store, api);
      got := if r.Ok? then Fetched(r.value) else Unavailable;
    }

    /** `getCachedBills`: rejects an invalid store; otherwise initialises the store if needed and returns its view. */
    method GetCachedBills(store: string, api: Api) returns (r: Result<CacheView, CredentialsError>, started: bool)
      modifies this
      ensures !IsValidStore(store) ==> r == Err(InvalidStore(store)) && !started && storeCaches == old(storeCaches)
      ensures IsValidStore(store) ==>
                var c := CacheOf(old(storeCaches), store);
                var after := if NeedsInitialLoad(c) then InitialLoaded(c, InitialDocs(api, true), DatetimeOrDate) else c;
                storeCaches == old(storeCaches)[store := after]
                && r == Result.Ok(CacheViewOf(after, store, GetStoreDisplayName(store)))
                && (started <==> NeedsInitialLoad(c) && InitialDocs(api, true).Fetched?)
    {
      if !IsValidStore(store) {
        return Err(InvalidStore(store)), false;
      }
      started := InitializeStoreIfNeeded(store, api);
      r := Result.Ok(CacheViewOf(storeCaches[store], store, GetStoreDisplayName(store)));
    }
  }
}
