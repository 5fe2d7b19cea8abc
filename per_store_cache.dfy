/**
 * bills.service.new.ts and invoices.service.new.ts: the same per-store
 * in-memory cache for bills (`type=bill`) and for invoices. Compared with
 * bills.service.ts the background load uses batches of 3 under
 * `Promise.all`, reads pages as `data.data || []` and reports the store
 * complete without checking the count; the refresh keeps `datetime` only and
 * runs phase 2 on the advanced cursor; the manual update has no `finally`.
 */
module PerStoreCache {
  import opened Wrappers
  import opened Upstream
  import opened Sorting
  import opened Paging
  import opened StoreRegistry
  import opened Incremental
  import opened DbSync
  import opened MemoryLoad

  /** The refresh of these services: `datetime` only, phase 2 on the advanced cursor, the result sorted. */
  const NewVariant := Variant(DatetimeOnly, true, true)

  /** The background load: batches of 3, `Promise.all`, pages read as `data.data || []`, and no count check. */
  function NewBackground(api: Api, typeBill: bool, c: StoreCache): StoreCache
  {
    Background(api, typeBill, DataOrEmpty, 3, AllOrNothing, true, c)
  }

  /**
   * `update...Manually` as written, once `fetchNew...` has answered `got`:
   * `updating` is set, new records are merged in front and re-sorted, and
   * `updating` is cleared on the way out; a throwing refresh skips the
   * clearing, so `updating` stays set.
   */
  function ManualUpdateAsWritten(c: StoreCache, got: Fetch<seq<Doc>>): (r: StoreCache)
    ensures got.Fetched? ==> !r.updating
    ensures got.Fetched? && |got.value| > 0 ==>
              SortedBy(r.cache, NewestFirst) && multiset(r.cache) == multiset(got.value) + multiset(c.cache)
              && r.progress == |r.cache| && r.lastDatetime == got.value[0].datetime
  {
    match got
    case Unavailable => c.(updating := true)
    case Fetched(added) => Merged(c, added, DatetimeOnly, true).(updating := false)
  }

  /**
   * A refresh that throws leaves the store marked as updating with its
   * records unchanged: reads report an update in progress until a later
   * manual update's refresh succeeds, which clears the flag.
   */
  lemma ManualUpdateStaysUpdating(api: Api, typeBill: bool, store: string, c: StoreCache)
    requires NewFor(api, typeBill, NewVariant, store, c.lastDatetime).Unavailable?
    ensures var r := ManualUpdateAsWritten(c, NewFor(api, typeBill, NewVariant, store, c.lastDatetime));
            r.updating && r.cache == c.cache && !NeedsInitialLoad(r)
            && forall added :: !ManualUpdateAsWritten(r, Fetched(added)).updating
  {
  }

  /** A rejected store makes the refresh throw, so any manual update of it sticks in `updating`. */
  lemma RejectedStoreStaysUpdating(api: Api, typeBill: bool, store: string, c: StoreCache)
    requires !IsValidStore(store)
    ensures ManualUpdateAsWritten(c, NewFor(api, typeBill, NewVariant, store, c.lastDatetime)).updating
  {
  }

  /**
   * The manual update with its flag cleared in a `finally`, as the
   * later bills.service.ts writes it: `updating` is false whatever the
   * refresh did, and a failed refresh changes nothing else.
   */
  function ManualUpdateIntended(c: StoreCache, got: Fetch<seq<Doc>>): (r: StoreCache)
    ensures !r.updating
    ensures got.Unavailable? ==> r == c.(updating := false)
    ensures got.Fetched? ==> r == ManualUpdateAsWritten(c, got)
  {
    match got
    case Unavailable => c.(updating := false)
    case Fetched(added) => Merged(c, added, DatetimeOnly, true).(updating := false)
  }

  class PerStoreCacheService {
    /** Whether this is the bills service (`type=bill` on every request) or the invoices one. */
    const typeBill: bool
    /** `storeCaches`: one cache record per store seen so far. */
    var storeCaches: map<string, StoreCache>

    constructor (typeBill: bool)
      ensures this.typeBill == typeBill && storeCaches == map[]
    {
      this.typeBill := typeBill;
      storeCaches := map[];
    }

    /** `getStoreCache`: the store's record, created empty on first access. */
    method GetStoreCache(store: string) returns (c: StoreCache)
      modifies this
      ensures c == CacheOf(old(storeCaches), store)
      ensures storeCaches == WithCache(old(storeCaches), store) == old(storeCaches)[store := c]
    {
      WithCacheWrites(storeCaches, store);
      storeCaches := WithCache(storeCaches, store);
      c := storeCaches[store];
    }

    /**
     * `initializeStoreIfNeeded` with `loadInitial...ForStore`: a store whose
     * cache is empty and not updating gets its first page; the cursor is the
     * first record's `datetime`; `started` says the background load was set off.
     */
    method InitializeStoreIfNeeded(store: string, api: Api) returns (started: bool)
      modifies this
      ensures var c := CacheOf(old(storeCaches), store);
              var got := InitialFor(api, typeBill, store);
              storeCaches == old(storeCaches)[store := if NeedsInitialLoad(c) then InitialLoaded(c, got, DatetimeOnly) else c]
              && (started <==> NeedsInitialLoad(c) && got.Fetched?)
    {
      var c := GetStoreCache(store);
      if !NeedsInitialLoad(c) {
        return false;
      }
      Overwritten(old(storeCaches), store, c, InitialLoaded(c, InitialFor(api, typeBill, store), DatetimeOnly));
      var got := InitialFor(api, typeBill, store);
      storeCaches := storeCaches[store := InitialLoaded(c, got, DatetimeOnly)];
      started := got.Fetched?;
    }

    /** `continueLoadingInBackground`: the rest of the store's records, a whole batch or nothing at a time. */
    method ContinueLoadingInBackground(store: string, api: Api)
      modifies this
      ensures !IsValidStore(store) ==> storeCaches == old(storeCaches)
      ensures IsValidStore(store) ==>
                storeCaches == old(storeCaches)[store := NewBackground(api, typeBill, CacheOf(old(storeCaches), store))]
    {
      if !IsValidStore(store) {
        return;
      }
      var c := GetStoreCache(store);
      var r := RunBackground(api, typeBill, DataOrEmpty, 3, AllOrNothing, true, c);
      Overwritten(old(storeCaches), store, c, r);
      storeCaches := storeCaches[store := r];
    }

    /** `fetchAll...`: every record of the store, newest first; `progress` follows the fetch. */
    method FetchAll(store: string, api: Api) returns (r: Result<seq<Doc>, SyncFailure>)
      modifies this
      ensures !IsValidStore(store) ==> r == Err(StoreRejected(InvalidStore(store))) && storeCaches == old(storeCaches)
      ensures IsValidStore(store) ==>
                var got := MemoryLoad.FetchAll(api, typeBill, DataOrEmpty, 3, true);
                (r.Ok? <==> got.docs.Fetched?) && (r.Ok? ==> r.value == got.docs.value)
                && (r.Err? ==> r.error == RequestFailed)
                && storeCaches == old(storeCaches)[store := CacheOf(old(storeCaches), store).(progress := got.progress)]
    {
      if !IsValidStore(store) {
        return Err(StoreRejected(InvalidStore(store)));
      }
      var got := CollectWithProgress(store, api);
      r := if got.docs.Fetched? then Result.Ok(got.docs.value) else Err(RequestFailed);
    }

    /** The full fetch for a store, with `progress` left where the fetch got to. */
    method CollectWithProgress(store: string, api: Api) returns (got: Collected)
      modifies this
      ensures got == MemoryLoad.FetchAll(api, typeBill, DataOrEmpty, 3, true)
      ensures storeCaches == old(storeCaches)[store := CacheOf(old(storeCaches), store).(progress := got.progress)]
    {
      var c := GetStoreCache(store);
      got := FetchAllDocs(api, typeBill, DataOrEmpty, 3, true);
      Overwritten(old(storeCaches), store, c, c.(progress := got.progress));
      storeCaches := storeCaches[store := c.(progress := got.progress)];
    }

    /** `fetchNew...`: the two-phase refresh from the store's last `datetime`; a rejected store throws first. */
    method FetchNew(store: string, api: Api) returns (r: Result<seq<Doc>, SyncFailure>)
      modifies this
      ensures var got := NewFor(api, typeBill, NewVariant, store, CacheOf(old(storeCaches), store).lastDatetime);
              (r.Ok? <==> got.Fetched?) && (r.Ok? ==> r.value == got.value)
      ensures !IsValidStore(store) ==> r == Err(StoreRejected(InvalidStore(store))) && storeCaches == old(storeCaches)
      ensures IsValidStore(store) ==> (r.Err? ==> r.error == RequestFailed) && storeCaches == WithCache(old(storeCaches), store)
    {
      if !IsValidStore(store) {
        return Err(StoreRejected(InvalidStore(store)));
      }
      var c := GetStoreCache(store);
      var got := FetchNewDocs(api, typeBill, NewVariant, c.lastDatetime);
      r := if got.Fetched? then Result.Ok(got.value) else Err(RequestFailed);
    }

    /** `fetchNew...` as `update...Manually` sees it: the refresh's answer, with the store's record already in place. */
    method RefreshStore(store: string, api: Api) returns (got: Fetch<seq<Doc>>)
      requires store in storeCaches
      modifies this
      ensures got == NewFor(api, typeBill, NewVariant, store, old(storeCaches)[store].lastDatetime)
      ensures storeCaches == old(storeCaches)
    {
      var r := FetchNew(store, api);
      got := if r.Ok? then Fetched(r.value) else Unavailable;
    }

    /** `update...Manually`, as written: no guard, and no `finally`. */
    method UpdateManually(store: string, api: Api)
      modifies this
      ensures var c := CacheOf(old(storeCaches), store);
              storeCaches == old(storeCaches)[store :=
                ManualUpdateAsWritten(c, NewFor(api, typeBill, NewVariant, store, c.lastDatetime))]
    {
      var c := CacheOf(storeCaches, store);
      storeCaches := storeCaches[store := c.(updating := true)];
      var got := RefreshStore(store, api);
      if got.Unavailable? {
        return;
      }
      Overwritten(old(storeCaches), store, c.(updating := true), ManualUpdateAsWritten(c, got));
      storeCaches := storeCaches[store := ManualUpdateAsWritten(c, got)];
    }

    /** `getCached...`: rejects an invalid store; otherwise initialises the store if needed and returns its view. */
    method GetCached(store: string, api: Api) returns (r: Result<CacheView, CredentialsError>, started: bool)
      modifies this
      ensures !IsValidStore(store) ==> r == Err(InvalidStore(store)) && !started && storeCaches == old(storeCaches)
      ensures IsValidStore(store) ==>
                var c := CacheOf(old(storeCaches), store);
                var after := if NeedsInitialLoad(c) then InitialLoaded(c, InitialDocs(api, typeBill), DatetimeOnly) else c;
                storeCaches == old(storeCaches)[store := after]
                && r == Result.Ok(CacheViewOf(after, store, GetStoreDisplayName(store)))
                && (started <==> NeedsInitialLoad(c) && InitialDocs(api, typeBill).Fetched?)
    {
      if !IsValidStore(store) {
        return Err(InvalidStore(store)), false;
      }
      started := InitializeStoreIfNeeded(store, api);
      r := Result.Ok(CacheViewOf(storeCaches[store], store, GetStoreDisplayName(store)));
    }
  }
}
