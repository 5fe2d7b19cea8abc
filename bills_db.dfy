/**
 * The database-backed bills service (bills.service.db.ts): the `bills`
 * table and the `sync_status` rows of type `'bills'`. It shares the full
 * load with the invoices service, reads pages as a bare array or `data`,
 * writes every batch in one bulk save, and refreshes by asking for today's
 * bills and inserting the ones not cached yet.
 */
module BillsDb {
  import opened Wrappers
  import opened Seqs
  import opened Upstream
  import opened Paging
  import opened CacheRepository
  import opened StoreRegistry
  import opened DbSync
  import opened Incremental

  /** The refresh request: `limit=30, metadata=false, order_direction=ASC, date=<today>, type=bill`. */
  function TodayQuery(today: string): Query
  {
    Query(0, PageSize, false, false, OnDate(today), true)
  }

  /** Today's bills as the endpoint answers, array or `data`; a failed request throws. */
  function TodayBills(api: Api, today: string): (r: Fetch<seq<Doc>>)
    ensures r.Fetched? <==> Retrying(api, TodayQuery(today)).Ok?
    ensures r.Fetched? ==> r.value == ArrayOrData(Retrying(api, TodayQuery(today)).body)
  {
    var resp := Retrying(api, TodayQuery(today));
    if resp.Ok? then Fetched(ArrayOrData(resp.body)) else Unavailable
  }

  /** The records of `docs` whose id `store` does not cache yet, in order. */
  function Unseen(docs: seq<Doc>, t: Table, store: string): (r: seq<Doc>)
    ensures forall d :: d in r <==> d in docs && d.id !in StoreIds(t, store)
  {
    var ids := StoreIds(t, store);
    Filter(docs, (d: Doc) => d.id !in ids)
  }

  /** What a refresh writes: today's uncached bills, or nothing when the request failed. */
  function FreshToday(t: Table, store: string, api: Api, today: string): seq<Doc>
  {
    var got := TodayBills(api, today);
    if got.Fetched? then Unseen(got.value, t, store) else []
  }

  /** The table after a refresh of `store`. */
  function RefreshToday(t: Table, store: string, api: Api, today: string): Table
  {
    Upsert(t, store, FreshToday(t, store, api, today), {}, BillRows)
  }

  /** `totalRecords = Math.max(totalRecords, count)`. */
  function Recount(st: SyncStatus, t: Table, store: string): (r: SyncStatus)
    ensures r.totalRecords >= st.totalRecords && r.totalRecords >= StoreCount(t, store)
    ensures r.totalRecords == st.totalRecords || r.totalRecords == StoreCount(t, store)
    ensures r.(totalRecords := st.totalRecords) == st
  {
    st.(totalRecords := if st.totalRecords >= StoreCount(t, store) then st.totalRecords else StoreCount(t, store))
  }

  /**
   * A refresh never rewrites a cached bill: every row it starts with is kept
   * as it was. Every bill of today's answer is cached afterwards, and a bill
   * whose id was not cached adds a row.
   */
  lemma RefreshTodayKeepsCached(t: Table, store: string, api: Api, today: string)
    requires TodayBills(api, today).Fetched?
    ensures var r := RefreshToday(t, store, api, today);
            (forall k :: k in t ==> k in r && r[k] == t[k])
            && (forall d :: d in TodayBills(api, today).value ==> RowKey(d.id, store) in r)
            && (FreshToday(t, store, api, today) != [] ==> StoreCount(r, store) > StoreCount(t, store))
  {
    var added := FreshToday(t, store, api, today);
    var r := RefreshToday(t, store, api, today);
    forall k | k in t ensures k in r && r[k] == t[k] {
      UpsertAt(t, store, added, {}, BillRows, k);
      if k.store == store {
        assert k.id in StoreIds(t, store);
        assert forall d :: d in added ==> d.id != k.id;
      }
    }
    forall d | d in TodayBills(api, today).value ensures RowKey(d.id, store) in r {
      var k := RowKey(d.id, store);
      UpsertAt(t, store, added, {}, BillRows, k);
      LastAcceptedExists(added, d.id, {});
      if d.id !in StoreIds(t, store) {
        assert d in added;
        assert d.id in AcceptedIds(added, {});
      } else {
        var k' :| k' in t && k'.store == store && k'.id == d.id;
        assert k' == k;
      }
    }
    if added != [] {
      var d := added[0];
      var k := RowKey(d.id, store);
      UpsertAt(t, store, added, {}, BillRows, k);
      LastAcceptedExists(added, d.id, {});
      assert d.id in AcceptedIds(added, {});
      assert k !in StoreKeys(t, store) by {
        assert d.id !in StoreIds(t, store);
      }
      assert StoreKeys(t, store) + {k} <= StoreKeys(r, store);
      assert |StoreKeys(t, store) + {k}| == StoreCount(t, store) + 1;
      SubsetCard(StoreKeys(t, store) + {k}, StoreKeys(r, store));
    }
  }

  lemma SubsetCard(a: set<RowKey>, b: set<RowKey>)
    requires a <= b
    ensures |a| <= |b|
  {
    assert b == a + (b - a);
  }

  /**
   * `updateBillsManually` as written, from table `t` and the status row `st`
   * it reads: nothing while a sync runs; a full load when `totalRecords` is
   * 0; otherwise the refresh, after which the `finally` saves the row read
   * at the start with `isSyncing` cleared, over the total the refresh saved.
   */
  function ManualUpdateAsWritten(t: Table, st: SyncStatus, store: string, api: Api, today: string): (r: LoadResult)
    ensures !st.isSyncing && st.totalRecords != 0 ==> r.status == st
  {
    if st.isSyncing then LoadResult(t, st)
    else if st.totalRecords == 0 then Initialized(BillRows, t, st, store, api, {})
    else if !IsValidStore(store) then LoadResult(t, st)
    else LoadResult(RefreshToday(t, store, api, today), st)
  }

  /**
   * The stale write undoes the recount: from a row whose total matches the
   * cached count, a refresh that inserts a bill leaves the row's total below
   * the number of cached bills.
   */
  lemma ManualUpdateLosesCount(t: Table, st: SyncStatus, store: string, api: Api, today: string)
    requires !st.isSyncing && st.totalRecords != 0 && IsValidStore(store)
    requires st.totalRecords == StoreCount(t, store)
    requires TodayBills(api, today).Fetched? && FreshToday(t, store, api, today) != []
    ensures var r := ManualUpdateAsWritten(t, st, store, api, today);
            r.status.totalRecords < StoreCount(r.table, store)
  {
    RefreshTodayKeepsCached(t, store, api, today);
  }

  /**
   * `updateBillsManually` as intended: the row the refresh leaves (its total
   * raised to the cached count when it inserted bills), with `isSyncing` cleared.
   */
  function ManualUpdateIntended(t: Table, st: SyncStatus, store: string, api: Api, today: string): (r: LoadResult)
    ensures r.table == ManualUpdateAsWritten(t, st, store, api, today).table
    ensures !st.isSyncing ==> !r.status.isSyncing
  {
    if st.isSyncing then LoadResult(t, st)
    else if st.totalRecords == 0 then Initialized(BillRows, t, st, store, api, {})
    else if !IsValidStore(store) || FreshToday(t, store, api, today) == [] then LoadResult(t, st)
    else
      var r := RefreshToday(t, store, api, today);
      LoadResult(r, Recount(st, r, store))
  }

  /** A refresh that inserted bills leaves a total no lower than before and no lower than the cached count. */
  lemma ManualUpdateIntendedCounts(t: Table, st: SyncStatus, store: string, api: Api, today: string)
    requires !st.isSyncing && st.totalRecords != 0 && IsValidStore(store)
    requires FreshToday(t, store, api, today) != []
    ensures var r := ManualUpdateIntended(t, st, store, api, today);
            r.status.totalRecords >= st.totalRecords && r.status.totalRecords >= StoreCount(r.table, store)
            && r.status.totalRecords > 0
  {
  }

  /**
   * `clearCacheAndReload` keeps every cached bill: with `isSyncing` and
   * `isFullyLoaded` reset, the full load runs and only adds or replaces rows.
   */
  lemma ReloadKeepsRows(t: Table, st: SyncStatus, store: string, api: Api)
    ensures var r := Initialized(BillRows, t, st.(isSyncing := false, isFullyLoaded := false), store, api, {});
            (forall k :: k in t ==> k in r.table) && !r.status.isSyncing
  {
    var probe := Retrying(api, ProbeQuery(false));
    if IsValidStore(store) && probe.Ok? {
      var docs := LoadedDocs(api, BillRows, SharedStart, MetadataTotal(probe.body));
      forall k | k in t ensures k in Upsert(t, store, docs, {}, BillRows) {
        UpsertAt(t, store, docs, {}, BillRows, k);
      }
    }
  }

  /** How `getSyncStatus` fares when it has to create a missing row. */
  datatype StatusInsert =
    | Inserted                          // the new row is saved
    | InsertRaced(existing: SyncStatus) // the save fails and the row another call inserted is read back
    | InsertFailed                      // the save fails and no row is found: the error is rethrown

  class BillsDbService {
    /** The `bills` table. */
    var bills: Table
    /** The `sync_status` rows of type `'bills'`, by store. */
    var statuses: Statuses

    ghost predicate Valid()
      reads this
    {
      WellFormed(bills, BillRows)
    }

    constructor ()
      ensures Valid() && bills == map[] && statuses == map[]
    {
      bills := map[];
      statuses := map[];
    }

    /**
     * `getSyncStatus`: the store's row; a missing row is created with zero
     * total and both flags false, and a failed insert falls back to the
     * row a concurrent call inserted, or throws (`None`).
     */
    method GetSyncStatus(store: string, insert: StatusInsert) returns (r: Option<SyncStatus>)
      modifies this
      ensures bills == old(bills)
      ensures store in old(statuses) ==> r == Some(old(statuses)[store]) && statuses == old(statuses)
      ensures store !in old(statuses) ==>
                match insert
                case Inserted => r == Some(NewSyncStatus) && statuses == old(statuses)[store := NewSyncStatus]
                case InsertRaced(e) => r == Some(e) && statuses == old(statuses)[store := e]
                case InsertFailed => r == None && statuses == old(statuses)
    {
      if store in statuses {
        return Some(statuses[store]);
      }
      match insert {
        case Inserted =>
          statuses := statuses[store := NewSyncStatus];
          r := Some(NewSyncStatus);
        case InsertRaced(e) =>
          statuses := statuses[store := e];
          r := Some(e);
        case InsertFailed =>
          r := None;
      }
    }

    /** `getSyncStatus` when creating a missing row succeeds. */
    method ReadStatus(store: string) returns (st: SyncStatus)
      modifies this
      ensures st == StatusOf(old(statuses), store)
      ensures statuses == old(statuses)[store := st] && bills == old(bills)
    {
      var r := GetSyncStatus(store, Inserted);
      st := r.value;
    }

    /**
     * `getCachedBills`: rejects an invalid store; otherwise reads (or
     * creates) the status row, reports whether a background full load
     * starts (not fully loaded or empty, and no sync running) and returns the
     * cached bills by `date DESC, id DESC`.
     */
    method GetCachedBills(store: string) returns (r: Result<CachedView, CredentialsError>, fire: bool)
      requires Valid()
      modifies this
      ensures Valid() && bills == old(bills)
      ensures !IsValidStore(store) ==> r == Err(InvalidStore(store)) && !fire && statuses == old(statuses)
      ensures IsValidStore(store) ==>
                var st := StatusOf(old(statuses), store);
                statuses == old(statuses)[store := st]
                && (fire <==> (!st.isFullyLoaded || st.totalRecords == 0) && !st.isSyncing)
                && r.Ok? && ViewOf(bills, st, store, BillRows, r.value)
    {
      if !IsValidStore(store) {
        return Err(InvalidStore(store)), false;
      }
      var st := ReadStatus(store);
      fire := (!st.isFullyLoaded || st.totalRecords == 0) && !st.isSyncing;
      var data := FindStore(bills, store, BillRows);
      r := Result.Ok(CachedView(st.isSyncing, |data|, st.isFullyLoaded, data, store,
                                GetStoreDisplayName(store), st.totalRecords));
    }

    /** `resetSyncStatus`: clears both flags and the last sync time, keeping the total. */
    method ResetSyncStatus(store: string)
      modifies this
      ensures bills == old(bills)
      ensures statuses == old(statuses)[store := StatusOf(old(statuses), store).(isSyncing := false,
                                                   isFullyLoaded := false, lastSyncDatetime := None)]
    {
      var st := ReadStatus(store);
      statuses := statuses[store := st.(isSyncing := false, isFullyLoaded := false, lastSyncDatetime := None)];
    }

    /** `saveBillsToDB`: one bulk save of the batch; every bill's row replaces or creates its row. */
    method SaveBillsToDb(store: string, docs: seq<Doc>)
      requires Valid()
      modifies this
      ensures Valid()
      ensures bills == Upsert(old(bills), store, docs, {}, BillRows) && statuses == old(statuses)
    {
      UpsertWellFormed(bills, store, docs, {}, BillRows);
      bills := Upsert(bills, store, docs, {}, BillRows);
    }

    /** The batch loop of a full load: each batch's settled bills, saved in batch order. */
    method WriteBatches(store: string, api: Api, batches: seq<seq<nat>>)
      requires Valid()
      modifies this
      ensures Valid()
      ensures bills == Upsert(old(bills), store, BatchesDocs(api, BillRows, SharedStart, batches), {}, BillRows)
      ensures statuses == old(statuses)
    {
      for i := 0 to |batches|
        invariant Valid()
        invariant bills == Upsert(old(bills), store, BatchesDocs(api, BillRows, SharedStart, batches[..i]), {}, BillRows)
        invariant statuses == old(statuses)
      {
        var docs := BatchDocs(api, BillRows, SharedStart, batches[i]);
        assert batches[..i + 1][..i] == batches[..i];
        UpsertAppend(old(bills), store, BatchesDocs(api, BillRows, SharedStart, batches[..i]), docs, {}, BillRows);
        if docs != [] {
          SaveBillsToDb(store, docs);
        }
      }
      assert batches[..|batches|] == batches;
    }

    /** `loadAllBillsFromAPI`: a store `getCredentials` rejects throws before anything is read. */
    method LoadAllBillsFromApi(store: string, api: Api) returns (o: Outcome<CredentialsError>)
      requires Valid()
      modifies this
      ensures Valid()
      ensures !IsValidStore(store) ==> o == Fail(InvalidStore(store)) && bills == old(bills) && statuses == old(statuses)
      ensures IsValidStore(store) ==>
                var res := FullLoad(BillRows, old(bills), StatusOf(old(statuses), store), store, api, {});
                o.Pass? && bills == res.table && statuses == old(statuses)[store := res.status]
    {
      if !IsValidStore(store) {
        return Fail(InvalidStore(store));
      }
      LoadFromApi(store, api);
      o := Pass;
    }

    /** The body of `loadAllBillsFromAPI` once `getCredentials` accepted the store. */
    method LoadFromApi(store: string, api: Api)
      requires Valid()
      modifies this
      ensures Valid()
      ensures var res := FullLoad(BillRows, old(bills), StatusOf(old(statuses), store), store, api, {});
              bills == res.table && statuses == old(statuses)[store := res.status]
    {
      var st := ReadStatus(store);
      ghost var res := FullLoad(BillRows, old(bills), st, store, api, {});
      var probe := Retrying(api, ProbeQuery(false));
      if probe.Failed? {
        assert res == LoadResult(bills, st.(isSyncing := false));
        StatusRewritten(old(statuses), store, st, st.(isSyncing := false));
        statuses := statuses[store := st.(isSyncing := false)];
        return;
      }
      var total := MetadataTotal(probe.body);
      var batches := PlanBatches(0, total, DbBatchSize);
      StatusRewritten(old(statuses), store, st, st.(totalRecords := total));
      statuses := statuses[store := st.(totalRecords := total)];
      WriteBatches(store, api, batches);
      assert bills == res.table;
      var finalCount := StoreCount(bills, store);
      StatusRewritten(old(statuses), store, st.(totalRecords := total),
                      st.(totalRecords := total, isFullyLoaded := finalCount >= total, isSyncing := false));
      statuses := statuses[store := st.(totalRecords := total, isFullyLoaded := finalCount >= total, isSyncing := false)];
      assert res.status == st.(totalRecords := total, isFullyLoaded := finalCount >= total, isSyncing := false);
    }

    /** `initializeDataLoad`: the `isSyncing` guard around a full load. */
    method InitializeDataLoad(store: string, api: Api)
      requires Valid()
      modifies this
      ensures Valid()
      ensures var res := Initialized(BillRows, old(bills), StatusOf(old(statuses), store), store, api, {});
              bills == res.table && statuses == old(statuses)[store := res.status]
    {
      var st := ReadStatus(store);
      if st.isSyncing {
        return;
      }
      StatusRewritten(old(statuses), store, st, st.(isSyncing := true));
      statuses := statuses[store := st.(isSyncing := true)];
      var o := LoadAllBillsFromApi(store, api);
      if o.Fail? {
        StatusRewritten(old(statuses), store, st.(isSyncing := true), st.(isSyncing := false));
        statuses := statuses[store := st.(isSyncing := false)];
      } else {
        StatusRewritten(old(statuses), store, st.(isSyncing := true),
                        FullLoad(BillRows, old(bills), st.(isSyncing := true), store, api, {}).status);
      }
    }

    /**
     * `fetchNewBills`: rejects an invalid store; asks for today's bills,
     * keeps the ones whose id is not cached for the store, saves them and
     * raises the row's total to the cached count. A failed request throws.
     */
    method FetchNewBills(store: string, api: Api, today: string) returns (o: Outcome<SyncFailure>)
      requires Valid()
      modifies this
      ensures Valid()
      ensures !IsValidStore(store) ==>
                o == Fail(StoreRejected(InvalidStore(store))) && bills == old(bills) && statuses == old(statuses)
      ensures IsValidStore(store) ==>
                var added := FreshToday(old(bills), store, api, today);
                (o.Fail? <==> TodayBills(api, today).Unavailable?)
                && bills == RefreshToday(old(bills), store, api, today)
                && statuses == if added == [] then old(statuses)
                               else old(statuses)[store := Recount(StatusOf(old(statuses), store), bills, store)]
    {
      if !IsValidStore(store) {
        return Fail(StoreRejected(InvalidStore(store)));
      }
      var got := TodayBills(api, today);
      if got.Unavailable? {
        return Fail(RequestFailed);
      }
      o := Pass;
      var added := Unseen(got.value, bills, store);
      if added != [] {
        SaveBillsToDb(store, added);
        var st := ReadStatus(store);
        StatusRewritten(old(statuses), store, st, Recount(st, bills, store));
        statuses := statuses[store := Recount(st, bills, store)];
      }
    }

    /**
     * `updateBillsManually`: nothing while a sync runs; a full load when the
     * row's total is 0; otherwise `isSyncing` is saved, the refresh runs with
     * its errors caught, and the `finally` saves the row read at the start.
     */
    method UpdateBillsManually(store: string, api: Api, today: string)
      requires Valid()
      modifies this
      ensures Valid()
      ensures var res := ManualUpdateAsWritten(old(bills), StatusOf(old(statuses), store), store, api, today);
              bills == res.table && statuses == old(statuses)[store := res.status]
    {
      var st := ReadStatus(store);
      if st.isSyncing {
        return;
      }
      if st.totalRecords == 0 {
        InitializeDataLoad(store, api);
        return;
      }
      StatusRewritten(old(statuses), store, st, st.(isSyncing := true));
      statuses := statuses[store := st.(isSyncing := true)];
      ghost var during := statuses;
      var _ := FetchNewBills(store, api, today);
      StatusRewritten(old(statuses), store, st.(isSyncing := true), st.(isSyncing := false));
      StatusRewritten(during, store, Recount(st.(isSyncing := true), bills, store), st.(isSyncing := false));
      statuses := statuses[store := st.(isSyncing := false)];
    }

    /** `clearCacheAndReload`: no row is deleted; both flags are reset and `initializeDataLoad` runs. */
    method ClearCacheAndReload(store: string, api: Api)
      requires Valid()
      modifies this
      ensures Valid()
      ensures var st := StatusOf(old(statuses), store).(isSyncing := false, isFullyLoaded := false);
              var res := Initialized(BillRows, old(bills), st, store, api, {});
              bills == res.table && statuses == old(statuses)[store := res.status]
    {
      var st := ReadStatus(store);
      StatusRewritten(old(statuses), store, st, st.(isSyncing := false, isFullyLoaded := false));
      statuses := statuses[store := st.(isSyncing := false, isFullyLoaded := false)];
      InitializeDataLoad(store, api);
      StatusRewritten(old(statuses), store, st.(isSyncing := false, isFullyLoaded := false), statuses[store]);
    }

    /**
     * `ensureFullDataPersistence`: nothing while a sync runs; otherwise a
     * full load between an `isSyncing` save and a `finally` that saves the
     * row read at the start; a rejected store is rethrown.
     */
    method EnsureFullDataPersistence(store: string, api: Api) returns (o: Outcome<CredentialsError>)
      requires Valid()
      modifies this
      ensures Valid()
      ensures var st := StatusOf(old(statuses), store);
              var res := EnsureFullAsWritten(BillRows, old(bills), st, store, api, {});
              bills == res.table && statuses == old(statuses)[store := res.status]
              && (o.Fail? <==> !st.isSyncing && !IsValidStore(store))
    {
      var st := ReadStatus(store);
      if st.isSyncing {
        return Pass;
      }
      StatusRewritten(old(statuses), store, st, st.(isSyncing := true));
      statuses := statuses[store := st.(isSyncing := true)];
      o := LoadAllBillsFromApi(store, api);
      StatusRewritten(old(statuses), store, st.(isSyncing := true), st.(isSyncing := false));
      StatusRewritten(old(statuses)[store := st.(isSyncing := true)], store,
                      FullLoad(BillRows, old(bills), st.(isSyncing := true), store, api, {}).status, st.(isSyncing := false));
      statuses := statuses[store := st.(isSyncing := false)];
    }
  }
}
