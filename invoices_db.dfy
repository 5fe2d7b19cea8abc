/**
 * The database-backed invoices service (invoices.service.db.ts): the
 * `invoices` table and the `sync_status` rows of type `'invoices'`, the read
 * path that decides whether a background full load starts, the full load,
 * the per-record upsert, the incremental refresh and the maintenance
 * operations. Every upstream call goes through `makeRequestWithRetry`.
 */
module InvoicesDb {
  import opened Wrappers
  import opened Text
  import opened Seqs
  import opened Upstream
  import opened Paging
  import opened CacheRepository
  import opened StoreRegistry
  import opened DbSync
  import opened Incremental

  /** `limit` of the two requests of an incremental refresh. */
  const RefreshLimit: nat := 100

  /** The first refresh request: `start=0, limit=100, metadata=true, DESC, date_after=<day>`. */
  function RefreshAfterQuery(day: string): Query
  {
    Query(0, RefreshLimit, true, true, DateAfter(day), false)
  }

  /** The second refresh request: `start=0, limit=100, metadata=false, DESC, date=<day>`. */
  function RefreshSameDayQuery(day: string): Query
  {
    Query(0, RefreshLimit, false, true, OnDate(day), false)
  }

  /** The day a refresh starts from: the newest row's `datetime`, else its `date`, else today. */
  function ReferenceDay(last: Doc, today: string): string
  {
    if Truthy(last.datetime) then DayOf(last.datetime.value)
    else if Truthy(last.date) then DayOf(last.date.value)
    else today
  }

  /** The newest row's `datetime` column as text; "" when it is null, which no record is newer than. */
  function LastStamp(last: Doc): string
  {
    if Truthy(last.datetime) then last.datetime.value else ""
  }

  /**
   * The records a refresh writes, given the newest cached record: the
   * `date_after` page, then the same-day records strictly newer than the
   * newest row, without repeated ids. Either request failing makes the
   * refresh throw.
   */
  function NewInvoices(api: Api, last: Doc, today: string): (r: Fetch<seq<Doc>>)
    ensures var day := ReferenceDay(last, today);
            var after := Retrying(api, RefreshAfterQuery(day));
            var same := Retrying(api, RefreshSameDayQuery(day));
            (r.Fetched? <==> after.Ok? && same.Ok?)
            && (r.Fetched? ==>
                  (forall i, j :: 0 <= i < j < |r.value| ==> r.value[i].id != r.value[j].id)
                  && forall x :: x in r.value ==>
                       x in DataOrEmpty(after.body) || (x in DataOrEmpty(same.body) && NewerThan(x, LastStamp(last))))
  {
    var day := ReferenceDay(last, today);
    var after := Retrying(api, RefreshAfterQuery(day));
    var same := Retrying(api, RefreshSameDayQuery(day));
    if after.Failed? || same.Failed? then Unavailable
    else Fetched(MergeNew(DataOrEmpty(after.body), DataOrEmpty(same.body), LastStamp(last)))
  }

  /** When the newest row has no `datetime`, the refresh writes only the `date_after` page (first occurrences). */
  lemma NewInvoicesWithoutStamp(api: Api, last: Doc, today: string)
    requires !Truthy(last.datetime)
    requires NewInvoices(api, last, today).Fetched?
    ensures forall x :: x in NewInvoices(api, last, today).value ==>
              x in DataOrEmpty(Retrying(api, RefreshAfterQuery(ReferenceDay(last, today))).body)
  {
  }

  /** A refresh that fetched `docs` writes them; one that failed writes nothing. */
  function Refreshed(t: Table, store: string, got: Fetch<seq<Doc>>, refused: set<int>): Table
  {
    if got.Fetched? then Upsert(t, store, got.value, refused, InvoiceRows) else t
  }


  /**
   * `clearCacheAndReload` for a valid store whose probe succeeds: other
   * stores keep their rows, the store ends with exactly one row per distinct
   * accepted id of the pages below the total, and it is fully loaded exactly
   * when those ids reach the total.
   */
  lemma ReloadIsExact(t: Table, store: string, api: Api, refused: set<int>)
    requires IsValidStore(store) && Retrying(api, ProbeQuery(false)).Ok?
    ensures var r := Initialized(InvoiceRows, DeleteStore(t, store), NewSyncStatus, store, api, refused);
            var total := MetadataTotal(Retrying(api, ProbeQuery(false)).body);
            var docs := LoadedDocs(api, InvoiceRows, SharedStart, total);
            StoreKeys(r.table, store) == AcceptedKeys(docs, refused, store)
            && (r.status.isFullyLoaded <==> |AcceptedIds(docs, refused)| >= total)
            && r.status.totalRecords == total && !r.status.isSyncing
            && forall k: RowKey :: k.store != store ==> (k in r.table <==> k in t) && (k in t ==> r.table[k] == t[k])
  {
    var total := MetadataTotal(Retrying(api, ProbeQuery(false)).body);
    var docs := LoadedDocs(api, InvoiceRows, SharedStart, total);
    var cleared := DeleteStore(t, store);
    InitializedRecordsTotal(InvoiceRows, cleared, NewSyncStatus, store, api, refused);
    UpsertIntoEmptyStore(cleared, store, docs, refused, InvoiceRows);
    UpsertOtherStores(cleared, store, docs, refused, InvoiceRows);
  }

  class InvoicesDbService {
    /** The `invoices` table. */
    var invoices: Table
    /** The `sync_status` rows of type `'invoices'`, by store. */
    var statuses: Statuses

    ghost predicate Valid()
      reads this
    {
      WellFormed(invoices, InvoiceRows)
    }

    constructor ()
      ensures Valid() && invoices == map[] && statuses == map[]
    {
      invoices := map[];
      statuses := map[];
    }

    /** `getSyncStatus`: the store's row, created with zero total and both flags false when missing. */
    method GetSyncStatus(store: string) returns (st: SyncStatus)
      modifies this
      ensures st == StatusOf(old(statuses), store)
      ensures statuses == old(statuses)[store := st]
      ensures invoices == old(invoices)
    {
      if store in statuses {
        st := statuses[store];
      } else {
        st := NewSyncStatus;
        statuses := statuses[store := st];
      }
    }

    /**
     * `getCachedInvoices`: rejects an invalid store; otherwise reads (or
     * creates) the status row, reports whether a background full load
     * starts (`totalRecords === 0 && !isSyncing`) and returns the cached
     * records newest first.
     */
    method GetCachedInvoices(store: string) returns (r: Result<CachedView, CredentialsError>, fire: bool)
      requires Valid()
      modifies this
      ensures Valid() && invoices == old(invoices)
      ensures !IsValidStore(store) ==> r == Err(InvalidStore(store)) && !fire && statuses == old(statuses)
      ensures IsValidStore(store) ==>
                var st := StatusOf(old(statuses), store);
                statuses == old(statuses)[store := st]
                && (fire <==> st.totalRecords == 0 && !st.isSyncing)
                && r.Ok? && ViewOf(invoices, st, store, InvoiceRows, r.value)
    {
      if !IsValidStore(store) {
        return Err(InvalidStore(store)), false;
      }
      var st := GetSyncStatus(store);
      fire := st.totalRecords == 0 && !st.isSyncing;
      var data := FindStore(invoices, store, InvoiceRows);
      r := Result.Ok(CachedView(st.isSyncing, |data|, st.isFullyLoaded, data, store,
                                GetStoreDisplayName(store), st.totalRecords));
    }

    /** `saveInvoicesToDB`: each record replaces or creates its row; a record whose write fails is skipped. */
    method SaveInvoicesToDb(store: string, docs: seq<Doc>, refused: set<int>)
      requires Valid()
      modifies this
      ensures Valid()
      ensures invoices == Upsert(old(invoices), store, docs, refused, InvoiceRows)
      ensures statuses == old(statuses)
    {
      for i := 0 to |docs|
        invariant invoices == Upsert(old(invoices), store, docs[..i], refused, InvoiceRows)
        invariant statuses == old(statuses)
      {
        var d := docs[i];
        assert docs[..i + 1] == docs[..i] + [d];
        UpsertAppend(old(invoices), store, docs[..i], [d], refused, InvoiceRows);
        if d.id !in refused {
          invoices := invoices[RowKey(d.id, store) := RowOf(InvoiceRows, d)];
        }
      }
      assert docs[..|docs|] == docs;
      UpsertWellFormed(old(invoices), store, docs, refused, InvoiceRows);
    }

    /** The batch loop of a full load: each batch's settled records, written in batch order. */
    method WriteBatches(store: string, api: Api, refused: set<int>, batches: seq<seq<nat>>)
      requires Valid()
      modifies this
      ensures Valid()
      ensures invoices == Upsert(old(invoices), store, BatchesDocs(api, InvoiceRows, SharedStart, batches), refused, InvoiceRows)
      ensures statuses == old(statuses)
    {
      for i := 0 to |batches|
        invariant Valid()
        invariant invoices == Upsert(old(invoices), store, BatchesDocs(api, InvoiceRows, SharedStart, batches[..i]), refused, InvoiceRows)
        invariant statuses == old(statuses)
      {
        var docs := BatchDocs(api, InvoiceRows, SharedStart, batches[i]);
        assert batches[..i + 1][..i] == batches[..i];
        UpsertAppend(old(invoices), store, BatchesDocs(api, InvoiceRows, SharedStart, batches[..i]), docs, refused, InvoiceRows);
        if docs != [] {
          SaveInvoicesToDb(store, docs, refused);
        }
      }
      assert batches[..|batches|] == batches;
    }

    /**
     * `loadAllInvoicesFromAPI`: the probe, then every batch of two pages
     * settled and written, then the total, the fully-loaded flag and
     * `isSyncing = false` on the status row it read.
     */
    method LoadAllInvoicesFromApi(store: string, api: Api, refused: set<int>) returns (o: Outcome<CredentialsError>)
      requires Valid()
      modifies this
      ensures Valid()
      ensures !IsValidStore(store) ==> o == Fail(InvalidStore(store)) && invoices == old(invoices) && statuses == old(statuses)
      ensures IsValidStore(store) ==>
                var res := FullLoad(InvoiceRows, old(invoices), StatusOf(old(statuses), store), store, api, refused);
                o.Pass? && invoices == res.table && statuses == old(statuses)[store := res.status]
    {
      if !IsValidStore(store) {
        return Fail(InvalidStore(store));
      }
      LoadFromApi(store, api, refused);
      o := Pass;
    }

    /** The body of `loadAllInvoicesFromAPI` once `getCredentials` accepted the store. */
    method LoadFromApi(store: string, api: Api, refused: set<int>)
      requires Valid()
      modifies this
      ensures Valid()
      ensures var res := FullLoad(InvoiceRows, old(invoices), StatusOf(old(statuses), store), store, api, refused);
              invoices == res.table && statuses == old(statuses)[store := res.status]
    {
      var st := GetSyncStatus(store);
      ghost var res := FullLoad(InvoiceRows, old(invoices), st, store, api, refused);
      var probe := Retrying(api, ProbeQuery(false));
      if probe.Failed? {
        assert res == LoadResult(invoices, st.(isSyncing := false));
        StatusRewritten(old(statuses), store, st, st.(isSyncing := false));
        statuses := statuses[store := st.(isSyncing := false)];
        return;
      }
      var total := MetadataTotal(probe.body);
      var batches := PlanBatches(0, total, DbBatchSize);
      StatusRewritten(old(statuses), store, st, st.(totalRecords := total));
      statuses := statuses[store := st.(totalRecords := total)];
      WriteBatches(store, api, refused, batches);
      assert invoices == res.table;
      var finalCount := StoreCount(invoices, store);
      StatusRewritten(old(statuses), store, st.(totalRecords := total),
                      st.(totalRecords := total, isFullyLoaded := finalCount >= total, isSyncing := false));
      statuses := statuses[store := st.(totalRecords := total, isFullyLoaded := finalCount >= total, isSyncing := false)];
      assert res.status == st.(totalRecords := total, isFullyLoaded := finalCount >= total, isSyncing := false);
    }

    /** `initializeDataLoad`: the `isSyncing` guard around a full load. */
    method InitializeDataLoad(store: string, api: Api, refused: set<int>)
      requires Valid()
      modifies this
      ensures Valid()
      ensures var res := Initialized(InvoiceRows, old(invoices), StatusOf(old(statuses), store), store, api, refused);
              invoices == res.table && statuses == old(statuses)[store := res.status]
    {
      var st := GetSyncStatus(store);
      if st.isSyncing {
        return;
      }
      StatusRewritten(old(statuses), store, st, st.(isSyncing := true));
      statuses := statuses[store := st.(isSyncing := true)];
      var o := LoadAllInvoicesFromApi(store, api, refused);
      if o.Fail? {
        StatusRewritten(old(statuses), store, st.(isSyncing := true), st.(isSyncing := false));
        statuses := statuses[store := st.(isSyncing := false)];
      } else {
        StatusRewritten(old(statuses), store, st.(isSyncing := true),
                        FullLoad(InvoiceRows, old(invoices), st.(isSyncing := true), store, api, refused).status);
      }
    }

    /**
     * `fetchNewInvoices`: rejects an invalid store; an empty store gets a
     * full load; otherwise the two refresh requests from the newest row's
     * day, and the records written. A failed request throws and writes nothing.
     */
    method FetchNewInvoices(store: string, api: Api, refused: set<int>, today: string) returns (o: Outcome<SyncFailure>)
      requires Valid()
      modifies this
      ensures Valid()
      ensures !IsValidStore(store) ==>
                o == Fail(StoreRejected(InvalidStore(store))) && invoices == old(invoices) && statuses == old(statuses)
      ensures IsValidStore(store) && StoreCount(old(invoices), store) == 0 ==>
                var res := FullLoad(InvoiceRows, old(invoices), StatusOf(old(statuses), store), store, api, refused);
                o.Pass? && invoices == res.table && statuses == old(statuses)[store := res.status]
      ensures IsValidStore(store) && StoreCount(old(invoices), store) > 0 ==>
                statuses == old(statuses)
                && exists last :: Newest(old(invoices), store, InvoiceRows, last)
                     && (o.Fail? <==> NewInvoices(api, last, today).Unavailable?)
                     && invoices == Refreshed(old(invoices), store, NewInvoices(api, last, today), refused)
    {
      if !IsValidStore(store) {
        return Fail(StoreRejected(InvalidStore(store)));
      }
      var cached := FindStore(invoices, store, InvoiceRows);
      if cached == [] {
        var _ := LoadAllInvoicesFromApi(store, api, refused);
        return Pass;
      }
      var last := cached[0];
      var got := NewInvoices(api, last, today);
      if got.Unavailable? {
        o := Fail(RequestFailed);
      } else {
        o := Pass;
        if got.value != [] {
          SaveInvoicesToDb(store, got.value, refused);
        }
      }
      assert Newest(old(invoices), store, InvoiceRows, last);
    }

    /**
     * `updateInvoicesManually`: nothing while a sync runs; otherwise
     * `isSyncing` is saved, the refresh runs with its errors caught, and the
     * `finally` saves the status row read at the start with `isSyncing`
     * cleared, which also undoes what an empty-store full load wrote to it.
     */
    method UpdateInvoicesManually(store: string, api: Api, refused: set<int>, today: string)
      requires Valid()
      modifies this
      ensures Valid()
      ensures var st := StatusOf(old(statuses), store);
              statuses == old(statuses)[store := st]
              && (st.isSyncing || !IsValidStore(store) ==> invoices == old(invoices))
              && (!st.isSyncing && IsValidStore(store) && StoreCount(old(invoices), store) == 0 ==>
                    invoices == FullLoad(InvoiceRows, old(invoices), st.(isSyncing := true), store, api, refused).table)
              && (!st.isSyncing && IsValidStore(store) && StoreCount(old(invoices), store) > 0 ==>
                    exists last :: Newest(old(invoices), store, InvoiceRows, last)
                      && invoices == Refreshed(old(invoices), store, NewInvoices(api, last, today), refused))
    {
      var st := GetSyncStatus(store);
      if st.isSyncing {
        return;
      }
      StatusRewritten(old(statuses), store, st, st.(isSyncing := true));
      statuses := statuses[store := st.(isSyncing := true)];
      ghost var during := statuses;
      var _ := FetchNewInvoices(store, api, refused, today);
      StatusRewritten(old(statuses), store, st.(isSyncing := true), st.(isSyncing := false));
      StatusRewritten(during, store, FullLoad(InvoiceRows, old(invoices), st.(isSyncing := true), store, api, refused).status,
                      st.(isSyncing := false));
      statuses := statuses[store := st.(isSyncing := false)];
    }

    /** `clearCacheAndReload`: delete the store's rows, reset its status row, then `initializeDataLoad`. */
    method ClearCacheAndReload(store: string, api: Api, refused: set<int>)
      requires Valid()
      modifies this
      ensures Valid()
      ensures var res := Initialized(InvoiceRows, DeleteStore(old(invoices), store), NewSyncStatus, store, api, refused);
              invoices == res.table && statuses == old(statuses)[store := res.status]
    {
      DeleteStoreWellFormed(invoices, store, InvoiceRows);
      invoices := DeleteStore(invoices, store);
      var st := GetSyncStatus(store);
      StatusRewritten(old(statuses), store, st, NewSyncStatus);
      statuses := statuses[store := st.(totalRecords := 0, isFullyLoaded := false, isSyncing := false,
                                        lastSyncDatetime := None)];
      InitializeDataLoad(store, api, refused);
      StatusRewritten(old(statuses), store, NewSyncStatus, statuses[store]);
    }

    /**
     * `ensureFullDataPersistence`: nothing while a sync runs; otherwise a
     * full load between an `isSyncing` save and a `finally` that saves the
     * row read at the start; a rejected store is rethrown.
     */
    method EnsureFullDataPersistence(store: string, api: Api, refused: set<int>) returns (o: Outcome<CredentialsError>)
      requires Valid()
      modifies this
      ensures Valid()
      ensures var st := StatusOf(old(statuses), store);
              var res := EnsureFullAsWritten(InvoiceRows, old(invoices), st, store, api, refused);
              invoices == res.table && statuses == old(statuses)[store := res.status]
              && (o.Fail? <==> !st.isSyncing && !IsValidStore(store))
    {
      var st := GetSyncStatus(store);
      if st.isSyncing {
        return Pass;
      }
      StatusRewritten(old(statuses), store, st, st.(isSyncing := true));
      statuses := statuses[store := st.(isSyncing := true)];
      o := LoadAllInvoicesFromApi(store, api, refused);
      StatusRewritten(old(statuses), store, st.(isSyncing := true), st.(isSyncing := false));
      StatusRewritten(old(statuses)[store := st.(isSyncing := true)], store,
                      FullLoad(InvoiceRows, old(invoices), st.(isSyncing := true), store, api, refused).status, st.(isSyncing := false));
      statuses := statuses[store := st.(isSyncing := false)];
    }
  }
}
