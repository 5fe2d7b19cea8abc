/**
 * invoices.service.ts: the single-tenant invoice cache. It is filled by a
 * full fetch at start-up (batches of 3 under `Promise.all`, in page order,
 * not sorted) and extended by a manual update that puts the new invoices in
 * front without re-sorting and has no `finally`.
 */
module InvoicesSingle {
  import opened Wrappers
  import opened Text
  import opened Upstream
  import opened Paging
  import opened Incremental
  import opened MemoryLoad

  /** The refresh of this service: `datetime` only, phase 2 on the advanced cursor, no sort. */
  const SingleVariant := Variant(DatetimeOnly, true, false)

  /** The service's four fields. */
  datatype InvoicesState = InvoicesState(cache: seq<Doc>, updating: bool, progress: nat, last: Option<string>)

  /** What `getCachedInvoices` returns. */
  datatype InvoicesView = InvoicesView(updating: bool, progress: nat, data: seq<Doc>)

  /** The full fetch: invoices, batches of 3, `data.data || []`, page order. */
  function AllInvoices(api: Api): Collected
  {
    FetchAll(api, false, DataOrEmpty, 3, false)
  }

  /**
   * `onModuleInit` once the fetch settles: the invoices replace the cache,
   * `progress` is their count and the cursor the first one's `datetime`; a
   * failure keeps the cache and the `progress` the fetch reached; the
   * `finally` clears `updating` either way.
   */
  function StartedUp(s: InvoicesState, got: Collected): (r: InvoicesState)
    ensures !r.updating
    ensures got.docs.Fetched? ==> r.cache == got.docs.value && r.progress == |r.cache|
    ensures got.docs.Fetched? && |got.docs.value| > 0 ==> r.last == got.docs.value[0].datetime
    ensures got.docs.Unavailable? ==> r.cache == s.cache && r.progress == got.progress && r.last == s.last
  {
    match got.docs
    case Unavailable => s.(progress := got.progress, updating := false)
    case Fetched(d) =>
      s.(cache := d, progress := |d|, updating := false, last := if |d| > 0 then d[0].datetime else s.last)
  }

  /**
   * Start-up loads the whole listing when every request is answered: the
   * first page followed by the pages at 30, 60, … below the total, exactly
   * in that order; otherwise the cache is left as it was.
   */
  lemma StartUpLoadsEveryPage(api: Api, s: InvoicesState)
    ensures var first := api(FirstPageQuery(false), 0);
            var r := StartedUp(s, AllInvoices(api));
            !r.updating
            && (first.Ok? && AllAnswered(api, false, Offsets(PageSize, MetadataTotal(first.body))) ==>
                  r.cache == DataOrEmpty(first.body) + MemPagesDocs(api, false, DataOrEmpty, Offsets(PageSize, MetadataTotal(first.body)))
                  && r.progress == |r.cache|)
            && (!(first.Ok? && AllAnswered(api, false, Offsets(PageSize, MetadataTotal(first.body)))) ==> r.cache == s.cache)
  {
    FetchAllPages(api, false, DataOrEmpty, 3, false);
  }

  /**
   * `updateInvoicesManually` as written, once `fetchNewInvoices` has
   * answered `got`: new invoices go in front of the cache, `progress` is the
   * new length and the cursor the first new `datetime`; `updating` is
   * cleared only on the way out, so a throwing refresh leaves it set.
   */
  function ManualUpdateAsWritten(s: InvoicesState, got: Fetch<seq<Doc>>): (r: InvoicesState)
    ensures got.Unavailable? ==> r == s.(updating := true)
    ensures got.Fetched? ==> !r.updating
    ensures got.Fetched? && |got.value| > 0 ==>
              r.cache == got.value + s.cache && r.progress == |r.cache| && r.last == got.value[0].datetime
    ensures got.Fetched? && |got.value| == 0 ==> r == s.(updating := false)
  {
    match got
    case Unavailable => s.(updating := true)
    case Fetched(added) =>
      if |added| == 0 then s.(updating := false)
      else s.(cache := added + s.cache, progress := |added| + |s.cache|, last := added[0].datetime, updating := false)
  }

  /**
   * A refresh whose first `date_after` request fails throws, and the
   * service then reports an update in progress until a later manual
   * update's refresh succeeds, which clears the flag.
   */
  lemma ManualUpdateStaysUpdating(api: Api, s: InvoicesState)
    requires Truthy(s.last)
    requires AfterPhase(api, false, DatetimeOnly, DayOf(s.last.value)).Unavailable?
    ensures var r := ManualUpdateAsWritten(s, FetchNew(api, false, SingleVariant, s.last));
            r.updating && forall added :: !ManualUpdateAsWritten(r, Fetched(added)).updating
  {
  }

  /** The manual update with a `finally`, as `onModuleInit` has: `updating` ends false whatever the refresh did. */
  function ManualUpdateIntended(s: InvoicesState, got: Fetch<seq<Doc>>): (r: InvoicesState)
    ensures !r.updating
    ensures got.Unavailable? ==> r == s.(updating := false)
    ensures got.Fetched? ==> r == ManualUpdateAsWritten(s, got)
  {
    match got
    case Unavailable => s.(updating := false)
    case Fetched(_) => ManualUpdateAsWritten(s, got)
  }

  /** Every invoice the refresh returns is new to the front of the cache once, with no id twice among them. */
  lemma ManualUpdateFront(api: Api, s: InvoicesState)
    requires FetchNew(api, false, SingleVariant, s.last).Fetched?
    ensures var added := FetchNew(api, false, SingleVariant, s.last).value;
            var r := ManualUpdateAsWritten(s, FetchNew(api, false, SingleVariant, s.last));
            r.cache[|added|..] == s.cache
            && (forall i, j :: 0 <= i < j < |added| ==> r.cache[i].id != r.cache[j].id)
  {
  }

  class InvoicesService {
    var invoicesCache: seq<Doc>
    var updating: bool
    var progress: nat
    var lastInvoiceDatetime: Option<string>

    /** The four fields as one value. */
    function State(): InvoicesState
      reads this
    {
      InvoicesState(invoicesCache, updating, progress, lastInvoiceDatetime)
    }

    constructor ()
      ensures State() == InvoicesState([], false, 0, None)
    {
      invoicesCache := [];
      updating := false;
      progress := 0;
      lastInvoiceDatetime := None;
    }

    /** `onModuleInit`: `updating` is set, the full fetch runs, and its outcome settles the fields. */
    method OnModuleInit(api: Api)
      modifies this
      ensures State() == StartedUp(old(State()), AllInvoices(api))
    {
      updating := true;
      var got := FetchAllInvoices(api);
      if got.Fetched? {
        invoicesCache := got.value;
        progress := |got.value|;
        if |got.value| > 0 {
          lastInvoiceDatetime := got.value[0].datetime;
        }
      }
      updating := false;
    }

    /** `fetchAllInvoices`: every invoice in page order, or the failure; `progress` follows the fetch. */
    method FetchAllInvoices(api: Api) returns (r: Fetch<seq<Doc>>)
      modifies this
      ensures r == AllInvoices(api).docs
      ensures State() == old(State()).(progress := AllInvoices(api).progress)
    {
      var got := FetchAllDocs(api, false, DataOrEmpty, 3, false);
      progress := got.progress;
      r := got.docs;
    }

    /** `fetchNewInvoices`: the two-phase refresh from the last `datetime`. */
    method FetchNewInvoices(api: Api) returns (r: Fetch<seq<Doc>>)
      ensures r == FetchNew(api, false, SingleVariant, lastInvoiceDatetime)
    {
      r := FetchNewDocs(api, false, SingleVariant, lastInvoiceDatetime);
    }

    /** `updateInvoicesManually`, as written: no guard and no `finally`. */
    method UpdateInvoicesManually(api: Api)
      modifies this
      ensures State() == ManualUpdateAsWritten(old(State()), FetchNew(api, false, SingleVariant, old(lastInvoiceDatetime)))
    {
      updating := true;
      var got := FetchNewInvoices(api);
      if got.Unavailable? {
        return;
      }
      if |got.value| > 0 {
        invoicesCache := got.value + invoicesCache;
        progress := |invoicesCache|;
        lastInvoiceDatetime := got.value[0].datetime;
      }
      updating := false;
    }

    /** `getCachedInvoices`: the fields as they stand; nothing changes. */
    method GetCachedInvoices() returns (v: InvoicesView)
      ensures v.updating == updating && v.progress == progress && v.data == invoicesCache
    {
      v := InvoicesView(updating, progress, invoicesCache);
    }
  }
}
