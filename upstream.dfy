/**
 * The upstream accounting API as the services see it: records with an id and
 * optional date texts, response bodies in the shapes the services accept, and
 * the query parameters they send. The API itself is an oracle from a query
 * and an attempt number to a response.
 */
module Upstream {
  import opened Wrappers

  /** Upstream page size (`this.limit = 30` in every service). */
  const PageSize: nat := 30

  /** An upstream invoice or bill: its id and its `datetime` / `date` texts, as sent. */
  datatype Doc = Doc(id: int, datetime: Option<string>, date: Option<string>)

  /** A response body: `{ metadata?: { total }, data? }`, or a bare JSON array. */
  datatype Body =
    | Envelope(total: Option<nat>, data: Option<seq<Doc>>)
    | Bare(items: seq<Doc>)

  /** A call either yields a body or throws an error carrying an HTTP status. */
  datatype Response = Ok(body: Body) | Failed(status: int)

  /** The date restriction of a query: none, `date_after=<day>` or `date=<day>`. */
  datatype DateFilter = Unfiltered | DateAfter(day: string) | OnDate(day: string)

  /** Query parameters: `start`, `limit`, `metadata`, `order_direction`, the date filter and `type: 'bill'`. */
  datatype Query = Query(start: nat, limit: nat, metadata: bool, descending: bool,
                         filter: DateFilter, typeBill: bool)

  /** The endpoint: the response to a query on the given attempt (0 for the first). */
  type Api = (Query, nat) -> Response

  /** `data.metadata?.total || 0`. */
  function MetadataTotal(b: Body): (n: nat)
    ensures b.Envelope? && b.total.Some? ==> n == b.total.value
    ensures b.Bare? || b.total.None? ==> n == 0
  {
    if b.Envelope? && b.total.Some? then b.total.value else 0
  }

  /** `data.data || []`. */
  function DataOrEmpty(b: Body): (r: seq<Doc>)
    ensures b.Envelope? && b.data.Some? ==> r == b.data.value
    ensures b.Bare? || b.data.None? ==> r == []
  {
    if b.Envelope? && b.data.Some? then b.data.value else []
  }

  /** `Array.isArray(data) ? data : (data.data || [])`. */
  function ArrayOrData(b: Body): (r: seq<Doc>)
    ensures b.Bare? ==> r == b.items
    ensures b.Envelope? ==> r == DataOrEmpty(b)
  {
    if b.Bare? then b.items else DataOrEmpty(b)
  }

  /**
   * An envelope object standing in a list of records, as `concat` puts it
   * there: it carries no id, `datetime` or `date`. The model gives it id 0;
   * no service that keeps such an element compares its id.
   */
  const EnvelopeElement := Doc(0, None, None)

  /**
   * `data.data || data || []`, whose result is then `concat`enated: a bare
   * array gives its records, an envelope its `data`, and an envelope without
   * `data` is itself added as one element.
   */
  function DataOrSelf(b: Body): (r: seq<Doc>)
    ensures b.Bare? || b.data.Some? ==> r == ArrayOrData(b)
    ensures b.Envelope? && b.data.None? ==> r == [EnvelopeElement] && ArrayOrData(b) == []
    ensures |r| >= |ArrayOrData(b)|
  {
    if b.Envelope? && b.data.None? then [EnvelopeElement] else ArrayOrData(b)
  }

  /** The metadata probe every full load starts with: `start=0, limit=1, metadata=true`. */
  function ProbeQuery(typeBill: bool): Query
  {
    Query(0, 1, true, true, Unfiltered, typeBill)
  }

  /** A page of the full listing: `start=<offset>, limit=30`, newest first. */
  function PageQuery(start: nat, typeBill: bool): Query
  {
    Query(start, PageSize, false, true, Unfiltered, typeBill)
  }
}
