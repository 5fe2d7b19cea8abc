/**
 * The incremental refresh of the in-memory caches (`fetchNew...` in
 * bills.service.ts, invoices.service.ts and the two per-store `.new`
 * services): pages of records dated after the cache's last day, then pages
 * of records on one day, merged without duplicates.
 *
 * Phase 1 always asks for `start=0, date_after=<cursor>` and moves the cursor
 * to the day of the last record of every full page; any failure aborts the
 * refresh with "service unavailable". Phase 2 pages through `date=<day>` with
 * `start` advancing by 30; a failure there ends the phase and keeps what was
 * collected.
 */
module Incremental {
  import opened Wrappers
  import opened Text
  import opened Seqs
  import opened Upstream
  import opened Sorting

  /** The outcome of a refresh step: a value, or `ServiceUnavailableException`. */
  datatype Fetch<+T> = Fetched(value: T) | Unavailable

  /**
   * How phase 1 moves its cursor after a full page. `DatetimeOrDate`:
   * the day of `last.datetime || last.date` when that is truthy, else the
   * cursor stays (bills.service.ts). `DatetimeOnly`:
   * `last.datetime.split(' ')[0]`, which throws when `datetime` is missing
   * (invoices.service.ts and the `.new` services).
   */
  datatype Advance = DatetimeOrDate | DatetimeOnly

  /** The three variants of the refresh, as the services differ. */
  datatype Variant = Variant(advance: Advance, sameDayFromCursor: bool, sorted: bool)

  /** The phase-1 request: `start=0, limit=30, metadata=true, DESC, date_after=<day>`. */
  function AfterQuery(day: string, typeBill: bool): Query
  {
    Query(0, PageSize, true, true, DateAfter(day), typeBill)
  }

  /** The phase-2 request: `start, limit=30, metadata=(start === 0), DESC, date=<day>`. */
  function SameDayQuery(day: string, start: nat, typeBill: bool): Query
  {
    Query(start, PageSize, start == 0, true, OnDate(day), typeBill)
  }

  /** The records a phase-1 request yields (`data.data || []`); none when it failed. */
  function AfterPage(api: Api, typeBill: bool, day: string): seq<Doc>
  {
    var resp := api(AfterQuery(day, typeBill), 0);
    if resp.Ok? then DataOrEmpty(resp.body) else []
  }

  /** The records of the phase-1 requests for `days`, in request order. */
  function AfterPages(api: Api, typeBill: bool, days: seq<string>): seq<Doc>
  {
    if days == [] then [] else AfterPage(api, typeBill, days[0]) + AfterPages(api, typeBill, days[1..])
  }

  lemma {:induction false} AfterPagesAppend(api: Api, typeBill: bool, a: seq<string>, b: seq<string>)
    ensures AfterPages(api, typeBill, a + b) == AfterPages(api, typeBill, a) + AfterPages(api, typeBill, b)
  {
    if a == [] {
      assert a + b == b;
    } else {
      assert (a + b)[0] == a[0] && (a + b)[1..] == a[1..] + b;
      AfterPagesAppend(api, typeBill, a[1..], b);
    }
  }

  /** Where the phase-1 cursor goes after a full page ending in `last`; `None` when the step throws. */
  function NextDay(advance: Advance, day: string, last: Doc): (r: Option<string>)
    ensures advance.DatetimeOrDate? ==> r.Some?
    ensures advance.DatetimeOnly? ==> (r.Some? <==> last.datetime.Some?)
    ensures r.Some? && r.value != day ==> ' ' !in r.value
  {
    match advance
    case DatetimeOrDate =>
      var v := Or(last.datetime, last.date);
      if Truthy(v) then Some(DayOf(v.value)) else Some(day)
    case DatetimeOnly =>
      if last.datetime.Some? then Some(DayOf(last.datetime.value)) else None
  }

  /** What phase 1 collects: the records, the final cursor and every `date_after` day requested. */
  datatype AfterResult = AfterResult(docs: seq<Doc>, cursor: string, days: seq<string>)

  /** The total the loop compares against: read from the first response only. */
  function TotalOf(api: Api, typeBill: bool, day: string, total: Option<nat>): nat
  {
    if total.Some? then total.value
    else
      var resp := api(AfterQuery(day, typeBill), 0);
      if resp.Ok? then MetadataTotal(resp.body) else 0
  }

  /**
   * Phase 1 from a loop state: the cursor `day`, the records `acc` so far,
   * the total once read, and the days already requested.
   */
  function AfterFrom(api: Api, typeBill: bool, advance: Advance, day: string,
                     acc: seq<Doc>, total: Option<nat>, days: seq<string>): Fetch<AfterResult>
    decreases if total.None? then 1 else 0, if total.Some? && |acc| < total.value then total.value - |acc| else 0
  {
    var resp := api(AfterQuery(day, typeBill), 0);
    if resp.Failed? then Unavailable
    else
      var t := if total.Some? then total.value else MetadataTotal(resp.body);
      var page := DataOrEmpty(resp.body);
      if page == [] then Fetched(AfterResult(acc, day, days + [day]))
      else if |page| < PageSize || |acc + page| >= t then Fetched(AfterResult(acc + page, day, days + [day]))
      else
        match NextDay(advance, day, page[|page| - 1])
        case None => Unavailable
        case Some(next) => AfterFrom(api, typeBill, advance, next, acc + page, Some(t), days + [day])
  }

  /** Phase 1 from the cache's last day. */
  function AfterPhase(api: Api, typeBill: bool, advance: Advance, day: string): Fetch<AfterResult>
  {
    AfterFrom(api, typeBill, advance, day, [], None, [])
  }

  /**
   * The shape of a finished phase 1 from a loop state: the days requested
   * extend `days`, starting at the cursor; the records are the pages of
   * those days; every one of those requests succeeded; every page but the
   * last was full and moved the cursor as `NextDay` says; and the last page
   * was empty, short, or brought the records to the total.
   */
  ghost predicate AfterShaped(api: Api, typeBill: bool, advance: Advance, day: string,
                              acc: seq<Doc>, total: Option<nat>, days: seq<string>, r: AfterResult)
  {
    AfterDays(day, days, r) && r.docs == acc + AfterPages(api, typeBill, r.days[|days|..])
    && AfterSteps(api, typeBill, advance, days, r)
    && (AfterPage(api, typeBill, r.cursor) == []
        || |AfterPage(api, typeBill, r.cursor)| < PageSize
        || |r.docs| >= TotalOf(api, typeBill, day, total))
  }

  /** The days requested extend `days`, start at `day` and end at the final cursor. */
  ghost predicate AfterDays(day: string, days: seq<string>, r: AfterResult)
  {
    |r.days| > |days| && r.days[..|days|] == days && r.days[|days|] == day
    && r.cursor == r.days[|r.days| - 1]
  }

  /** Each new request succeeded; each but the last returned a full page that moved the cursor. */
  ghost predicate AfterSteps(api: Api, typeBill: bool, advance: Advance, days: seq<string>, r: AfterResult)
  {
    (forall i :: |days| <= i < |r.days| ==> api(AfterQuery(r.days[i], typeBill), 0).Ok?)
    && (forall i :: |days| <= i < |r.days| - 1 ==> FullStep(api, typeBill, advance, r.days[i], r.days[i + 1]))
  }

  /** A full page for `day` whose last record moves the cursor to `next`. */
  ghost predicate FullStep(api: Api, typeBill: bool, advance: Advance, day: string, next: string)
  {
    var page := AfterPage(api, typeBill, day);
    |page| >= PageSize && NextDay(advance, day, page[|page| - 1]) == Some(next)
  }

  lemma {:induction false} AfterFromShape(api: Api, typeBill: bool, advance: Advance, day: string,
                                          acc: seq<Doc>, total: Option<nat>, days: seq<string>)
    requires AfterFrom(api, typeBill, advance, day, acc, total, days).Fetched?
    decreases if total.None? then 1 else 0, if total.Some? && |acc| < total.value then total.value - |acc| else 0
    ensures AfterShaped(api, typeBill, advance, day, acc, total, days,
                        AfterFrom(api, typeBill, advance, day, acc, total, days).value)
  {
    var resp := api(AfterQuery(day, typeBill), 0);
    var t := if total.Some? then total.value else MetadataTotal(resp.body);
    var page := DataOrEmpty(resp.body);
    if page == [] || |page| < PageSize || |acc + page| >= t {
      AfterShapeLast(api, typeBill, advance, day, acc, total, days);
    } else {
      var next := NextDay(advance, day, page[|page| - 1]).value;
      AfterFromShape(api, typeBill, advance, next, acc + page, Some(t), days + [day]);
      AfterShapeStep(api, typeBill, advance, day, acc, total, days, next,
                     AfterFrom(api, typeBill, advance, next, acc + page, Some(t), days + [day]).value);
    }
  }

  /** A request that ends phase 1 has the shape. */
  lemma AfterShapeLast(api: Api, typeBill: bool, advance: Advance, day: string,
                       acc: seq<Doc>, total: Option<nat>, days: seq<string>)
    requires api(AfterQuery(day, typeBill), 0).Ok?
    requires var page := AfterPage(api, typeBill, day);
             page == [] || |page| < PageSize || |acc + page| >= TotalOf(api, typeBill, day, total)
    ensures AfterFrom(api, typeBill, advance, day, acc, total, days).Fetched?
    ensures AfterShaped(api, typeBill, advance, day, acc, total, days,
                        AfterFrom(api, typeBill, advance, day, acc, total, days).value)
  {
    var page := AfterPage(api, typeBill, day);
    assert acc + page == acc || page != [];
    assert AfterFrom(api, typeBill, advance, day, acc, total, days) == Fetched(AfterResult(acc + page, day, days + [day]));
    AfterLastShaped(api, typeBill, advance, day, acc, total, days);
  }

  /** The result of a last request: its page appended, its day added. */
  lemma AfterLastShaped(api: Api, typeBill: bool, advance: Advance, day: string,
                        acc: seq<Doc>, total: Option<nat>, days: seq<string>)
    requires api(AfterQuery(day, typeBill), 0).Ok?
    requires var page := AfterPage(api, typeBill, day);
             page == [] || |page| < PageSize || |acc + page| >= TotalOf(api, typeBill, day, total)
    ensures AfterShaped(api, typeBill, advance, day, acc, total, days,
                        AfterResult(acc + AfterPage(api, typeBill, day), day, days + [day]))
  {
    var page := AfterPage(api, typeBill, day);
    var R := AfterResult(acc + page, day, days + [day]);
    assert R.days[|days|..] == [day];
    assert AfterPages(api, typeBill, [day]) == page;
    assert AfterDays(day, days, R);
  }

  /** A full page that moves the cursor to `next` extends the shape of the rest of phase 1. */
  lemma AfterShapeStep(api: Api, typeBill: bool, advance: Advance, day: string,
                       acc: seq<Doc>, total: Option<nat>, days: seq<string>, next: string, r: AfterResult)
    requires api(AfterQuery(day, typeBill), 0).Ok?
    requires |AfterPage(api, typeBill, day)| >= PageSize
    requires |acc + AfterPage(api, typeBill, day)| < TotalOf(api, typeBill, day, total)
    requires NextDay(advance, day, AfterPage(api, typeBill, day)[|AfterPage(api, typeBill, day)| - 1]) == Some(next)
    requires AfterShaped(api, typeBill, advance, next, acc + AfterPage(api, typeBill, day),
                         Some(TotalOf(api, typeBill, day, total)), days + [day], r)
    ensures AfterShaped(api, typeBill, advance, day, acc, total, days, r)
  {
    AfterDaysStep(day, days, next, r);
    AfterDocsStep(api, typeBill, day, acc, days, r);
    AfterStepsStep(api, typeBill, advance, day, days, next, r);
  }

  /** The records of the rest of phase 1, preceded by the page of `day`, are the records from `day`. */
  lemma AfterDocsStep(api: Api, typeBill: bool, day: string, acc: seq<Doc>, days: seq<string>, r: AfterResult)
    requires |r.days| > |days| && r.days[|days|..] == [day] + r.days[|days| + 1..]
    requires r.docs == (acc + AfterPage(api, typeBill, day)) + AfterPages(api, typeBill, r.days[|days| + 1..])
    ensures r.docs == acc + AfterPages(api, typeBill, r.days[|days|..])
  {
    assert AfterPages(api, typeBill, r.days[|days|..])
        == AfterPage(api, typeBill, day) + AfterPages(api, typeBill, r.days[|days| + 1..]);
  }

  /** The days of the rest of phase 1, preceded by `day`, are the days from `day`. */
  lemma AfterDaysStep(day: string, days: seq<string>, next: string, r: AfterResult)
    requires AfterDays(next, days + [day], r)
    ensures AfterDays(day, days, r) && r.days[|days| + 1] == next
    ensures r.days[|days|..] == [day] + r.days[|days| + 1..]
  {
    var days' := days + [day];
    assert r.days[..|days|] == r.days[..|days'|][..|days|];
    assert r.days[|days|] == r.days[..|days'|][|days|];
  }

  /** A successful full step from `day` to `next` before the rest of phase 1 extends its steps. */
  lemma AfterStepsStep(api: Api, typeBill: bool, advance: Advance, day: string, days: seq<string>,
                       next: string, r: AfterResult)
    requires |r.days| > |days| + 1 && r.days[|days|] == day && r.days[|days| + 1] == next
    requires api(AfterQuery(day, typeBill), 0).Ok? && FullStep(api, typeBill, advance, day, next)
    requires AfterSteps(api, typeBill, advance, days + [day], r)
    ensures AfterSteps(api, typeBill, advance, days, r)
  {
  }

  /**
   * A finished phase 1 from the cache's day: its records are exactly the
   * pages of the `date_after` days it requested, starting at that day, every
   * request succeeded, every page but the last was a full page of 30 whose
   * last record moved the cursor, and it stopped on an empty or short page or
   * once the records reached the total of the first response.
   */
  lemma AfterPhaseShape(api: Api, typeBill: bool, advance: Advance, day: string)
    requires AfterPhase(api, typeBill, advance, day).Fetched?
    ensures var r := AfterPhase(api, typeBill, advance, day).value;
            |r.days| >= 1 && r.days[0] == day && r.cursor == r.days[|r.days| - 1]
            && r.docs == AfterPages(api, typeBill, r.days)
            && (forall i :: 0 <= i < |r.days| ==> api(AfterQuery(r.days[i], typeBill), 0).Ok?)
            && (forall i :: 0 <= i < |r.days| - 1 ==> |AfterPage(api, typeBill, r.days[i])| >= PageSize)
            && (AfterPage(api, typeBill, r.cursor) == []
                || |AfterPage(api, typeBill, r.cursor)| < PageSize
                || |r.docs| >= MetadataTotal(api(AfterQuery(day, typeBill), 0).body))
  {
    AfterFromShape(api, typeBill, advance, day, [], None, []);
    var r := AfterPhase(api, typeBill, advance, day).value;
    assert r.days[0..] == r.days;
    forall i | 0 <= i < |r.days| - 1 ensures |AfterPage(api, typeBill, r.days[i])| >= PageSize {
      assert FullStep(api, typeBill, advance, r.days[i], r.days[i + 1]);
    }
  }

  /** Every request the endpoint answers succeeds. */
  ghost predicate Healthy(api: Api)
  {
    forall q: Query :: api(q, 0).Ok?
  }

  /** Every record the endpoint sends carries a `datetime`. */
  ghost predicate Stamped(api: Api)
  {
    forall q: Query, i :: api(q, 0).Ok? && 0 <= i < |DataOrEmpty(api(q, 0).body)| ==> DataOrEmpty(api(q, 0).body)[i].datetime.Some?
  }

  lemma {:induction false} AfterFromHealthy(api: Api, typeBill: bool, advance: Advance, day: string,
                                            acc: seq<Doc>, total: Option<nat>, days: seq<string>)
    requires Healthy(api)
    requires advance.DatetimeOnly? ==> Stamped(api)
    decreases if total.None? then 1 else 0, if total.Some? && |acc| < total.value then total.value - |acc| else 0
    ensures AfterFrom(api, typeBill, advance, day, acc, total, days).Fetched?
  {
    var resp := api(AfterQuery(day, typeBill), 0);
    assert resp.Ok?;
    var t := if total.Some? then total.value else MetadataTotal(resp.body);
    var page := DataOrEmpty(resp.body);
    if page != [] && |page| >= PageSize && |acc + page| < t {
      if advance.DatetimeOnly? {
        assert page[|page| - 1].datetime.Some?;
      }
      var next := NextDay(advance, day, page[|page| - 1]).value;
      AfterFromHealthy(api, typeBill, advance, next, acc + page, Some(t), days + [day]);
    }
  }

  /**
   * Phase 1 fails only on a failed request, or, when the cursor is read from
   * `datetime` alone, on a full page whose last record has none.
   */
  lemma AfterPhaseHealthy(api: Api, typeBill: bool, advance: Advance, day: string)
    requires Healthy(api)
    requires advance.DatetimeOnly? ==> Stamped(api)
    ensures AfterPhase(api, typeBill, advance, day).Fetched?
  {
    AfterFromHealthy(api, typeBill, advance, day, [], None, []);
  }

  /** The records a phase-2 request yields; none when it failed. */
  function SameDayPage(api: Api, typeBill: bool, day: string, start: nat): seq<Doc>
  {
    var resp := api(SameDayQuery(day, start, typeBill), 0);
    if resp.Ok? then DataOrEmpty(resp.body) else []
  }

  /** The records of the first `k` phase-2 pages: `start = 0, 30, 60, …`. */
  function SameDayPages(api: Api, typeBill: bool, day: string, start: nat, k: nat): seq<Doc>
    decreases k
  {
    if k == 0 then [] else SameDayPage(api, typeBill, day, start) + SameDayPages(api, typeBill, day, start + PageSize, k - 1)
  }

  /**
   * Phase 2 from a loop state: the page `start`, the records `acc` so far and
   * the total once read. A failed request ends the phase with `acc`.
   */
  function SameDayFrom(api: Api, typeBill: bool, day: string, start: nat,
                       acc: seq<Doc>, total: Option<nat>): seq<Doc>
    decreases if total.None? then 1 else 0, if total.Some? && |acc| < total.value then total.value - |acc| else 0
  {
    var resp := api(SameDayQuery(day, start, typeBill), 0);
    if resp.Failed? then acc
    else
      var t := if total.Some? then total.value else MetadataTotal(resp.body);
      var page := DataOrEmpty(resp.body);
      if page == [] then acc
      else if |page| < PageSize || |acc + page| >= t then acc + page
      else SameDayFrom(api, typeBill, day, start + PageSize, acc + page, Some(t))
  }

  /** Phase 2 for one day. */
  function SameDayPhase(api: Api, typeBill: bool, day: string): seq<Doc>
  {
    SameDayFrom(api, typeBill, day, 0, [], None)
  }

  lemma {:induction false} SameDayFromPages(api: Api, typeBill: bool, day: string, start: nat,
                                            acc: seq<Doc>, total: Option<nat>) returns (k: nat)
    decreases if total.None? then 1 else 0, if total.Some? && |acc| < total.value then total.value - |acc| else 0
    ensures SameDayFrom(api, typeBill, day, start, acc, total) == acc + SameDayPages(api, typeBill, day, start, k)
    ensures forall i :: 0 <= i < k ==> api(SameDayQuery(day, start + i * PageSize, typeBill), 0).Ok?
    ensures forall i :: 0 <= i < k - 1 ==> |SameDayPage(api, typeBill, day, start + i * PageSize)| >= PageSize
  {
    var resp := api(SameDayQuery(day, start, typeBill), 0);
    if resp.Failed? {
      k := 0;
    } else {
      var t := if total.Some? then total.value else MetadataTotal(resp.body);
      var page := DataOrEmpty(resp.body);
      assert SameDayPage(api, typeBill, day, start) == page;
      if page == [] {
        k := 0;
      } else if |page| < PageSize || |acc + page| >= t {
        k := 1;
        assert SameDayPages(api, typeBill, day, start, 1) == page;
      } else {
        var k' := SameDayFromPages(api, typeBill, day, start + PageSize, acc + page, Some(t));
        k := k' + 1;
        SameDayShift(api, typeBill, day, start, k');
      }
    }
  }

  /** The facts about the pages from `start + 30` on, with the full page at `start` before them. */
  lemma SameDayShift(api: Api, typeBill: bool, day: string, start: nat, k': nat)
    requires api(SameDayQuery(day, start, typeBill), 0).Ok? && |SameDayPage(api, typeBill, day, start)| >= PageSize
    requires forall i :: 0 <= i < k' ==> api(SameDayQuery(day, start + PageSize + i * PageSize, typeBill), 0).Ok?
    requires forall i :: 0 <= i < k' - 1 ==> |SameDayPage(api, typeBill, day, start + PageSize + i * PageSize)| >= PageSize
    ensures forall i :: 0 <= i < k' + 1 ==> api(SameDayQuery(day, start + i * PageSize, typeBill), 0).Ok?
    ensures forall i :: 0 <= i < k' ==> |SameDayPage(api, typeBill, day, start + i * PageSize)| >= PageSize
  {
    forall i | 0 < i < k' + 1 ensures api(SameDayQuery(day, start + i * PageSize, typeBill), 0).Ok? {
      assert start + i * PageSize == start + PageSize + (i - 1) * PageSize;
    }
    forall i | 0 < i < k' ensures |SameDayPage(api, typeBill, day, start + i * PageSize)| >= PageSize {
      assert start + i * PageSize == start + PageSize + (i - 1) * PageSize;
    }
  }

  /**
   * Phase 2 collects the first `k` pages of the day, for some `k`: each of
   * those requests succeeded and all but the last were full. A failure
   * keeps the pages before it.
   */
  lemma SameDayPhasePages(api: Api, typeBill: bool, day: string) returns (k: nat)
    ensures SameDayPhase(api, typeBill, day) == SameDayPages(api, typeBill, day, 0, k)
    ensures forall i :: 0 <= i < k ==> api(SameDayQuery(day, i * PageSize, typeBill), 0).Ok?
    ensures forall i :: 0 <= i < k - 1 ==> |SameDayPage(api, typeBill, day, i * PageSize)| >= PageSize
  {
    k := SameDayFromPages(api, typeBill, day, 0, [], None);
    assert [] + SameDayPages(api, typeBill, day, 0, k) == SameDayPages(api, typeBill, day, 0, k);
  }

  /** A first phase-2 request that fails leaves phase 2 empty. */
  lemma SameDayFirstFailure(api: Api, typeBill: bool, day: string)
    requires api(SameDayQuery(day, 0, typeBill), 0).Failed?
    ensures SameDayPhase(api, typeBill, day) == []
  {
  }

  /**
   * `x.datetime && last && x.datetime > last`: a same-day record is new when
   * its datetime text sorts after the cache's last datetime.
   */
  predicate NewerThan(d: Doc, last: string)
  {
    Truthy(d.datetime) && last != "" && LexLess(last, d.datetime.value)
  }

  /** The ids of a run of records. */
  ghost function IdsOf(s: seq<Doc>): set<int>
  {
    set d | d in s :: d.id
  }

  /**
   * `[...after, ...sameDay.filter(newer)]` with duplicates by id removed,
   * the first occurrence of each id kept.
   */
  function MergeNew(after: seq<Doc>, sameDay: seq<Doc>, last: string): (r: seq<Doc>)
    ensures forall a, b :: 0 <= a < b < |r| ==> r[a].id != r[b].id
    ensures forall x :: x in r ==> x in after || (x in sameDay && NewerThan(x, last))
  {
    var p := (d: Doc) => NewerThan(d, last);
    var all := after + Filter(sameDay, p);
    var r := KeepFirst(all, (d: Doc) => d.id);
    forall x | x in r ensures x in after || (x in sameDay && NewerThan(x, last)) {
      var f := FindIndex(all, (d: Doc) => d.id, x.id);
      assert all[f] == x;
      if f >= |after| {
        assert x in Filter(sameDay, p);
        assert p(x);
      }
    }
    r
  }

  /**
   * The merge keeps the order of phase 1 followed by the newer same-day
   * records, so when phase 1 found anything its first record leads.
   */
  lemma MergeNewOrder(after: seq<Doc>, sameDay: seq<Doc>, last: string)
    ensures IsSubseq(MergeNew(after, sameDay, last), after + Filter(sameDay, (d: Doc) => NewerThan(d, last)))
    ensures after != [] ==> MergeNew(after, sameDay, last) != [] && MergeNew(after, sameDay, last)[0] == after[0]
  {
    var all := after + Filter(sameDay, (d: Doc) => NewerThan(d, last));
    KeepFirstOrder(all, (d: Doc) => d.id);
    assert after != [] ==> all[0] == after[0];
  }

  /**
   * Nothing is lost: every phase-1 record and every newer same-day record
   * has its id in the merge, and where phase 1 has a record with some id,
   * the merge keeps phase 1's first record with that id.
   */
  lemma MergeNewComplete(after: seq<Doc>, sameDay: seq<Doc>, last: string)
    ensures forall x :: x in after ==> x.id in IdsOf(MergeNew(after, sameDay, last))
    ensures forall x :: x in sameDay && NewerThan(x, last) ==> x.id in IdsOf(MergeNew(after, sameDay, last))
    ensures forall y :: y in MergeNew(after, sameDay, last) && y.id in IdsOf(after) ==>
              y == after[FindIndex(after, (d: Doc) => d.id, y.id)]
  {
    var newer := Filter(sameDay, (d: Doc) => NewerThan(d, last));
    var all := after + newer;
    var key := (d: Doc) => d.id;
    var r := MergeNew(after, sameDay, last);
    assert r == KeepFirst(all, key);
    forall x | x in all ensures x.id in IdsOf(r) {
      var j :| 0 <= j < |all| && all[j] == x;
      var f := FindIndex(all, key, key(all[j]));
      assert all[f] in r && all[f].id == x.id;
    }
    forall y | y in r && y.id in IdsOf(after) ensures y == after[FindIndex(after, key, y.id)] {
      var x :| x in after && x.id == y.id;
      var a :| 0 <= a < |r| && r[a] == y;
      var f := FindIndex(all, key, y.id);
      var g := FindIndex(after, key, y.id);
      assert g != -1 by {
        var j :| 0 <= j < |after| && after[j] == x;
        assert key(after[j]) == y.id;
      }
      assert all[g] == after[g];
      forall i | 0 <= i < g ensures key(all[i]) != y.id {
        assert all[i] == after[i];
      }
      assert f == g;
    }
  }

  /**
   * The refresh for a cache whose last record's datetime is `last`: nothing
   * when it is empty or missing; else phase 1 from its day, phase 2 on that
   * day (or on phase 1's final cursor), the merge, and the newest-first sort
   * where the service sorts.
   */
  function FetchNew(api: Api, typeBill: bool, v: Variant, last: Option<string>): (r: Fetch<seq<Doc>>)
    ensures !Truthy(last) ==> r == Fetched([])
    ensures r.Fetched? && v.sorted ==> SortedBy(r.value, NewestFirst)
    ensures r.Fetched? ==> forall a, b :: 0 <= a < b < |r.value| ==> r.value[a].id != r.value[b].id
  {
    if !Truthy(last) then Fetched([])
    else
      match AfterPhase(api, typeBill, v.advance, DayOf(last.value))
      case Unavailable => Unavailable
      case Fetched(a) =>
        var sameDay := SameDayPhase(api, typeBill, if v.sameDayFromCursor then a.cursor else DayOf(last.value));
        var merged := MergeNew(a.docs, sameDay, last.value);
        if v.sorted then
          var s := SortNewestFirst(merged);
          assert forall a, b :: 0 <= a < b < |s| ==> s[a].id != s[b].id by {
            MultisetIdsDistinct(merged, s);
          }
          Fetched(s)
        else Fetched(merged)
  }

  /** Records with distinct ids occur at most once each. */
  lemma {:induction false} DistinctIdsOnce(s: seq<Doc>, x: Doc)
    requires forall a, b :: 0 <= a < b < |s| ==> s[a].id != s[b].id
    ensures multiset(s)[x] <= 1
  {
    if s != [] {
      DistinctIdsOnce(s[1..], x);
      assert s == [s[0]] + s[1..];
      assert multiset(s) == multiset([s[0]]) + multiset(s[1..]);
      forall k | 0 <= k < |s[1..]| ensures s[1..][k] != s[0] {
        assert s[0].id != s[k + 1].id;
      }
      assert s[0] !in multiset(s[1..]);
    }
  }

  /** An element at index `a` and an equal one at a later index `b` occur at least twice. */
  lemma TwiceCounted(t: seq<Doc>, a: nat, b: nat)
    requires a < b < |t|
    ensures multiset(t)[t[a]] >= 1 + (if t[b] == t[a] then 1 else 0)
  {
    assert t == t[..b] + [t[b]] + t[b + 1..];
    assert t[a] == t[..b][a];
    assert multiset(t) == multiset(t[..b]) + multiset([t[b]]) + multiset(t[b + 1..]);
  }

  /** A rearrangement of records with distinct ids has distinct ids. */
  lemma MultisetIdsDistinct(s: seq<Doc>, t: seq<Doc>)
    requires multiset(t) == multiset(s)
    requires forall a, b :: 0 <= a < b < |s| ==> s[a].id != s[b].id
    ensures forall a, b :: 0 <= a < b < |t| ==> t[a].id != t[b].id
  {
    forall a, b | 0 <= a < b < |t| ensures t[a].id != t[b].id {
      TwiceCounted(t, a, b);
      DistinctIdsOnce(s, t[a]);
      assert t[a] != t[b];
      assert t[a] in multiset(s) && t[b] in multiset(s);
      var i :| 0 <= i < |s| && s[i] == t[a];
      var j :| 0 <= j < |s| && s[j] == t[b];
      if i < j {
        assert s[i].id != s[j].id;
      } else {
        assert s[j].id != s[i].id;
      }
    }
  }

  /**
   * The phase-1 loop: request, read the total on the first response, stop on
   * an empty page, append, stop on a short page or once the total is reached,
   * else move the cursor.
   */
  method FetchAfter(api: Api, typeBill: bool, advance: Advance, day: string) returns (r: Fetch<AfterResult>)
    ensures r == AfterPhase(api, typeBill, advance, day)
  {
    var cursor := day;
    var acc: seq<Doc> := [];
    var total: Option<nat> := None;
    var days: seq<string> := [];
    while true
      invariant AfterFrom(api, typeBill, advance, cursor, acc, total, days) == AfterPhase(api, typeBill, advance, day)
      decreases if total.None? then 1 else 0, if total.Some? && |acc| < total.value then total.value - |acc| else 0
    {
      var resp := api(AfterQuery(cursor, typeBill), 0);
      if resp.Failed? {
        return Unavailable;
      }
      var t := if total.Some? then total.value else MetadataTotal(resp.body);
      var page := DataOrEmpty(resp.body);
      if page == [] {
        return Fetched(AfterResult(acc, cursor, days + [cursor]));
      }
      if |page| < PageSize || |acc + page| >= t {
        return Fetched(AfterResult(acc + page, cursor, days + [cursor]));
      }
      var next := NextDay(advance, cursor, page[|page| - 1]);
      if next.None? {
        return Unavailable;
      }
      days := days + [cursor];
      acc := acc + page;
      total := Some(t);
      cursor := next.value;
    }
  }

  /** The phase-2 loop: `start` advances by 30; a failed request ends it with what was collected. */
  method FetchSameDay(api: Api, typeBill: bool, day: string) returns (docs: seq<Doc>)
    ensures docs == SameDayPhase(api, typeBill, day)
  {
    var start: nat := 0;
    var total: Option<nat> := None;
    docs := [];
    while true
      invariant SameDayFrom(api, typeBill, day, start, docs, total) == SameDayPhase(api, typeBill, day)
      decreases if total.None? then 1 else 0, if total.Some? && |docs| < total.value then total.value - |docs| else 0
    {
      var resp := api(SameDayQuery(day, start, typeBill), 0);
      if resp.Failed? {
        return;
      }
      var t := if total.Some? then total.value else MetadataTotal(resp.body);
      var page := DataOrEmpty(resp.body);
      if page == [] {
        return;
      }
      docs := docs + page;
      if |page| < PageSize || |docs| >= t {
        return;
      }
      total := Some(t);
      start := start + PageSize;
    }
  }

  /** `fetchNew...`: both phases, the merge and, where the service sorts, the sort. */
  method FetchNewDocs(api: Api, typeBill: bool, v: Variant, last: Option<string>) returns (r: Fetch<seq<Doc>>)
    ensures r == FetchNew(api, typeBill, v, last)
  {
    if !Truthy(last) {
      return Fetched([]);
    }
    var day := DayOf(last.value);
    var after := FetchAfter(api, typeBill, v.advance, day);
    if after.Unavailable? {
      return Unavailable;
    }
    var sameDay := FetchSameDay(api, typeBill, if v.sameDayFromCursor then after.value.cursor else day);
    var merged := MergeNew(after.value.docs, sameDay, last.value);
    r := Fetched(if v.sorted then SortNewestFirst(merged) else merged);
  }
}
