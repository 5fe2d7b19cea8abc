/**
 * The invoices page (invoices.component.ts): the loaded listing, the quick
 * filter and paging over it, and the IMEI mass search. The HTTP requests
 * are not modelled; their answers arrive through `ReceiveInvoices` and
 * `LoadFailed`, and the IMEI runs the page's regular expressions find in
 * the search text arrive as a parameter of `PerformMassiveSearch`.
 */
module InvoicesPage {
  import opened Wrappers
  import opened Text
  import opened Seqs
  import opened InvoiceSearch

  /** The pattern loop of the mass search for one invoice and one IMEI. */
  method InvoiceHit(inv: Invoice, m: Imei, kind: InvoiceType) returns (h: Hit)
    ensures h == HitOf(inv, m, kind)
  {
    var ps := Patterns(m);
    var hasImei := false;
    var k := 0;
    while k < |ps|
      invariant 0 <= k <= |ps|
      invariant kind == Sales ==> SalesHit(inv, ps) == SalesHit(inv, ps[k..])
      invariant kind == Purchases ==> PurchaseHitAsWritten(inv, ps, false) == PurchaseHitAsWritten(inv, ps[k..], hasImei)
    {
      var p := ps[k];
      assert ps[k..][0] == p && ps[k..][1..] == ps[k + 1..];
      hasImei := AnnotationHas(inv, p);
      if hasImei && kind == Sales {
        return HitWith(if |inv.items| > 0 then NameOf(inv.items[0]) else "");
      }
      if !hasImei {
        if kind == Sales {
          var foundItem := FindItem(inv.items, p);
          if foundItem.Some? {
            return HitWith(NameOf(foundItem.value));
          }
        } else {
          hasImei := exists i :: 0 <= i < |inv.purchaseItems| && ItemHas(inv.purchaseItems[i], p);
          if hasImei {
            return HitWith("");
          }
        }
      }
      k := k + 1;
    }
    if kind == Purchases && hasImei {
      h := HitWith("");
    } else {
      h := Miss;
    }
  }

  /** The `Map` that keeps the first IMEI found for each normalised number, in insertion order. */
  method DedupImeis(all: seq<Imei>) returns (us: seq<Imei>)
    ensures us == UniqueImeis(all)
  {
    us := [];
    var keys: set<string> := {};
    for i := 0 to |all|
      invariant us == UniqueImeis(all[..i])
      invariant keys == CleanSet(us)
    {
      assert all[..i + 1][..i] == all[..i];
      if all[i].clean !in keys {
        CleanSetAppend(us, all[i]);
        us := us + [all[i]];
        keys := keys + {all[i].clean};
      }
    }
    assert all[..|all|] == all;
  }

  /** One pass of the invoice loop: the entry and the matching invoice pushed when the invoice holds the IMEI. */
  method VisitInvoice(m: Imei, inv: Invoice, kind: InvoiceType, ghost hit: Decision, found0: seq<Found>, matching0: seq<Invoice>)
    returns (found: seq<Found>, matching: seq<Invoice>, here: bool)
    requires DecidesAs(hit, kind)
    ensures here == hit(inv, m).HitWith?
    ensures found == if here then found0 + [FoundOf(m, inv, hit(inv, m))] else found0
    ensures matching == if here then AddInvoice(matching0, inv) else matching0
  {
    found, matching := found0, matching0;
    var h := InvoiceHit(inv, m, kind);
    here := h.HitWith?;
    if here {
      var ref := if Truthy(inv.number) then ByNumber(inv.number.value) else ById(inv.id);
      var name := if kind == Sales && h.itemName != "" then Some(h.itemName) else None;
      found := found + [Found(m.clean, ref, name, false)];
      if FindIndex(matching, IdOf, inv.id) == -1 {
        matching := matching + [inv];
      }
    }
  }

  /** The loop over the loaded invoices for one IMEI: the entries and matching invoices it adds, and whether it found any. */
  method SearchImei(m: Imei, invs: seq<Invoice>, kind: InvoiceType, ghost hit: Decision, found0: seq<Found>, matching0: seq<Invoice>)
    returns (found: seq<Found>, matching: seq<Invoice>, anyFound: bool)
    requires DecidesAs(hit, kind)
    ensures found == found0 + FoundIn(m, invs, hit)
    ensures matching == MatchFor(matching0, m, invs, hit)
    ensures anyFound <==> FoundIn(m, invs, hit) != []
  {
    found, matching, anyFound := found0, matching0, false;
    for j := 0 to |invs|
      invariant found == found0 + FoundIn(m, invs[..j], hit)
      invariant matching == MatchFor(matching0, m, invs[..j], hit)
      invariant anyFound <==> FoundIn(m, invs[..j], hit) != []
    {
      ghost var seen := invs[..j + 1];
      assert seen[..|seen| - 1] == invs[..j] && seen[|seen| - 1] == invs[j];
      ghost var h := hit(invs[j], m);
      ghost var before := FoundIn(m, invs[..j], hit);
      assert FoundIn(m, seen, hit) == if h.HitWith? then before + [FoundOf(m, invs[j], h)] else before;
      assert MatchFor(matching0, m, seen, hit) == if h.HitWith? then AddInvoice(MatchFor(matching0, m, invs[..j], hit), invs[j])
                                                 else MatchFor(matching0, m, invs[..j], hit);
      var here;
      found, matching, here := VisitInvoice(m, invs[j], kind, hit, found, matching);
      anyFound := anyFound || here;
    }
    assert invs[..|invs|] == invs;
  }

  /** The loop over the de-duplicated IMEIs: every entry found, the numbers not found, and the matching invoices. */
  method SearchAll(us: seq<Imei>, invs: seq<Invoice>, kind: InvoiceType, ghost hit: Decision)
    returns (found: seq<Found>, notFound: seq<string>, matching: seq<Invoice>)
    requires DecidesAs(hit, kind)
    ensures found == SearchFound(us, invs, hit)
    ensures notFound == NotFound(us, invs, hit)
    ensures matching == Matching(us, invs, hit)
  {
    found, notFound, matching := [], [], [];
    for a := 0 to |us|
      invariant found == SearchFound(us[..a], invs, hit)
      invariant notFound == NotFound(us[..a], invs, hit)
      invariant matching == Matching(us[..a], invs, hit)
    {
      ghost var next := us[..a + 1];
      assert next[..a] == us[..a] && next[a] == us[a];
      var anyFound;
      found, matching, anyFound := SearchImei(us[a], invs, kind, hit, found, matching);
      assert found == SearchFound(next, invs, hit);
      assert matching == Matching(next, invs, hit);
      if !anyFound {
        notFound := notFound + [us[a].clean];
      }
      assert notFound == NotFound(next, invs, hit);
    }
    assert us[..|us|] == us;
  }

  /** The `imeiCounts` map: how many entries each number has. */
  method CountImeis(found: seq<Found>) returns (counts: map<string, nat>)
    ensures forall k :: Occurrences(found, k) == if k in counts then counts[k] else 0
  {
    counts := map[];
    for i := 0 to |found|
      invariant forall k :: Occurrences(found[..i], k) == if k in counts then counts[k] else 0
    {
      ghost var before := counts;
      var x := found[i].imei;
      var c := if x in counts then counts[x] else 0;
      counts := counts[x := c + 1];
      forall k
        ensures Occurrences(found[..i + 1], k) == if k in counts then counts[k] else 0
      {
        assert found[..i + 1][..i] == found[..i];
        assert Occurrences(found[..i + 1], k) == Occurrences(found[..i], k) + if x == k then 1 else 0;
        assert Occurrences(found[..i], k) == if k in before then before[k] else 0;
      }
    }
    assert found[..|found|] == found;
  }

  /** The pass that sets each entry's duplicate flag from the counts. */
  method MarkDuplicateEntries(found: seq<Found>) returns (marked: seq<Found>)
    ensures marked == MarkDuplicates(found)
  {
    var counts := CountImeis(found);
    marked := [];
    for i := 0 to |found|
      invariant |marked| == i
      invariant forall j :: 0 <= j < i ==> marked[j] == found[j].(isDuplicate := Occurrences(found, found[j].imei) > 1)
    {
      var n := if found[i].imei in counts then counts[found[i].imei] else 0;
      assert n == Occurrences(found, found[i].imei);
      marked := marked + [found[i].(isDuplicate := n > 1)];
    }
  }

  /** The page's state. */
  class InvoicesComponent {
    var invoices: seq<Invoice>
    var allInvoices: seq<Invoice>
    var totalRecords: nat
    var loading: bool
    var updating: bool
    var progress: nat
    var page: nat
    var rows: nat
    var filterValue: string
    var invoiceType: InvoiceType
    var showMassiveSearchModal: bool
    var massiveSearchText: string
    var massiveSearchResults: Option<SearchResults>
    var massiveSearchLoading: bool

    /** An empty page of 30 rows; no listing is selected, which the page treats as purchases. */
    constructor ()
      ensures invoices == [] && allInvoices == [] && totalRecords == 0 && !loading && !updating && progress == 0
      ensures page == 0 && rows == 30 && filterValue == "" && invoiceType == Purchases
      ensures !showMassiveSearchModal && massiveSearchText == "" && massiveSearchResults == None && !massiveSearchLoading
    {
      invoices, allInvoices, totalRecords := [], [], 0;
      loading, updating, progress := false, false, 0;
      page, rows, filterValue, invoiceType := 0, 30, "", Purchases;
      showMassiveSearchModal, massiveSearchText, massiveSearchResults, massiveSearchLoading := false, "", None, false;
    }

    /** `loadInvoices`: the page shows it is loading while the request is out. */
    method LoadInvoices()
      modifies this`loading
      ensures loading
    {
      loading := true;
    }

    /**
     * The answer to a load or refresh: the listing is replaced, the total
     * counts the filtered listing, and the rows shown are the current page
     * of it when a filter is set, and the first page of the listing otherwise.
     */
    method ReceiveInvoices(data: seq<Invoice>, nowUpdating: bool, nowProgress: nat)
      modifies this`allInvoices, this`invoices, this`totalRecords, this`loading, this`updating, this`progress
      ensures allInvoices == data && updating == nowUpdating && progress == nowProgress && !loading
      ensures totalRecords == |FilterInvoices(data, filterValue, invoiceType)|
      ensures invoices == PageOf(FilterInvoices(data, filterValue, invoiceType), if Trim(filterValue) != "" then page else 0, rows)
      ensures Trim(filterValue) == "" ==> totalRecords == |data| && invoices == PageOf(data, 0, rows)
    {
      updating, progress := nowUpdating, nowProgress;
      allInvoices := data;
      totalRecords := |allInvoices|;
      loading := false;
      if filterValue != "" && Trim(filterValue) != "" {
        FilterInvoicesLocal();
      } else {
        invoices := if rows < |allInvoices| then allInvoices[..rows] else allInvoices;
      }
    }

    /**
     * `refreshInvoices` given the answer of the update request, `None` when
     * it fails: the page shows it is loading, and an answer is received as a
     * load's is. The subscription has no error handler, so after a failure
     * the page goes on showing that it is loading, with the listing it had.
     */
    method RefreshInvoices(answer: Option<(seq<Invoice>, bool, nat)>)
      modifies this`allInvoices, this`invoices, this`totalRecords, this`loading, this`updating, this`progress
      ensures answer.None? ==> loading && allInvoices == old(allInvoices) && invoices == old(invoices)
                               && totalRecords == old(totalRecords) && updating == old(updating) && progress == old(progress)
      ensures answer.Some? ==>
                var (data, nowUpdating, nowProgress) := answer.value;
                !loading && allInvoices == data && updating == nowUpdating && progress == nowProgress
                && totalRecords == |FilterInvoices(data, filterValue, invoiceType)|
                && invoices == PageOf(FilterInvoices(data, filterValue, invoiceType), if Trim(filterValue) != "" then page else 0, rows)
    {
      LoadInvoices();
      if answer.Some? {
        var (data, nowUpdating, nowProgress) := answer.value;
        ReceiveInvoices(data, nowUpdating, nowProgress);
      }
    }

    /** The error handler of a load: the listing is emptied. */
    method LoadFailed()
      modifies this`allInvoices, this`invoices, this`totalRecords, this`loading
      ensures !loading && allInvoices == [] && invoices == [] && totalRecords == 0
    {
      loading := false;
      allInvoices, invoices, totalRecords := [], [], 0;
    }

    /** `onInvoiceTypeChange`: another listing is selected; the filter is kept, the rest starts over. */
    method OnInvoiceTypeChange(kind: InvoiceType)
      modifies this`invoiceType, this`page, this`allInvoices, this`invoices, this`totalRecords, this`loading
      ensures invoiceType == kind && page == 0 && allInvoices == [] && invoices == [] && totalRecords == 0 && loading
    {
      invoiceType := kind;
      page := 0;
      allInvoices, invoices, totalRecords := [], [], 0;
      LoadInvoices();
    }

    /** `onStoreChange`: the same restart for another store; the filter is kept. */
    method OnStoreChange()
      modifies this`page, this`allInvoices, this`invoices, this`totalRecords, this`loading
      ensures page == 0 && allInvoices == [] && invoices == [] && totalRecords == 0 && loading
    {
      page := 0;
      allInvoices, invoices, totalRecords := [], [], 0;
      LoadInvoices();
    }

    /** `onFilterChange`: back to the first page of the newly filtered listing. */
    method OnFilterChange()
      modifies this`page, this`invoices, this`totalRecords
      ensures page == 0
      ensures totalRecords == |FilterInvoices(allInvoices, filterValue, invoiceType)| <= |allInvoices|
      ensures invoices == PageOf(FilterInvoices(allInvoices, filterValue, invoiceType), 0, rows)
    {
      page := 0;
      FilterInvoicesLocal();
    }

    /**
     * `filterInvoicesLocal`: the total is the number of loaded invoices
     * passing the filter, and the rows shown are the current page of them.
     */
    method FilterInvoicesLocal()
      modifies this`invoices, this`totalRecords
      ensures totalRecords == |FilterInvoices(allInvoices, filterValue, invoiceType)| <= |allInvoices|
      ensures invoices == PageOf(FilterInvoices(allInvoices, filterValue, invoiceType), page, rows)
    {
      var filtered := FilterInvoices(allInvoices, filterValue, invoiceType);
      totalRecords := |filtered|;
      invoices := PageOf(filtered, page, rows);
    }

    /** `loadInvoicesLazy`: the table asks for the page starting at row `first`, `count` rows long. */
    method LoadInvoicesLazy(first: nat, count: nat)
      requires count > 0
      modifies this`page, this`rows, this`invoices, this`totalRecords
      ensures page == first / count && rows == count
      ensures totalRecords == |FilterInvoices(allInvoices, filterValue, invoiceType)|
      ensures invoices == PageOf(FilterInvoices(allInvoices, filterValue, invoiceType), first / count, count)
    {
      page := first / count;
      rows := count;
      FilterInvoicesLocal();
    }

    /** `openMassiveSearchModal`: an empty search form. */
    method OpenMassiveSearchModal()
      modifies this`showMassiveSearchModal, this`massiveSearchText, this`massiveSearchResults
      ensures showMassiveSearchModal && massiveSearchText == "" && massiveSearchResults == None
    {
      showMassiveSearchModal := true;
      massiveSearchText := "";
      massiveSearchResults := None;
    }

    /** `closeMassiveSearchModal`: the form is hidden and forgotten. */
    method CloseMassiveSearchModal()
      modifies this`showMassiveSearchModal, this`massiveSearchText, this`massiveSearchResults
      ensures !showMassiveSearchModal && massiveSearchText == "" && massiveSearchResults == None
    {
      showMassiveSearchModal := false;
      massiveSearchText := "";
      massiveSearchResults := None;
    }

    /**
     * `performMassiveSearch`, given the runs its regular expressions find in
     * `massiveSearchText`: a blank text does nothing; otherwise the results
     * are those of the mass search over the loaded invoices.
     */
    method PerformMassiveSearch(runs: seq<ImeiMatch>)
      modifies this`massiveSearchResults, this`massiveSearchLoading
      ensures Trim(massiveSearchText) == "" ==> massiveSearchResults == old(massiveSearchResults) && massiveSearchLoading == old(massiveSearchLoading)
      ensures Trim(massiveSearchText) != "" ==> massiveSearchResults == Some(MassSearch(runs, allInvoices, invoiceType)) && !massiveSearchLoading
    {
      if Trim(massiveSearchText) == "" {
        return;
      }
      massiveSearchLoading := true;
      var all: seq<Imei> := [];
      for i := 0 to |runs|
        invariant all == NormalizeAll(runs[..i])
      {
        all := all + [Normalize(runs[i])];
      }
      assert runs[..|runs|] == runs;
      var us := DedupImeis(all);
      var found, notFound, matching := SearchAll(us, allInvoices, invoiceType, DecisionFor(invoiceType));
      found := MarkDuplicateEntries(found);
      massiveSearchResults := Some(SearchResults(|us|, found, notFound, matching));
      massiveSearchLoading := false;
    }

    /** `applyMassiveSearchFilter`: the table shows the first page of the matching invoices, and the form closes. */
    method ApplyMassiveSearchFilter()
      modifies this`invoices, this`totalRecords, this`page, this`showMassiveSearchModal, this`massiveSearchText, this`massiveSearchResults
      ensures old(massiveSearchResults).None? ==>
                invoices == old(invoices) && totalRecords == old(totalRecords) && page == old(page)
                && showMassiveSearchModal == old(showMassiveSearchModal) && massiveSearchText == old(massiveSearchText) && massiveSearchResults == None
      ensures old(massiveSearchResults).Some? ==>
                invoices == PageOf(old(massiveSearchResults).value.matchingInvoices, 0, rows)
                && totalRecords == |old(massiveSearchResults).value.matchingInvoices| && page == 0
                && !showMassiveSearchModal && massiveSearchText == "" && massiveSearchResults == None
    {
      if massiveSearchResults.Some? {
        var matching := massiveSearchResults.value.matchingInvoices;
        invoices := if rows < |matching| then matching[..rows] else matching;
        totalRecords := |matching|;
        page := 0;
        CloseMassiveSearchModal();
      }
    }

    /** `clearMassiveSearchFilter`: the table goes back to the filtered listing, and the form closes. */
    method ClearMassiveSearchFilter()
      modifies this`invoices, this`totalRecords, this`showMassiveSearchModal, this`massiveSearchText, this`massiveSearchResults
      ensures totalRecords == |FilterInvoices(allInvoices, filterValue, invoiceType)|
      ensures invoices == PageOf(FilterInvoices(allInvoices, filterValue, invoiceType), page, rows)
      ensures !showMassiveSearchModal && massiveSearchText == "" && massiveSearchResults == None
    {
      FilterInvoicesLocal();
      CloseMassiveSearchModal();
    }
  }
}
