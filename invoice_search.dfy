/**
 * The searches of the invoices page (invoices.component.ts): the quick
 * filter over the loaded invoices, the page slice shown in the table, and
 * the IMEI mass search with its de-duplication, per-invoice matching and
 * duplicate flags. Matching a pattern is `includes` on lower-cased text:
 * the component's word-boundary regex only ever matches where `includes`
 * already does, so the `||` of the two is `includes`.
 */
module InvoiceSearch {
  import opened Wrappers
  import opened Text
  import opened Seqs

  /** A line of an invoice: its product name, description and observations. */
  datatype Item = Item(name: Option<string>, description: Option<string>, observations: Option<string>)

  /**
   * An invoice as the page receives it: `numberTemplate.number` as text,
   * the client (sales) or provider (purchases) name, the sales `items` and
   * the purchase `purchases.items`, and the annotation.
   */
  datatype Invoice = Invoice(id: int, number: Option<string>, clientName: Option<string>, providerName: Option<string>,
                             items: seq<Item>, purchaseItems: seq<Item>, anotation: Option<string>)

  /** The selected listing: `'sales'`, or anything else, which the page treats as purchases. */
  datatype InvoiceType = Sales | Purchases

  // ---------------------------------------------------------------- quick filter

  /** `f && f.toLowerCase().includes(q)`. */
  predicate FieldHas(f: Option<string>, q: string)
  {
    Truthy(f) && Contains(Lower(f.value), q)
  }

  /** Some item's name holds `q`. */
  predicate AnyNameHas(items: seq<Item>, q: string)
  {
    exists i :: 0 <= i < |items| && FieldHas(items[i].name, q)
  }

  /** Some item's description holds `q`. */
  predicate AnyDescriptionHas(items: seq<Item>, q: string)
  {
    exists i :: 0 <= i < |items| && FieldHas(items[i].description, q)
  }

  /** The filter's fields: number, client or provider, item names, annotation, item descriptions. */
  predicate Matches(inv: Invoice, q: string, kind: InvoiceType)
  {
    match kind
    case Sales =>
      FieldHas(inv.number, q) || FieldHas(inv.clientName, q) || AnyNameHas(inv.items, q)
      || FieldHas(inv.anotation, q) || AnyDescriptionHas(inv.items, q)
    case Purchases =>
      FieldHas(inv.number, q) || FieldHas(inv.providerName, q) || AnyNameHas(inv.purchaseItems, q)
      || FieldHas(inv.anotation, q) || AnyDescriptionHas(inv.purchaseItems, q)
  }

  /**
   * The filter of `filterInvoicesLocal`: every invoice when the trimmed
   * filter is empty, otherwise those holding the trimmed, lower-cased
   * filter in one of the listed fields, in their original order.
   */
  function FilterInvoices(all: seq<Invoice>, filterValue: string, kind: InvoiceType): (r: seq<Invoice>)
    ensures |r| <= |all|
    ensures Trim(filterValue) == "" ==> r == all
  {
    var t := Trim(filterValue);
    if t == "" then all else KeepMatching(all, Lower(t), kind)
  }

  /** `filter(inv => ...)` with the quick filter's test for the lower-cased query `q`. */
  function KeepMatching(all: seq<Invoice>, q: string, kind: InvoiceType): (r: seq<Invoice>)
    ensures |r| <= |all|
  {
    if all == [] then []
    else (if Matches(all[0], q, kind) then [all[0]] else []) + KeepMatching(all[1..], q, kind)
  }

  /** The invoices kept are exactly those that match. */
  lemma {:induction false} KeepMatchingMembers(all: seq<Invoice>, q: string, kind: InvoiceType, x: Invoice)
    ensures x in KeepMatching(all, q, kind) <==> x in all && Matches(x, q, kind)
  {
    if all != [] {
      KeepMatchingMembers(all[1..], q, kind, x);
      assert all == [all[0]] + all[1..];
    }
  }

  /** The invoices kept are in their original order. */
  lemma {:induction false} KeepMatchingIsSubseq(all: seq<Invoice>, q: string, kind: InvoiceType)
    ensures IsSubseq(KeepMatching(all, q, kind), all)
  {
    if all != [] {
      KeepMatchingIsSubseq(all[1..], q, kind);
      if Matches(all[0], q, kind) {
        assert KeepMatching(all, q, kind) == [all[0]] + KeepMatching(all[1..], q, kind);
      } else {
        assert KeepMatching(all, q, kind) == KeepMatching(all[1..], q, kind);
      }
    }
  }

  /** A non-blank filter keeps exactly the loaded invoices that match the trimmed, lower-cased text. */
  lemma FilterInvoicesMembers(all: seq<Invoice>, filterValue: string, kind: InvoiceType, x: Invoice)
    requires Trim(filterValue) != ""
    ensures x in FilterInvoices(all, filterValue, kind) <==> x in all && Matches(x, Lower(Trim(filterValue)), kind)
  {
    KeepMatchingMembers(all, Lower(Trim(filterValue)), kind, x);
  }

  /** A filter made of white space alone selects every invoice. */
  lemma BlankFilterSelectsAll(all: seq<Invoice>, filterValue: string, kind: InvoiceType)
    requires forall i :: 0 <= i < |filterValue| ==> IsSpace(filterValue[i])
    ensures FilterInvoices(all, filterValue, kind) == all
  {
    TrimEmptyIffAllSpace(filterValue);
  }

  /** The filter keeps the invoices' order: its result is a subsequence of the loaded invoices. */
  lemma FilterKeepsOrder(all: seq<Invoice>, filterValue: string, kind: InvoiceType)
    ensures IsSubseq(FilterInvoices(all, filterValue, kind), all)
  {
    var t := Trim(filterValue);
    if t == "" {
      SubseqOfSelf(all);
    } else {
      KeepMatchingIsSubseq(all, Lower(t), kind);
    }
  }

  lemma {:induction false} SubseqOfSelf<T>(s: seq<T>)
    ensures IsSubseq(s, s)
  {
    if s != [] {
      SubseqOfSelf(s[1..]);
    }
  }

  /**
   * `s.slice(page * rows, (page + 1) * rows)`: at most `rows` invoices,
   * the ones from position `page * rows` on, clipped to the end.
   */
  function PageOf(s: seq<Invoice>, page: nat, rows: nat): seq<Invoice>
  {
    var from := page * rows;
    var to := from + rows;
    if from >= |s| then [] else if to > |s| then s[from..] else s[from..to]
  }

  /**
   * A page holds at most `rows` invoices: as many as remain from position
   * `page * rows` up to `rows`, none past the end, and each the invoice at
   * its position in the listing.
   */
  lemma PageOfContents(s: seq<Invoice>, page: nat, rows: nat)
    ensures var r := PageOf(s, page, rows);
            |r| <= rows
            && (page * rows <= |s| ==> |r| == if |s| - page * rows < rows then |s| - page * rows else rows)
            && (page * rows > |s| ==> r == [])
            && (forall i :: 0 <= i < |r| ==> r[i] == s[page * rows + i])
  {
  }

  // ---------------------------------------------------------------- IMEI mass search

  /** A run the IMEI patterns found in the search text: its digits and the text it was found as. */
  datatype ImeiMatch = ImeiMatch(digits: string, original: string)

  /** An IMEI to look for: the normalised number and the text it came from. */
  datatype Imei = Imei(clean: string, original: string)

  /** `substring(0, 15)`: a 16-digit run is cut to its first 15 digits; a 15-digit one is kept. */
  function Normalize(m: ImeiMatch): (r: Imei)
    ensures |m.digits| >= 15 ==> r.clean == m.digits[..15]
    ensures |m.digits| <= 15 ==> r.clean == m.digits
    ensures r.original == m.original
  {
    Imei(if |m.digits| > 15 then m.digits[..15] else m.digits, m.original)
  }

  /** The normalised numbers of a run of IMEIs. */
  function CleanSet(s: seq<Imei>): (r: set<string>)
    ensures forall x :: x in r <==> exists i :: 0 <= i < |s| && s[i].clean == x
  {
    set i | 0 <= i < |s| :: s[i].clean
  }

  /** The `Map` keyed by the normalised number, in insertion order: each number's first IMEI. */
  function UniqueImeis(s: seq<Imei>): seq<Imei>
  {
    if s == [] then []
    else
      var p := UniqueImeis(s[..|s| - 1]);
      if s[|s| - 1].clean in CleanSet(p) then p else p + [s[|s| - 1]]
  }

  /** The normalised number of an IMEI: the key of the de-duplicating `Map`. */
  function CleanOf(m: Imei): string
  {
    m.clean
  }

  /** No two IMEIs of `u` share a normalised number. */
  predicate DistinctCleans(u: seq<Imei>)
  {
    forall a, b :: 0 <= a < b < |u| ==> u[a].clean != u[b].clean
  }

  lemma CleanSetAppend(s: seq<Imei>, x: Imei)
    ensures CleanSet(s + [x]) == CleanSet(s) + {x.clean}
  {
    forall y ensures y in CleanSet(s + [x]) <==> y in CleanSet(s) + {x.clean} {
      if y in CleanSet(s + [x]) {
        var i :| 0 <= i < |s + [x]| && (s + [x])[i].clean == y;
        if i < |s| {
          assert s[i] == (s + [x])[i];
        }
      }
      if y in CleanSet(s) {
        var i :| 0 <= i < |s| && s[i].clean == y;
        assert (s + [x])[i] == s[i];
      }
      if y == x.clean {
        assert (s + [x])[|s|].clean == y;
      }
    }
  }

  /** The de-duplication keeps one IMEI per normalised number, and every number found is kept. */
  lemma {:induction false} UniqueImeisCover(s: seq<Imei>)
    ensures DistinctCleans(UniqueImeis(s))
    ensures CleanSet(UniqueImeis(s)) == CleanSet(s)
  {
    if s != [] {
      var init := s[..|s| - 1];
      var x := s[|s| - 1];
      assert s == init + [x];
      UniqueImeisCover(init);
      CleanSetAppend(init, x);
      var p := UniqueImeis(init);
      if x.clean !in CleanSet(p) {
        CleanSetAppend(p, x);
        var u := p + [x];
        forall a, b | 0 <= a < b < |u| ensures u[a].clean != u[b].clean {
          if b == |p| {
            assert u[a] == p[a];
            assert p[a].clean in CleanSet(p);
          }
        }
      }
    }
  }

  /** The IMEI kept for a number is the first one found with that number. */
  lemma {:induction false} UniqueImeisFirst(s: seq<Imei>)
    ensures forall a :: 0 <= a < |UniqueImeis(s)| ==>
              0 <= FindIndex(s, CleanOf, UniqueImeis(s)[a].clean) && s[FindIndex(s, CleanOf, UniqueImeis(s)[a].clean)] == UniqueImeis(s)[a]
  {
    if s != [] {
      var init := s[..|s| - 1];
      var x := s[|s| - 1];
      assert s == init + [x];
      UniqueImeisFirst(init);
      UniqueImeisCover(init);
      var p := UniqueImeis(init);
      forall a | 0 <= a < |p|
        ensures 0 <= FindIndex(s, CleanOf, p[a].clean) && s[FindIndex(s, CleanOf, p[a].clean)] == p[a]
      {
        FindIndexPrefix(init, x, CleanOf, p[a].clean);
      }
      if x.clean !in CleanSet(p) {
        assert FindIndex(init, CleanOf, x.clean) == -1 by {
          forall i | 0 <= i < |init| ensures CleanOf(init[i]) != x.clean {
            assert init[i].clean in CleanSet(init);
          }
        }
        FindIndexPrefix(init, x, CleanOf, x.clean);
      }
    }
  }

  /** Looking a key up in `s + [x]` finds it in `s` when it is there, and at `x` otherwise. */
  lemma {:induction false} FindIndexPrefix<T, K>(s: seq<T>, x: T, key: T -> K, k: K)
    ensures FindIndex(s, key, k) >= 0 ==> FindIndex(s + [x], key, k) == FindIndex(s, key, k)
    ensures FindIndex(s, key, k) == -1 ==> FindIndex(s + [x], key, k) == (if key(x) == k then |s| else -1)
  {
    if s != [] {
      assert (s + [x])[1..] == s[1..] + [x];
      FindIndexPrefix(s[1..], x, key, k);
    }
  }

  /** The five texts searched for one IMEI: the number, its original text, and the number after `IMEI`, `IMEI:` and `IMEI `. */
  function Patterns(m: Imei): (r: seq<string>)
    ensures |r| == 5 && r[0] == m.clean && r[4] == "IMEI " + m.clean
  {
    [m.clean, m.original, "IMEI" + m.clean, "IMEI:" + m.clean, "IMEI " + m.clean]
  }

  /** `s?.toLowerCase() || ''`. */
  function LowerOrEmpty(s: Option<string>): string
  {
    if s.Some? then Lower(s.value) else ""
  }

  /** The annotation holds the pattern. */
  predicate AnnotationHas(inv: Invoice, p: string)
  {
    Contains(LowerOrEmpty(inv.anotation), Lower(p))
  }

  /** An item's description or observations hold the pattern. */
  predicate ItemHas(item: Item, p: string)
  {
    Contains(LowerOrEmpty(item.description), Lower(p)) || Contains(LowerOrEmpty(item.observations), Lower(p))
  }

  /** `items.find(...)`: the first item holding the pattern. */
  function FindItem(items: seq<Item>, p: string): (r: Option<Item>)
    ensures r.None? <==> forall i :: 0 <= i < |items| ==> !ItemHas(items[i], p)
    ensures r.Some? ==> r.value in items && ItemHas(r.value, p)
  {
    if items == [] then None
    else if ItemHas(items[0], p) then Some(items[0])
    else FindItem(items[1..], p)
  }

  /** `item.name || ''`. */
  function NameOf(item: Item): string
  {
    if Truthy(item.name) then item.name.value else ""
  }

  /** Whether an invoice holds an IMEI and, for a sale, the item name reported with it. */
  datatype Hit = Miss | HitWith(itemName: string)

  /**
   * The pattern loop for a sale: an annotation hit reports the first item's
   * name and stops; otherwise the first item holding the pattern reports its
   * name and stops; otherwise the next pattern is tried.
   */
  function SalesHit(inv: Invoice, ps: seq<string>): Hit
  {
    if ps == [] then Miss
    else if AnnotationHas(inv, ps[0]) then HitWith(if |inv.items| > 0 then NameOf(inv.items[0]) else "")
    else match FindItem(inv.items, ps[0])
      case Some(item) => HitWith(NameOf(item))
      case None => SalesHit(inv, ps[1..])
  }

  /** A sale holds the IMEI exactly when one of the patterns is in its annotation or in one of its items. */
  lemma {:induction false} SalesHitIff(inv: Invoice, ps: seq<string>)
    ensures SalesHit(inv, ps).HitWith? <==>
            exists k :: 0 <= k < |ps| && (AnnotationHas(inv, ps[k]) || exists i :: 0 <= i < |inv.items| && ItemHas(inv.items[i], ps[k]))
  {
    if ps != [] {
      SalesHitIff(inv, ps[1..]);
      if !AnnotationHas(inv, ps[0]) && FindItem(inv.items, ps[0]).None? {
        forall k | 0 < k < |ps| ensures ps[k] == ps[1..][k - 1] {}
      }
    }
  }

  /**
   * The pattern loop for a purchase, as written: `hasImei` is overwritten
   * by each pattern's annotation test, an item hit stops the loop, but an
   * annotation hit does not, so a later pattern can clear it again.
   */
  function PurchaseHitAsWritten(inv: Invoice, ps: seq<string>, hasImei: bool): bool
  {
    if ps == [] then hasImei
    else if AnnotationHas(inv, ps[0]) then PurchaseHitAsWritten(inv, ps[1..], true)
    else if exists i :: 0 <= i < |inv.purchaseItems| && ItemHas(inv.purchaseItems[i], ps[0]) then true
    else PurchaseHitAsWritten(inv, ps[1..], false)
  }

  /** What the purchase loop evidently means: some pattern is in the annotation or in some purchase item. */
  predicate PurchaseHitIntended(inv: Invoice, ps: seq<string>)
  {
    exists k :: 0 <= k < |ps| && (AnnotationHas(inv, ps[k]) || exists i :: 0 <= i < |inv.purchaseItems| && ItemHas(inv.purchaseItems[i], ps[k]))
  }

  /**
   * When no purchase item holds a pattern, the loop as written answers
   * with the LAST pattern's annotation test alone.
   */
  lemma {:induction false} PurchaseHitLastPatternOnly(inv: Invoice, ps: seq<string>, hasImei: bool)
    requires forall k, i :: 0 <= k < |ps| && 0 <= i < |inv.purchaseItems| ==> !ItemHas(inv.purchaseItems[i], ps[k])
    ensures PurchaseHitAsWritten(inv, ps, hasImei) == if ps == [] then hasImei else AnnotationHas(inv, ps[|ps| - 1])
  {
    if ps != [] {
      assert forall k, i :: 0 <= k < |ps[1..]| && 0 <= i < |inv.purchaseItems| ==> !ItemHas(inv.purchaseItems[i], ps[1..][k]) by {
        forall k, i | 0 <= k < |ps[1..]| && 0 <= i < |inv.purchaseItems| ensures !ItemHas(inv.purchaseItems[i], ps[1..][k]) {
          assert ps[1..][k] == ps[k + 1];
        }
      }
      assert !(exists i :: 0 <= i < |inv.purchaseItems| && ItemHas(inv.purchaseItems[i], ps[0])) by {
        forall i | 0 <= i < |inv.purchaseItems| ensures !ItemHas(inv.purchaseItems[i], ps[0]) {
          assert 0 <= 0 < |ps|;
        }
      }
      PurchaseHitLastPatternOnly(inv, ps[1..], if AnnotationHas(inv, ps[0]) then true else false);
    }
  }

  /**
   * A purchase invoice whose annotation holds the bare IMEI, but not
   * `imei <number>`, and none of whose items mention it, is reported as
   * not holding the IMEI, though the search evidently means to find it.
   */
  lemma PurchaseAnnotationMissed(inv: Invoice, m: Imei)
    requires AnnotationHas(inv, m.clean) && !AnnotationHas(inv, "IMEI " + m.clean)
    requires forall k, i :: 0 <= k < 5 && 0 <= i < |inv.purchaseItems| ==> !ItemHas(inv.purchaseItems[i], Patterns(m)[k])
    ensures !PurchaseHitAsWritten(inv, Patterns(m), false)
    ensures PurchaseHitIntended(inv, Patterns(m))
  {
    PurchaseHitLastPatternOnly(inv, Patterns(m), false);
    assert AnnotationHas(inv, Patterns(m)[0]);
  }

  /** The corrected purchase loop: every pattern is tried and any hit is kept. */
  function PurchaseHit(inv: Invoice, ps: seq<string>): (r: bool)
    ensures r <==> PurchaseHitIntended(inv, ps)
  {
    if ps == [] then false
    else
      var here := AnnotationHas(inv, ps[0]) || exists i :: 0 <= i < |inv.purchaseItems| && ItemHas(inv.purchaseItems[i], ps[0]);
      assert PurchaseHitIntended(inv, ps) <==> here || PurchaseHitIntended(inv, ps[1..]) by {
        if PurchaseHitIntended(inv, ps[1..]) {
          var k :| 0 <= k < |ps[1..]| && (AnnotationHas(inv, ps[1..][k]) || exists i :: 0 <= i < |inv.purchaseItems| && ItemHas(inv.purchaseItems[i], ps[1..][k]));
          assert ps[k + 1] == ps[1..][k];
        }
        if PurchaseHitIntended(inv, ps) && !here {
          var k :| 0 <= k < |ps| && (AnnotationHas(inv, ps[k]) || exists i :: 0 <= i < |inv.purchaseItems| && ItemHas(inv.purchaseItems[i], ps[k]));
          assert k != 0;
          assert ps[1..][k - 1] == ps[k];
        }
      }
      here || PurchaseHit(inv, ps[1..])
  }

  /** Whether the invoice holds the IMEI, as the page decides it (the purchase loop as written). */
  function HitOf(inv: Invoice, m: Imei, kind: InvoiceType): Hit
  {
    match kind
    case Sales => SalesHit(inv, Patterns(m))
    case Purchases => if PurchaseHitAsWritten(inv, Patterns(m), false) then HitWith("") else Miss
  }

  /** How the search decides whether an invoice holds an IMEI; the searches below hold for any decision. */
  type Decision = (Invoice, Imei) -> Hit

  /** The page's decision for the selected listing. */
  function DecisionFor(kind: InvoiceType): Decision
  {
    (inv: Invoice, m: Imei) => HitOf(inv, m, kind)
  }

  /**
   * `hit` decides as the page does for the listing. The trigger keeps the
   * page's decision from being unfolded wherever `hit` is merely applied.
   */
  ghost predicate DecidesAs(hit: Decision, kind: InvoiceType)
  {
    forall inv, m {:trigger HitOf(inv, m, kind)} :: hit(inv, m) == HitOf(inv, m, kind)
  }

  /** `numberTemplate?.number || id`. */
  datatype InvoiceRef = ByNumber(number: string) | ById(id: int)

  /** One found IMEI: the number, the invoice, the item name for a sale, and whether the number is in several invoices. */
  datatype Found = Found(imei: string, invoiceId: InvoiceRef, itemName: Option<string>, isDuplicate: bool)

  /**
   * The entry pushed for an invoice that holds the IMEI; the duplicate flag
   * is set afterwards. Only a sale's decision names an item, so the page's
   * `sales` test before `itemName` is implied by the name being non-empty.
   */
  function FoundOf(m: Imei, inv: Invoice, h: Hit): Found
    requires h.HitWith?
  {
    Found(m.clean, if Truthy(inv.number) then ByNumber(inv.number.value) else ById(inv.id),
          if h.itemName != "" then Some(h.itemName) else None, false)
  }

  /** The entries for one IMEI, one per invoice holding it, in invoice order. */
  function FoundIn(m: Imei, invs: seq<Invoice>, hit: Decision): seq<Found>
  {
    if invs == [] then []
    else
      var p := FoundIn(m, invs[..|invs| - 1], hit);
      var h := hit(invs[|invs| - 1], m);
      if h.HitWith? then p + [FoundOf(m, invs[|invs| - 1], h)] else p
  }

  /** At most one entry per invoice, and every entry is for the searched number. */
  lemma {:induction false} FoundInEntries(m: Imei, invs: seq<Invoice>, hit: Decision)
    ensures |FoundIn(m, invs, hit)| <= |invs|
    ensures forall i :: 0 <= i < |FoundIn(m, invs, hit)| ==> FoundIn(m, invs, hit)[i].imei == m.clean
  {
    if invs != [] {
      FoundInEntries(m, invs[..|invs| - 1], hit);
    }
  }

  /** An IMEI has no entry exactly when no invoice holds it. */
  lemma {:induction false} FoundInEmpty(m: Imei, invs: seq<Invoice>, hit: Decision)
    ensures FoundIn(m, invs, hit) == [] <==> forall j :: 0 <= j < |invs| ==> hit(invs[j], m).Miss?
  {
    if invs != [] {
      FoundInEmpty(m, invs[..|invs| - 1], hit);
      assert forall j :: 0 <= j < |invs| - 1 ==> invs[..|invs| - 1][j] == invs[j];
    }
  }

  /** The positions of the invoices that hold the IMEI, in increasing order. */
  function HitIndices(m: Imei, invs: seq<Invoice>, hit: Decision): (r: seq<int>)
    ensures forall k :: 0 <= k < |r| ==> 0 <= r[k] < |invs| && hit(invs[r[k]], m).HitWith?
    ensures forall k, l :: 0 <= k < l < |r| ==> r[k] < r[l]
    ensures forall j :: 0 <= j < |invs| && hit(invs[j], m).HitWith? ==> j in r
  {
    if invs == [] then []
    else
      var p := HitIndices(m, invs[..|invs| - 1], hit);
      if hit(invs[|invs| - 1], m).HitWith? then p + [|invs| - 1] else p
  }

  /**
   * The entries for one IMEI are exactly one `FoundOf` per invoice that
   * holds it, in the order of the invoices.
   */
  lemma {:induction false} FoundInExact(m: Imei, invs: seq<Invoice>, hit: Decision)
    ensures |FoundIn(m, invs, hit)| == |HitIndices(m, invs, hit)|
    ensures forall k :: 0 <= k < |FoundIn(m, invs, hit)| ==>
              FoundIn(m, invs, hit)[k] == FoundOf(m, invs[HitIndices(m, invs, hit)[k]], hit(invs[HitIndices(m, invs, hit)[k]], m))
  {
    if invs != [] {
      var init := invs[..|invs| - 1];
      FoundInExact(m, init, hit);
      var p := FoundIn(m, init, hit);
      var q := HitIndices(m, init, hit);
      forall k | 0 <= k < |p|
        ensures p[k] == FoundOf(m, invs[q[k]], hit(invs[q[k]], m))
      {
        assert init[q[k]] == invs[q[k]];
      }
    }
  }

  /** An entry is for this IMEI exactly when it is the `FoundOf` of an invoice holding it. */
  lemma {:induction false} FoundInMembers(m: Imei, invs: seq<Invoice>, hit: Decision, e: Found)
    ensures e in FoundIn(m, invs, hit) <==>
            exists j :: 0 <= j < |invs| && hit(invs[j], m).HitWith? && e == FoundOf(m, invs[j], hit(invs[j], m))
  {
    if invs != [] {
      var init := invs[..|invs| - 1];
      FoundInMembers(m, init, hit, e);
      if e in FoundIn(m, init, hit) {
        var j :| 0 <= j < |init| && hit(init[j], m).HitWith? && e == FoundOf(m, init[j], hit(init[j], m));
        assert init[j] == invs[j];
      }
      if j :| 0 <= j < |invs| && hit(invs[j], m).HitWith? && e == FoundOf(m, invs[j], hit(invs[j], m)) {
        if j < |init| {
          assert init[j] == invs[j];
        }
      }
    }
  }

  /** The entries for every IMEI, IMEI by IMEI. */
  function SearchFound(us: seq<Imei>, invs: seq<Invoice>, hit: Decision): seq<Found>
  {
    if us == [] then [] else SearchFound(us[..|us| - 1], invs, hit) + FoundIn(us[|us| - 1], invs, hit)
  }

  /** An entry is reported exactly when it is one of the entries of some searched IMEI. */
  lemma {:induction false} SearchFoundMembers(us: seq<Imei>, invs: seq<Invoice>, hit: Decision, e: Found)
    ensures e in SearchFound(us, invs, hit) <==> exists b :: 0 <= b < |us| && e in FoundIn(us[b], invs, hit)
  {
    if us != [] {
      var init := us[..|us| - 1];
      SearchFoundMembers(init, invs, hit, e);
      assert SearchFound(us, invs, hit) == SearchFound(init, invs, hit) + FoundIn(us[|us| - 1], invs, hit);
      if e in SearchFound(init, invs, hit) {
        var b :| 0 <= b < |init| && e in FoundIn(init[b], invs, hit);
        assert init[b] == us[b];
      }
      if b :| 0 <= b < |us| && e in FoundIn(us[b], invs, hit) {
        if b < |init| {
          assert init[b] == us[b];
        }
      }
    }
  }

  /** The numbers no invoice holds, in search order. */
  function NotFound(us: seq<Imei>, invs: seq<Invoice>, hit: Decision): seq<string>
  {
    if us == [] then []
    else NotFound(us[..|us| - 1], invs, hit) + if FoundIn(us[|us| - 1], invs, hit) == [] then [us[|us| - 1].clean] else []
  }

  /** A number is reported not found exactly when it was searched for and no invoice holds it. */
  lemma {:induction false} NotFoundIff(us: seq<Imei>, invs: seq<Invoice>, hit: Decision, x: string)
    ensures x in NotFound(us, invs, hit) <==>
            exists a :: 0 <= a < |us| && us[a].clean == x && forall j :: 0 <= j < |invs| ==> hit(invs[j], us[a]).Miss?
  {
    if us != [] {
      var init := us[..|us| - 1];
      NotFoundIff(init, invs, hit, x);
      FoundInEmpty(us[|us| - 1], invs, hit);
      assert forall a :: 0 <= a < |init| ==> init[a] == us[a];
    }
  }

  /** The id of an invoice, the key `matchingInvoices` is checked by. */
  function IdOf(inv: Invoice): int
  {
    inv.id
  }

  /** No two invoices of `s` share an id. */
  predicate DistinctIds(s: seq<Invoice>)
  {
    forall a, b :: 0 <= a < b < |s| ==> s[a].id != s[b].id
  }

  /** Some invoice of `s` has the id. */
  predicate HasId(s: seq<Invoice>, id: int)
  {
    exists a :: 0 <= a < |s| && s[a].id == id
  }

  /** `if (!matching.find(inv => inv.id === invoice.id)) matching.push(invoice)`. */
  function AddInvoice(acc: seq<Invoice>, inv: Invoice): seq<Invoice>
  {
    if FindIndex(acc, IdOf, inv.id) == -1 then acc + [inv] else acc
  }

  /**
   * Adding an invoice keeps the ids distinct, leaves its id present, keeps
   * every id already there, and brings in no invoice but the added one.
   */
  lemma AddInvoiceKeeps(acc: seq<Invoice>, inv: Invoice)
    ensures var r := AddInvoice(acc, inv);
            (DistinctIds(acc) ==> DistinctIds(r))
            && HasId(r, inv.id)
            && (forall id :: HasId(acc, id) ==> HasId(r, id))
            && (forall x :: x in r ==> x in acc || x == inv)
  {
    var f := FindIndex(acc, IdOf, inv.id);
    if f == -1 {
      var r := acc + [inv];
      assert r[|acc|].id == inv.id;
      assert forall a :: 0 <= a < |acc| ==> r[a] == acc[a] && IdOf(acc[a]) != inv.id;
    } else {
      assert acc[f].id == inv.id;
    }
  }

  /** The invoices holding one IMEI, added to `acc` in invoice order. */
  function MatchFor(acc: seq<Invoice>, m: Imei, invs: seq<Invoice>, hit: Decision): seq<Invoice>
  {
    if invs == [] then acc
    else
      var p := MatchFor(acc, m, invs[..|invs| - 1], hit);
      if hit(invs[|invs| - 1], m).HitWith? then AddInvoice(p, invs[|invs| - 1]) else p
  }

  /** `matchingInvoices`: every invoice holding some IMEI, each id once, in the order first met. */
  function Matching(us: seq<Imei>, invs: seq<Invoice>, hit: Decision): seq<Invoice>
  {
    if us == [] then [] else MatchFor(Matching(us[..|us| - 1], invs, hit), us[|us| - 1], invs, hit)
  }

  /** Adding the invoices that hold one IMEI keeps the ids distinct and keeps every id already there. */
  lemma {:induction false} MatchForKeeps(acc: seq<Invoice>, m: Imei, invs: seq<Invoice>, hit: Decision)
    ensures DistinctIds(acc) ==> DistinctIds(MatchFor(acc, m, invs, hit))
    ensures forall id :: HasId(acc, id) ==> HasId(MatchFor(acc, m, invs, hit), id)
  {
    if invs != [] {
      MatchForKeeps(acc, m, invs[..|invs| - 1], hit);
      AddInvoiceKeeps(MatchFor(acc, m, invs[..|invs| - 1], hit), invs[|invs| - 1]);
    }
  }

  /** Every invoice added for one IMEI holds it. */
  lemma {:induction false} MatchForSound(acc: seq<Invoice>, m: Imei, invs: seq<Invoice>, hit: Decision)
    ensures forall x :: x in MatchFor(acc, m, invs, hit) ==> x in acc || (x in invs && hit(x, m).HitWith?)
  {
    if invs != [] {
      MatchForSound(acc, m, invs[..|invs| - 1], hit);
      AddInvoiceKeeps(MatchFor(acc, m, invs[..|invs| - 1], hit), invs[|invs| - 1]);
      assert forall x :: x in invs[..|invs| - 1] ==> x in invs;
    }
  }

  /** Every invoice holding the IMEI has its id among those added. */
  lemma {:induction false} MatchForCovers(acc: seq<Invoice>, m: Imei, invs: seq<Invoice>, hit: Decision)
    ensures forall j :: 0 <= j < |invs| && hit(invs[j], m).HitWith? ==> HasId(MatchFor(acc, m, invs, hit), invs[j].id)
  {
    if invs != [] {
      var init := invs[..|invs| - 1];
      MatchForCovers(acc, m, init, hit);
      AddInvoiceKeeps(MatchFor(acc, m, init, hit), invs[|invs| - 1]);
      assert forall j :: 0 <= j < |init| ==> init[j] == invs[j];
    }
  }

  /** `matchingInvoices` has no repeated id. */
  lemma {:induction false} MatchingDistinct(us: seq<Imei>, invs: seq<Invoice>, hit: Decision)
    ensures DistinctIds(Matching(us, invs, hit))
  {
    if us != [] {
      MatchingDistinct(us[..|us| - 1], invs, hit);
      MatchForKeeps(Matching(us[..|us| - 1], invs, hit), us[|us| - 1], invs, hit);
    }
  }

  /** Every invoice of `matchingInvoices` is a loaded invoice holding one of the IMEIs. */
  lemma {:induction false} MatchingSound(us: seq<Imei>, invs: seq<Invoice>, hit: Decision)
    ensures forall x :: x in Matching(us, invs, hit) ==> x in invs && exists a :: 0 <= a < |us| && hit(x, us[a]).HitWith?
  {
    if us != [] {
      var init := us[..|us| - 1];
      MatchingSound(init, invs, hit);
      MatchForSound(Matching(init, invs, hit), us[|us| - 1], invs, hit);
      forall x | x in Matching(us, invs, hit) ensures x in invs && exists a :: 0 <= a < |us| && hit(x, us[a]).HitWith? {
        if x in Matching(init, invs, hit) {
          var a :| 0 <= a < |init| && hit(x, init[a]).HitWith?;
          assert us[a] == init[a];
        } else {
          assert hit(x, us[|us| - 1]).HitWith?;
        }
      }
    }
  }

  /** Every loaded invoice holding one of the IMEIs has its id in `matchingInvoices`. */
  lemma {:induction false} MatchingCovers(us: seq<Imei>, invs: seq<Invoice>, hit: Decision)
    ensures forall a, j :: 0 <= a < |us| && 0 <= j < |invs| && hit(invs[j], us[a]).HitWith? ==> HasId(Matching(us, invs, hit), invs[j].id)
  {
    if us != [] {
      var init := us[..|us| - 1];
      var p := Matching(init, invs, hit);
      MatchingCovers(init, invs, hit);
      MatchForKeeps(p, us[|us| - 1], invs, hit);
      MatchForCovers(p, us[|us| - 1], invs, hit);
      assert forall a :: 0 <= a < |init| ==> init[a] == us[a];
    }
  }

  /** The number of entries of `found` for `imei`. */
  function Occurrences(found: seq<Found>, imei: string): nat
  {
    if found == [] then 0
    else Occurrences(found[..|found| - 1], imei) + if found[|found| - 1].imei == imei then 1 else 0
  }

  /** An entry's number occurs more than once exactly when another entry has it too. */
  lemma {:induction false} OccurrencesMany(found: seq<Found>, i: nat)
    requires i < |found|
    ensures Occurrences(found, found[i].imei) > 1 <==> exists j :: 0 <= j < |found| && j != i && found[j].imei == found[i].imei
  {
    var x := found[i].imei;
    OccurrencesAtLeast(found, x, i);
    if Occurrences(found, x) > 1 {
      var j := OtherOccurrence(found, x, i);
    } else {
      forall j | 0 <= j < |found| && j != i ensures found[j].imei != x {
        if found[j].imei == x {
          OccurrencesTwo(found, x, i, j);
        }
      }
    }
  }

  lemma {:induction false} OccurrencesAtLeast(found: seq<Found>, x: string, i: nat)
    requires i < |found| && found[i].imei == x
    ensures Occurrences(found, x) >= 1
  {
    if i < |found| - 1 {
      OccurrencesAtLeast(found[..|found| - 1], x, i);
    }
  }

  lemma {:induction false} OccurrencesTwo(found: seq<Found>, x: string, i: nat, j: nat)
    requires i < |found| && j < |found| && i != j && found[i].imei == x && found[j].imei == x
    ensures Occurrences(found, x) >= 2
  {
    var n := |found| - 1;
    if i == n {
      OccurrencesAtLeast(found[..n], x, j);
    } else if j == n {
      OccurrencesAtLeast(found[..n], x, i);
    } else {
      OccurrencesTwo(found[..n], x, i, j);
    }
  }

  lemma {:induction false} OtherOccurrence(found: seq<Found>, x: string, i: nat) returns (j: nat)
    requires i < |found| && found[i].imei == x && Occurrences(found, x) > 1
    ensures j < |found| && j != i && found[j].imei == x
  {
    var n := |found| - 1;
    var init := found[..n];
    if found[n].imei == x && i != n {
      return n;
    }
    if i == n {
      assert Occurrences(init, x) >= 1;
      j := SomeOccurrence(init, x);
    } else {
      j := OtherOccurrence(init, x, i);
    }
  }

  lemma {:induction false} SomeOccurrence(found: seq<Found>, x: string) returns (j: nat)
    requires Occurrences(found, x) >= 1
    ensures j < |found| && found[j].imei == x
  {
    var n := |found| - 1;
    if found[n].imei == x {
      return n;
    }
    j := SomeOccurrence(found[..n], x);
  }

  /**
   * The duplicate flags: every entry keeps its number, invoice and item
   * name, and is marked exactly when another entry has the same number.
   */
  function MarkDuplicates(found: seq<Found>): (r: seq<Found>)
    ensures |r| == |found|
    ensures forall i :: 0 <= i < |r| ==> r[i].(isDuplicate := false) == found[i].(isDuplicate := false)
    ensures forall i :: 0 <= i < |r| ==> (r[i].isDuplicate <==> exists j :: 0 <= j < |found| && j != i && found[j].imei == found[i].imei)
  {
    var r := seq(|found|, i requires 0 <= i < |found| => found[i].(isDuplicate := Occurrences(found, found[i].imei) > 1));
    assert forall i :: 0 <= i < |r| ==> (r[i].isDuplicate <==> exists j :: 0 <= j < |found| && j != i && found[j].imei == found[i].imei) by {
      forall i | 0 <= i < |r| ensures r[i].isDuplicate <==> exists j :: 0 <= j < |found| && j != i && found[j].imei == found[i].imei {
        OccurrencesMany(found, i);
      }
    }
    r
  }

  /** The runs found in the search text, each normalised. */
  function NormalizeAll(runs: seq<ImeiMatch>): (r: seq<Imei>)
    ensures |r| == |runs|
    ensures forall i :: 0 <= i < |r| ==> r[i] == Normalize(runs[i])
  {
    seq(|runs|, i requires 0 <= i < |runs| => Normalize(runs[i]))
  }

  /** What the mass search leaves in `massiveSearchResults`. */
  datatype SearchResults = SearchResults(totalSearched: nat, found: seq<Found>, notFound: seq<string>, matchingInvoices: seq<Invoice>)

  /** The whole mass search over the extracted runs, as the page computes it. */
  function MassSearch(runs: seq<ImeiMatch>, invs: seq<Invoice>, kind: InvoiceType): SearchResults
  {
    SearchResultsOf(runs, invs, DecisionFor(kind))
  }

  /** The mass search for a given decision. */
  function SearchResultsOf(runs: seq<ImeiMatch>, invs: seq<Invoice>, hit: Decision): SearchResults
  {
    var us := UniqueImeis(NormalizeAll(runs));
    SearchResults(|us|, MarkDuplicates(SearchFound(us, invs, hit)), NotFound(us, invs, hit), Matching(us, invs, hit))
  }

  /** A normalised number's first run in the text: the one the de-duplication keeps. */
  predicate IsFirstRun(all: seq<Imei>, a: int)
  {
    0 <= a < |all| && FindIndex(all, CleanOf, all[a].clean) == a
  }

  /** The IMEIs kept are exactly the first runs of their numbers. */
  lemma KeptIsFirstRun(all: seq<Imei>, a: int) returns (b: int)
    requires IsFirstRun(all, a)
    ensures 0 <= b < |UniqueImeis(all)| && UniqueImeis(all)[b] == all[a]
  {
    var us := UniqueImeis(all);
    UniqueImeisCover(all);
    UniqueImeisFirst(all);
    assert all[a].clean in CleanSet(all);
    b :| 0 <= b < |us| && us[b].clean == all[a].clean;
  }

  /** Distinct numbers: the set of numbers is as large as the sequence. */
  lemma {:induction false} DistinctCleansCount(u: seq<Imei>)
    requires DistinctCleans(u)
    ensures |CleanSet(u)| == |u|
  {
    if u != [] {
      var init := u[..|u| - 1];
      assert u == init + [u[|u| - 1]];
      DistinctCleansCount(init);
      CleanSetAppend(init, u[|u| - 1]);
      forall i | 0 <= i < |init| ensures init[i].clean != u[|u| - 1].clean {
        assert init[i] == u[i];
      }
    }
  }

  /**
   * What the mass search reports: as many searched numbers as distinct
   * normalised numbers in the text; a number is not found exactly when it
   * is in the text and no invoice holds its first run; the matching
   * invoices have distinct ids, each holds some run, and every invoice
   * holding a number's first run is among them; the entries found are, up
   * to their duplicate flags, one per first run and invoice holding it.
   */
  lemma MassSearchReports(runs: seq<ImeiMatch>, invs: seq<Invoice>, hit: Decision)
    ensures var r := SearchResultsOf(runs, invs, hit);
            var all := NormalizeAll(runs);
            r.totalSearched == |CleanSet(all)|
            && (forall x :: x in r.notFound <==>
                  (x in CleanSet(all) && forall j :: 0 <= j < |invs| ==> hit(invs[j], all[FindIndex(all, CleanOf, x)]).Miss?))
            && DistinctIds(r.matchingInvoices)
            && (forall x :: x in r.matchingInvoices ==> x in invs && exists a :: 0 <= a < |all| && hit(x, all[a]).HitWith?)
            && (forall a, j :: IsFirstRun(all, a) && 0 <= j < |invs| && hit(invs[j], all[a]).HitWith? ==>
                  HasId(r.matchingInvoices, invs[j].id))
            && (forall e :: e in r.found ==>
                  exists a, j :: IsFirstRun(all, a) && 0 <= j < |invs| && hit(invs[j], all[a]).HitWith?
                                 && e.(isDuplicate := false) == FoundOf(all[a], invs[j], hit(invs[j], all[a])))
            && (forall a, j :: IsFirstRun(all, a) && 0 <= j < |invs| && hit(invs[j], all[a]).HitWith? ==>
                  exists e :: e in r.found && e.(isDuplicate := false) == FoundOf(all[a], invs[j], hit(invs[j], all[a])))
  {
    var all := NormalizeAll(runs);
    MassFoundSound(all, invs, hit);
    MassFoundCovers(all, invs, hit);
    var us := UniqueImeis(all);
    UniqueImeisCover(all);
    DistinctCleansCount(us);
    MatchingDistinct(us, invs, hit);
    forall x ensures x in NotFound(us, invs, hit) <==>
                  (x in CleanSet(all) && forall j :: 0 <= j < |invs| ==> hit(invs[j], all[FindIndex(all, CleanOf, x)]).Miss?)
    {
      MassNotFound(all, invs, hit, x);
    }
    MassMatchingSound(all, invs, hit);
    MassMatchingCovers(all, invs, hit);
  }

  /** A number is reported not found exactly when it is in the text and no invoice holds its first run. */
  lemma MassNotFound(all: seq<Imei>, invs: seq<Invoice>, hit: Decision, x: string)
    ensures x in NotFound(UniqueImeis(all), invs, hit) <==>
            (x in CleanSet(all) && forall j :: 0 <= j < |invs| ==> hit(invs[j], all[FindIndex(all, CleanOf, x)]).Miss?)
  {
    var us := UniqueImeis(all);
    UniqueImeisCover(all);
    UniqueImeisFirst(all);
    NotFoundIff(us, invs, hit, x);
    if x in CleanSet(all) {
      assert x in CleanSet(us);
      var b :| 0 <= b < |us| && us[b].clean == x;
      assert all[FindIndex(all, CleanOf, x)] == us[b];
      forall b' | 0 <= b' < |us| && us[b'].clean == x ensures b' == b {}
    } else {
      forall a | 0 <= a < |us| ensures us[a].clean != x {
        assert us[a].clean in CleanSet(us);
      }
    }
  }

  /** Every matching invoice is a loaded invoice holding some run of the text. */
  lemma MassMatchingSound(all: seq<Imei>, invs: seq<Invoice>, hit: Decision)
    ensures forall x :: x in Matching(UniqueImeis(all), invs, hit) ==>
              x in invs && exists a :: 0 <= a < |all| && hit(x, all[a]).HitWith?
  {
    var us := UniqueImeis(all);
    UniqueImeisFirst(all);
    MatchingSound(us, invs, hit);
    forall x | x in Matching(us, invs, hit) ensures exists a :: 0 <= a < |all| && hit(x, all[a]).HitWith? {
      var b :| 0 <= b < |us| && hit(x, us[b]).HitWith?;
      var f := FindIndex(all, CleanOf, us[b].clean);
      assert all[f] == us[b];
    }
  }

  /** Every invoice holding the first run of a number is among the matching invoices. */
  lemma MassMatchingCovers(all: seq<Imei>, invs: seq<Invoice>, hit: Decision)
    ensures forall a, j :: IsFirstRun(all, a) && 0 <= j < |invs| && hit(invs[j], all[a]).HitWith? ==>
              HasId(Matching(UniqueImeis(all), invs, hit), invs[j].id)
  {
    var us := UniqueImeis(all);
    MatchingCovers(us, invs, hit);
    forall a, j | IsFirstRun(all, a) && 0 <= j < |invs| && hit(invs[j], all[a]).HitWith?
      ensures HasId(Matching(us, invs, hit), invs[j].id)
    {
      var b := KeptIsFirstRun(all, a);
    }
  }

  /**
   * Every reported entry, its duplicate flag aside, is the entry of the
   * first run of some number and an invoice holding that run.
   */
  lemma MassFoundSound(all: seq<Imei>, invs: seq<Invoice>, hit: Decision)
    ensures forall e :: e in MarkDuplicates(SearchFound(UniqueImeis(all), invs, hit)) ==>
              exists a, j :: IsFirstRun(all, a) && 0 <= j < |invs| && hit(invs[j], all[a]).HitWith?
                             && e.(isDuplicate := false) == FoundOf(all[a], invs[j], hit(invs[j], all[a]))
  {
    var us := UniqueImeis(all);
    var s := SearchFound(us, invs, hit);
    var found := MarkDuplicates(s);
    UniqueImeisFirst(all);
    forall e | e in found
      ensures exists a, j :: IsFirstRun(all, a) && 0 <= j < |invs| && hit(invs[j], all[a]).HitWith?
                             && e.(isDuplicate := false) == FoundOf(all[a], invs[j], hit(invs[j], all[a]))
    {
      var i :| 0 <= i < |found| && found[i] == e;
      SearchFoundMembers(us, invs, hit, s[i]);
      var b :| 0 <= b < |us| && s[i] in FoundIn(us[b], invs, hit);
      FoundInMembers(us[b], invs, hit, s[i]);
      var j :| 0 <= j < |invs| && hit(invs[j], us[b]).HitWith? && s[i] == FoundOf(us[b], invs[j], hit(invs[j], us[b]));
      var a := FindIndex(all, CleanOf, us[b].clean);
      assert all[a] == us[b];
      assert IsFirstRun(all, a);
      assert e.(isDuplicate := false) == s[i];
    }
  }

  /** Every invoice holding the first run of a number has its entry among the reported ones. */
  lemma MassFoundCovers(all: seq<Imei>, invs: seq<Invoice>, hit: Decision)
    ensures forall a, j :: IsFirstRun(all, a) && 0 <= j < |invs| && hit(invs[j], all[a]).HitWith? ==>
              exists e :: e in MarkDuplicates(SearchFound(UniqueImeis(all), invs, hit))
                          && e.(isDuplicate := false) == FoundOf(all[a], invs[j], hit(invs[j], all[a]))
  {
    var us := UniqueImeis(all);
    var s := SearchFound(us, invs, hit);
    var found := MarkDuplicates(s);
    forall a, j | IsFirstRun(all, a) && 0 <= j < |invs| && hit(invs[j], all[a]).HitWith?
      ensures exists e :: e in found && e.(isDuplicate := false) == FoundOf(all[a], invs[j], hit(invs[j], all[a]))
    {
      var b := KeptIsFirstRun(all, a);
      var x := FoundOf(us[b], invs[j], hit(invs[j], us[b]));
      FoundInMembers(us[b], invs, hit, x);
      SearchFoundMembers(us, invs, hit, x);
      var i :| 0 <= i < |s| && s[i] == x;
      assert found[i].(isDuplicate := false) == x;
    }
  }
}
