/**
 * The PostgreSQL cache of the database-backed services: the `invoices` and
 * `bills` tables keyed by (id, store), how a batch of upstream records is
 * written to them, the `ORDER BY ... DESC` reads, and the `sync_status` row
 * each (store, type) pair has.
 */
module CacheRepository {
  import opened Wrappers
  import opened Text
  import opened Upstream
  import opened Seqs
  import opened Sorting

  /** The composite primary key `(id, store)`. */
  datatype RowKey = RowKey(id: int, store: string)

  /** A cached row: the record as sent (`data`) and its nullable `datetime` and `date` columns. */
  datatype Row = Row(data: Doc, datetime: Option<string>, date: Option<string>)

  type Table = map<RowKey, Row>

  /** Invoices keep the record's `datetime`; bills always store `datetime = null`. */
  datatype RowKind = InvoiceRows | BillRows

  /** `x ? new Date(x) : null`: a column is null when the upstream text is absent or empty. */
  function Column(s: Option<string>): (c: Option<string>)
    ensures c.Some? <==> Truthy(s)
    ensures c.Some? ==> c == s
  {
    if Truthy(s) then s else None
  }

  /** The entity built for an upstream record. */
  function RowOf(kind: RowKind, d: Doc): Row
  {
    Row(d, if kind.InvoiceRows? then Column(d.datetime) else None, Column(d.date))
  }

  /** Every row is stored under its own record's id and is the entity built for its record. */
  ghost predicate WellFormed(t: Table, kind: RowKind)
  {
    forall k :: k in t ==> t[k].data.id == k.id && t[k] == RowOf(kind, t[k].data)
  }

  /**
   * Writing `docs` for `store` in order: each record's row replaces the one
   * with the same key or is inserted. Ids in `refused` are those whose write
   * the database rejects; the per-record `try/catch` skips them.
   */
  function Upsert(t: Table, store: string, docs: seq<Doc>, refused: set<int>, kind: RowKind): Table
    decreases |docs|
  {
    if docs == [] then t
    else
      var d := docs[0];
      var t' := if d.id in refused then t else t[RowKey(d.id, store) := RowOf(kind, d)];
      Upsert(t', store, docs[1..], refused, kind)
  }

  lemma {:induction false} UpsertAppend(t: Table, store: string, a: seq<Doc>, b: seq<Doc>, refused: set<int>, kind: RowKind)
    decreases |a|
    ensures Upsert(t, store, a + b, refused, kind) == Upsert(Upsert(t, store, a, refused, kind), store, b, refused, kind)
  {
    if a == [] {
      assert a + b == b;
    } else {
      assert (a + b)[0] == a[0] && (a + b)[1..] == a[1..] + b;
      var t' := if a[0].id in refused then t else t[RowKey(a[0].id, store) := RowOf(kind, a[0])];
      UpsertAppend(t', store, a[1..], b, refused, kind);
    }
  }

  /** The last record of `docs` with id `id` whose write is accepted: the one whose row survives. */
  function LastAccepted(docs: seq<Doc>, id: int, refused: set<int>): (r: Option<Doc>)
    ensures r.Some? ==> r.value in docs && r.value.id == id && id !in refused
    ensures r.None? ==> id in refused || forall d :: d in docs ==> d.id != id
  {
    if docs == [] then None
    else if docs[|docs| - 1].id == id && id !in refused then Some(docs[|docs| - 1])
    else
      var r := LastAccepted(docs[..|docs| - 1], id, refused);
      assert forall d :: d in docs ==> d in docs[..|docs| - 1] || d == docs[|docs| - 1];
      r
  }

  /**
   * What the table holds after a write, key by key: a key of `store` whose id
   * was accepted holds the last such record's row; every other key is as before.
   */
  lemma {:induction false} UpsertAt(t: Table, store: string, docs: seq<Doc>, refused: set<int>, kind: RowKind, k: RowKey)
    decreases |docs|
    ensures var r := Upsert(t, store, docs, refused, kind);
            if k.store == store && LastAccepted(docs, k.id, refused).Some?
            then k in r && r[k] == RowOf(kind, LastAccepted(docs, k.id, refused).value)
            else (k in r <==> k in t) && (k in t ==> r[k] == t[k])
  {
    if docs != [] {
      var init := docs[..|docs| - 1];
      var d := docs[|docs| - 1];
      assert docs == init + [d];
      UpsertAppend(t, store, init, [d], refused, kind);
      UpsertAt(t, store, init, refused, kind, k);
      var mid := Upsert(t, store, init, refused, kind);
      assert Upsert(mid, store, [d], refused, kind)
          == (if d.id in refused then mid else mid[RowKey(d.id, store) := RowOf(kind, d)]);
    }
  }

  /** Records of other stores are never touched by a write for `store`. */
  lemma UpsertOtherStores(t: Table, store: string, docs: seq<Doc>, refused: set<int>, kind: RowKind)
    ensures var r := Upsert(t, store, docs, refused, kind);
            forall k: RowKey :: k.store != store ==> (k in r <==> k in t) && (k in t ==> r[k] == t[k])
  {
    forall k: RowKey | k.store != store {
      UpsertAt(t, store, docs, refused, kind, k);
    }
  }

  /** Writing the same records twice leaves the table as writing them once. */
  lemma UpsertIdempotent(t: Table, store: string, docs: seq<Doc>, refused: set<int>, kind: RowKind)
    ensures Upsert(Upsert(t, store, docs, refused, kind), store, docs, refused, kind)
         == Upsert(t, store, docs, refused, kind)
  {
    var once := Upsert(t, store, docs, refused, kind);
    var twice := Upsert(once, store, docs, refused, kind);
    forall k ensures (k in twice <==> k in once) && (k in once ==> twice[k] == once[k]) {
      UpsertAt(t, store, docs, refused, kind, k);
      UpsertAt(once, store, docs, refused, kind, k);
    }
  }

  /** A write keeps every row stored under its own record's id, built from its record. */
  lemma UpsertWellFormed(t: Table, store: string, docs: seq<Doc>, refused: set<int>, kind: RowKind)
    requires WellFormed(t, kind)
    ensures WellFormed(Upsert(t, store, docs, refused, kind), kind)
  {
    forall k | k in Upsert(t, store, docs, refused, kind) {
      UpsertAt(t, store, docs, refused, kind, k);
    }
  }

  /** The keys of the rows of `store`. */
  function StoreKeys(t: Table, store: string): set<RowKey>
  {
    set k | k in t && k.store == store
  }

  /** `repository.count({ where: { store } })`. */
  function StoreCount(t: Table, store: string): nat
  {
    |StoreKeys(t, store)|
  }

  /** The ids cached for `store`. */
  function StoreIds(t: Table, store: string): set<int>
  {
    set k | k in t && k.store == store :: k.id
  }

  /** The ids of `docs` whose write is accepted. */
  function AcceptedIds(docs: seq<Doc>, refused: set<int>): set<int>
  {
    set d | d in docs && d.id !in refused :: d.id
  }

  /** The keys the accepted records of `docs` are written under. */
  function AcceptedKeys(docs: seq<Doc>, refused: set<int>, store: string): set<RowKey>
  {
    set d | d in docs && d.id !in refused :: RowKey(d.id, store)
  }

  lemma {:induction false} AcceptedKeysCount(docs: seq<Doc>, refused: set<int>, store: string)
    decreases |docs|
    ensures |AcceptedKeys(docs, refused, store)| == |AcceptedIds(docs, refused)|
  {
    if docs != [] {
      var init := docs[..|docs| - 1];
      var d := docs[|docs| - 1];
      assert docs == init + [d];
      AcceptedKeysCount(init, refused, store);
      if d.id in refused {
        assert AcceptedKeys(docs, refused, store) == AcceptedKeys(init, refused, store);
        assert AcceptedIds(docs, refused) == AcceptedIds(init, refused);
      } else {
        assert AcceptedKeys(docs, refused, store) == AcceptedKeys(init, refused, store) + {RowKey(d.id, store)};
        assert AcceptedIds(docs, refused) == AcceptedIds(init, refused) + {d.id};
        var keys := AcceptedKeys(init, refused, store);
        var ids := AcceptedIds(init, refused);
        assert RowKey(d.id, store) in keys <==> d.id in ids;
        if d.id in ids {
          assert keys + {RowKey(d.id, store)} == keys;
          assert ids + {d.id} == ids;
        } else {
          assert |keys + {RowKey(d.id, store)}| == |keys| + 1;
          assert |ids + {d.id}| == |ids| + 1;
        }
      }
    }
  }

  /** After a write the store holds at least one row per distinct accepted id. */
  lemma UpsertCountAtLeast(t: Table, store: string, docs: seq<Doc>, refused: set<int>, kind: RowKind)
    ensures StoreCount(Upsert(t, store, docs, refused, kind), store) >= |AcceptedIds(docs, refused)|
  {
    var r := Upsert(t, store, docs, refused, kind);
    var keys := AcceptedKeys(docs, refused, store);
    forall k | k in keys ensures k in StoreKeys(r, store) {
      UpsertAt(t, store, docs, refused, kind, k);
    }
    AcceptedKeysCount(docs, refused, store);
    assert StoreKeys(r, store) == keys + (StoreKeys(r, store) - keys);
  }

  /** The last accepted record with an id exists exactly when some record with that id is accepted. */
  lemma LastAcceptedExists(docs: seq<Doc>, id: int, refused: set<int>)
    ensures LastAccepted(docs, id, refused).Some? <==> id in AcceptedIds(docs, refused)
  {
    if id in AcceptedIds(docs, refused) {
      var d :| d in docs && d.id !in refused && d.id == id;
    }
  }

  /**
   * Writing into a store that has no rows leaves it exactly one row per
   * distinct accepted id.
   */
  lemma UpsertIntoEmptyStore(t: Table, store: string, docs: seq<Doc>, refused: set<int>, kind: RowKind)
    requires StoreKeys(t, store) == {}
    ensures StoreKeys(Upsert(t, store, docs, refused, kind), store) == AcceptedKeys(docs, refused, store)
    ensures StoreCount(Upsert(t, store, docs, refused, kind), store) == |AcceptedIds(docs, refused)|
  {
    var r := Upsert(t, store, docs, refused, kind);
    forall k: RowKey ensures k in StoreKeys(r, store) <==> k in AcceptedKeys(docs, refused, store) {
      UpsertAt(t, store, docs, refused, kind, k);
      LastAcceptedExists(docs, k.id, refused);
      if k.store == store {
        assert k !in StoreKeys(t, store);
      }
      if k in AcceptedKeys(docs, refused, store) {
        var d :| d in docs && d.id !in refused && RowKey(d.id, store) == k;
        assert k.id in AcceptedIds(docs, refused);
      }
    }
    AcceptedKeysCount(docs, refused, store);
  }

  /** `repository.delete({ store })`: the table without the rows of `store`. */
  function DeleteStore(t: Table, store: string): (r: Table)
    ensures StoreKeys(r, store) == {}
    ensures forall k :: k in r <==> k in t && k.store != store
    ensures forall k :: k in r ==> r[k] == t[k]
  {
    map k | k in t && k.store != store :: t[k]
  }

  lemma DeleteStoreWellFormed(t: Table, store: string, kind: RowKind)
    requires WellFormed(t, kind)
    ensures WellFormed(DeleteStore(t, store), kind)
  {
  }

  /** The rows of `store`. */
  ghost function StoreRows(t: Table, store: string): set<Row>
  {
    set k | k in t && k.store == store :: t[k]
  }

  /** `a DESC` on a nullable text column, PostgreSQL's default NULLS FIRST: -1 puts `a` first, 1 puts `b` first. */
  function CompareDesc(a: Option<string>, b: Option<string>): (c: int)
    ensures c == 0 <==> a == b
    ensures -1 <= c <= 1
  {
    match (a, b)
    case (None, None) => 0
    case (None, Some(_)) => -1
    case (Some(_), None) => 1
    case (Some(x), Some(y)) => if x == y then 0 else if LexLess(y, x) then -1 else 1
  }

  /** `CompareDesc` is antisymmetric and transitive: a total order on the column values. */
  lemma CompareDescOrder(a: Option<string>, b: Option<string>, c: Option<string>)
    ensures CompareDesc(a, b) == -CompareDesc(b, a)
    ensures CompareDesc(a, b) < 0 && CompareDesc(b, c) < 0 ==> CompareDesc(a, c) < 0
  {
    if a.Some? && b.Some? && a != b {
      LexLessTrichotomy(a.value, b.value);
      if LexLess(a.value, b.value) && LexLess(b.value, a.value) {
        LexLessTransitive(a.value, b.value, a.value);
        LexLessIrreflexive(a.value);
      }
    }
    if a.Some? && b.Some? && c.Some? && CompareDesc(a, b) < 0 && CompareDesc(b, c) < 0 {
      LexLessTransitive(c.value, b.value, a.value);
      LexLessIrreflexive(a.value);
    }
  }

  /**
   * `ORDER BY datetime DESC, date DESC, id DESC` for invoices and
   * `ORDER BY date DESC, id DESC` for bills: `a` may come before `b`.
   */
  predicate RowBefore(kind: RowKind, a: Row, b: Row)
  {
    var byDatetime := if kind.InvoiceRows? then CompareDesc(a.datetime, b.datetime) else 0;
    var byDate := CompareDesc(a.date, b.date);
    byDatetime < 0 || (byDatetime == 0 && (byDate < 0 || (byDate == 0 && a.data.id >= b.data.id)))
  }

  lemma RowBeforeIsTotalPreorder(kind: RowKind)
    ensures IsTotalPreorder((a: Row, b: Row) => RowBefore(kind, a, b))
  {
    var le := (a: Row, b: Row) => RowBefore(kind, a, b);
    forall a: Row, b: Row ensures le(a, b) || le(b, a) {
      CompareDescOrder(a.datetime, b.datetime, a.datetime);
      CompareDescOrder(a.date, b.date, a.date);
    }
    forall a: Row, b: Row, c: Row | le(a, b) && le(b, c) ensures le(a, c) {
      CompareDescOrder(a.datetime, b.datetime, c.datetime);
      CompareDescOrder(a.date, b.date, c.date);
    }
  }

  /**
   * `repository.find({ where: { store }, order: ... })`: the rows of `store`,
   * each once, in the order the query asks for.
   */
  method ListStore(t: Table, store: string, kind: RowKind) returns (rows: seq<Row>)
    ensures |rows| == StoreCount(t, store)
    ensures forall r :: r in rows <==> r in StoreRows(t, store)
    ensures SortedBy(rows, (a: Row, b: Row) => RowBefore(kind, a, b))
  {
    var found := GatherStore(t, store);
    RowBeforeIsTotalPreorder(kind);
    rows := SortBy(found, (a: Row, b: Row) => RowBefore(kind, a, b));
    SortBySorted(found, (a: Row, b: Row) => RowBefore(kind, a, b));
    assert forall r :: r in rows <==> r in multiset(found);
  }

  /** The rows of `store`, one per key, in no particular order. */
  method GatherStore(t: Table, store: string) returns (found: seq<Row>)
    ensures |found| == StoreCount(t, store)
    ensures forall r :: r in found <==> r in StoreRows(t, store)
  {
    var keys := StoreKeys(t, store);
    found := [];
    ghost var seen: set<RowKey> := {};
    while keys != {}
      invariant keys + seen == StoreKeys(t, store) && keys !! seen
      invariant |found| == |seen|
      invariant forall r :: r in found <==> r in RowsAt(t, seen)
      decreases |keys|
    {
      ghost var g := Pick(keys);
      var k :| k in keys;
      assert |seen + {k}| == |seen| + 1;
      RowsAtAdd(t, seen, k);
      found := found + [t[k]];
      seen := seen + {k};
      keys := keys - {k};
    }
    RowsAtStore(t, store);
  }

  /** The rows stored under the keys of `ks`. */
  ghost function RowsAt(t: Table, ks: set<RowKey>): set<Row>
  {
    set k | k in ks && k in t :: t[k]
  }

  lemma RowsAtStore(t: Table, store: string)
    ensures RowsAt(t, StoreKeys(t, store)) == StoreRows(t, store)
  {
  }

  lemma RowsAtAdd(t: Table, ks: set<RowKey>, k: RowKey)
    requires k in t
    ensures RowsAt(t, ks + {k}) == RowsAt(t, ks) + {t[k]}
  {
  }

  /** The records cached for `store`. */
  ghost function StoreDocs(t: Table, store: string): set<Doc>
  {
    set k | k in t && k.store == store :: t[k].data
  }

  /** The read order on the rows built for two records. */
  predicate DocBefore(kind: RowKind, a: Doc, b: Doc)
  {
    RowBefore(kind, RowOf(kind, a), RowOf(kind, b))
  }

  /** `d` is the record of `store` that `findOne({ where: { store }, order })` returns. */
  ghost predicate Newest(t: Table, store: string, kind: RowKind, d: Doc)
  {
    d in StoreDocs(t, store) && forall e :: e in StoreDocs(t, store) ==> DocBefore(kind, d, e)
  }

  /**
   * `find({ where: { store }, order })` followed by `.map(row => row.data)`:
   * the records of `store`, each once, newest first.
   */
  method FindStore(t: Table, store: string, kind: RowKind) returns (docs: seq<Doc>)
    requires WellFormed(t, kind)
    ensures |docs| == StoreCount(t, store)
    ensures forall d :: d in docs <==> d in StoreDocs(t, store)
    ensures SortedBy(docs, (a: Doc, b: Doc) => DocBefore(kind, a, b))
    ensures docs != [] ==> Newest(t, store, kind, docs[0])
  {
    var rows := ListStore(t, store, kind);
    docs := seq(|rows|, i requires 0 <= i < |rows| => rows[i].data);
    forall i | 0 <= i < |rows| ensures rows[i] == RowOf(kind, docs[i]) {
      assert rows[i] in StoreRows(t, store);
    }
    forall d | d in StoreDocs(t, store) ensures d in docs {
      var k :| k in t && k.store == store && t[k].data == d;
      assert t[k] in StoreRows(t, store);
      var i :| 0 <= i < |rows| && rows[i] == t[k];
      assert docs[i] == d;
    }
    forall d | d in docs ensures d in StoreDocs(t, store) {
      var i :| 0 <= i < |docs| && docs[i] == d;
      assert rows[i] in StoreRows(t, store);
      var k :| k in t && k.store == store && t[k] == rows[i];
    }
    if docs != [] {
      forall e | e in StoreDocs(t, store) ensures DocBefore(kind, docs[0], e) {
        var j :| 0 <= j < |docs| && docs[j] == e;
        if j > 0 {
          assert RowBefore(kind, rows[0], rows[j]);
        }
      }
    }
  }

  /** The status row of one (store, type) pair. */
  datatype SyncStatus = SyncStatus(totalRecords: nat, isFullyLoaded: bool, isSyncing: bool,
                                   lastSyncDatetime: Option<string>)

  /** `create({ store, type, totalRecords: 0, isFullyLoaded: false, isSyncing: false })`. */
  const NewSyncStatus := SyncStatus(0, false, false, None)

  /** The status rows of one service (one `type`), by store. */
  type Statuses = map<string, SyncStatus>

  /** Saving a store's status row twice leaves the second. */
  lemma StatusRewritten(s: Statuses, store: string, a: SyncStatus, b: SyncStatus)
    ensures s[store := a][store := b] == s[store := b]
  {
  }

  /** `findOne({ where: { store, type } })`, or the row `getSyncStatus` would create. */
  function StatusOf(s: Statuses, store: string): (st: SyncStatus)
    ensures store !in s ==> st == NewSyncStatus
  {
    if store in s then s[store] else NewSyncStatus
  }
}
