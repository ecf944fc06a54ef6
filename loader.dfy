/** The two tables the importers fill and the bulk inserts that fill them.
    `cve_simple` has `cve_id` as its one unique key, so its
    `ON CONFLICT DO NOTHING` keeps the first row stored under an id.
    `vendors` has only its serial `id` as a unique key, so the same clause
    never fires there; instead its foreign key to `cve_simple` makes the
    whole insert fail when one pair names an id `cve_simple` lacks. */
module Loader {
  import opened Json
  import opened Corpus
  import CveSimple
  import Vendors

  /** A `cve_simple` row, under its `cve_id` (the serial `id` column is not
      kept). */
  datatype CveEntry = CveEntry(package: string, score: Json)

  /** A `vendors` row. */
  datatype VendorEntry = VendorEntry(id: nat, cveId: Json, vendorName: Json)

  function Entry(row: CveSimple.Row): CveEntry {
    CveEntry(row.package, row.score)
  }

  /** `INSERT INTO cve_simple ... VALUES <batch> ON CONFLICT DO NOTHING`:
      the rows in order, a row whose `cve_id` is already stored (before the
      statement or earlier in the batch) being skipped. */
  function InsertOrIgnore(table: map<Json, CveEntry>, batch: seq<CveSimple.Row>): map<Json, CveEntry>
    decreases |batch|
  {
    if batch == [] then table
    else
      var row := batch[0];
      InsertOrIgnore(if row.cveId in table then table else table[row.cveId := Entry(row)], batch[1..])
  }

  function BatchIds(batch: seq<CveSimple.Row>): set<Json> {
    set i | 0 <= i < |batch| :: batch[i].cveId
  }

  /** A stored row is never replaced. */
  lemma {:induction false} InsertKeepsStored(table: map<Json, CveEntry>, batch: seq<CveSimple.Row>)
    ensures forall k :: k in table ==> k in InsertOrIgnore(table, batch) && InsertOrIgnore(table, batch)[k] == table[k]
    decreases |batch|
  {
    if batch != [] {
      var row := batch[0];
      InsertKeepsStored(if row.cveId in table then table else table[row.cveId := Entry(row)], batch[1..]);
    }
  }

  /** Afterwards the table holds the ids it held and those of the batch,
      and no other. */
  lemma {:induction false} InsertKeys(table: map<Json, CveEntry>, batch: seq<CveSimple.Row>)
    ensures InsertOrIgnore(table, batch).Keys == table.Keys + BatchIds(batch)
    decreases |batch|
  {
    if batch != [] {
      var row := batch[0];
      var next := if row.cveId in table then table else table[row.cveId := Entry(row)];
      InsertKeys(next, batch[1..]);
      assert BatchIds(batch) == {row.cveId} + BatchIds(batch[1..]) by {
        forall x | x in BatchIds(batch) ensures x in {row.cveId} + BatchIds(batch[1..]) {
          var i :| 0 <= i < |batch| && batch[i].cveId == x;
          if i > 0 {
            assert batch[1..][i - 1] == batch[i];
          }
        }
        forall x | x in BatchIds(batch[1..]) ensures x in BatchIds(batch) {
          var i :| 0 <= i < |batch[1..]| && batch[1..][i].cveId == x;
          assert batch[i + 1] == batch[1..][i];
        }
      }
    }
  }

  /** A new id gets the first row of the batch that carries it: later rows
      with the same id are dropped. */
  lemma {:induction false} InsertFirstWins(table: map<Json, CveEntry>, batch: seq<CveSimple.Row>, i: nat)
    requires i < |batch| && batch[i].cveId !in table
    requires forall j :: 0 <= j < i ==> batch[j].cveId != batch[i].cveId
    ensures batch[i].cveId in InsertOrIgnore(table, batch)
    ensures InsertOrIgnore(table, batch)[batch[i].cveId] == Entry(batch[i])
    decreases i
  {
    var row := batch[0];
    var next := if row.cveId in table then table else table[row.cveId := Entry(row)];
    if i == 0 {
      InsertKeepsStored(next, batch[1..]);
    } else {
      assert batch[1..][i - 1] == batch[i];
      assert forall j :: 0 <= j < i - 1 ==> batch[1..][j] == batch[j + 1];
      InsertFirstWins(next, batch[1..], i - 1);
    }
  }

  /** A batch whose ids are all stored changes nothing. */
  lemma {:induction false} InsertStoredIsNoop(table: map<Json, CveEntry>, batch: seq<CveSimple.Row>)
    requires forall i :: 0 <= i < |batch| ==> batch[i].cveId in table
    ensures InsertOrIgnore(table, batch) == table
    decreases |batch|
  {
    if batch != [] {
      assert forall i :: 0 <= i < |batch[1..]| ==> batch[1..][i] == batch[i + 1];
      InsertStoredIsNoop(table, batch[1..]);
    }
  }

  /** Re-inserting a batch leaves the table as the first insert left it. */
  lemma InsertIdempotent(table: map<Json, CveEntry>, batch: seq<CveSimple.Row>)
    ensures InsertOrIgnore(InsertOrIgnore(table, batch), batch) == InsertOrIgnore(table, batch)
  {
    InsertKeys(table, batch);
    forall i | 0 <= i < |batch| ensures batch[i].cveId in InsertOrIgnore(table, batch) {
      assert batch[i].cveId in BatchIds(batch);
    }
    InsertStoredIsNoop(InsertOrIgnore(table, batch), batch);
  }

  /** Every pair of the batch names a stored `cve_simple` id: the foreign
      key holds for the whole batch. */
  predicate References(cves: map<Json, CveEntry>, batch: seq<Vendors.Pair>) {
    forall k :: 0 <= k < |batch| ==> batch[k].cveId in cves
  }

  /** The rows `INSERT INTO vendors ... VALUES <batch>` adds, with serial
      ids drawn from `start` on. */
  function Numbered(start: nat, batch: seq<Vendors.Pair>): seq<VendorEntry>
  {
    seq(|batch|, k requires 0 <= k < |batch| => VendorEntry(start + k, batch[k].cveId, batch[k].vendor))
  }

  /** Ids below `bound`, strictly increasing. */
  ghost predicate IdsBelow(rows: seq<VendorEntry>, bound: nat) {
    && (forall k :: 0 <= k < |rows| ==> rows[k].id < bound)
    && (forall k, l :: 0 <= k < l < |rows| ==> rows[k].id < rows[l].id)
  }

  /** Appending a numbered batch keeps the serial ids unique and
      increasing, and the sequence moves past them. */
  lemma NumberedKeepsIds(rows: seq<VendorEntry>, start: nat, batch: seq<Vendors.Pair>)
    requires IdsBelow(rows, start)
    ensures IdsBelow(rows + Numbered(start, batch), start + |batch|)
  {
  }

  /** Importing the same batch twice stores every pair twice, under two
      different ids: `ON CONFLICT DO NOTHING` never fires on `vendors`. */
  lemma VendorReimportDuplicates(start: nat, batch: seq<Vendors.Pair>, k: nat)
    requires k < |batch|
    ensures var rows := Numbered(start, batch) + Numbered(start + |batch|, batch);
            && rows[k].cveId == rows[|batch| + k].cveId == batch[k].cveId
            && rows[k].vendorName == rows[|batch| + k].vendorName == batch[k].vendor
            && rows[k].id != rows[|batch| + k].id
  {
  }

  /** A record whose one affected item names a vendor and no product. */
  function VendorOnlyRecord(id: string, vendor: string): Json {
    JObj([Field("cveMetadata", JObj([Field("cveId", JStr(id))])),
          Field("containers", JObj([Field("cna", JObj([
            Field("affected", JArr([JObj([Field("vendor", JStr(vendor))])]))]))]))])
  }

  /** A record with a vendor but no product: `extract_cve_info` yields no
      row for it and `extract_vendors` yields one pair, so unless its id was
      stored from another file, the vendor import's foreign key fails. */
  lemma VendorWithoutProduct(id: string, vendor: string)
    requires id != [] && vendor != []
    ensures CveSimple.CveRows(VendorOnlyRecord(id, vendor)) == Ok([])
    ensures Vendors.VendorSet(VendorOnlyRecord(id, vendor)) == Ok({JStr(vendor)})
  {
    NoRowWithoutProduct(id, vendor);
    OneVendorWithoutProduct(id, vendor);
  }

  lemma NoRowWithoutProduct(id: string, vendor: string)
    requires id != [] && vendor != []
    ensures CveSimple.CveRows(VendorOnlyRecord(id, vendor)) == Ok([])
  {
    var item := JObj([Field("vendor", JStr(vendor))]);
    var cna := JObj([Field("affected", JArr([item]))]);
    var doc := VendorOnlyRecord(id, vendor);
    assert "containers"[1] != "cveMetadata"[1];
    assert Lookup(doc.fields, "cveMetadata") == Some(JObj([Field("cveId", JStr(id))]));
    assert CveSimple.CveIdOf(doc) == Ok(JStr(id));
    assert CveSimple.CnaOf(doc) == Ok(cna);
    DictGetIsLookup(cna, "metrics", EmptyObj);
    assert DictGet(cna, "metrics", EmptyObj) == Ok(EmptyObj);
    CveSimple.MissingMetricsScoreNone();
    DictGetIsLookup(item, "product", JNull);
    assert DictGet(item, "product", JNull) == Ok(JNull);
    DictGetIsLookup(cna, "affected", EmptyArr);
    assert DictGet(cna, "affected", EmptyArr) == Ok(JArr([item]));
    DictGetIsLookup(cna, "descriptions", EmptyArr);
    assert DictGet(cna, "descriptions", EmptyArr) == Ok(EmptyArr);
    CveSimple.FalsyProductNoRow(item, JStr(id), JNull, CveSimple.GuessPackage(EmptyArr));
    assert [item][1..] == [];
    var none: seq<CveSimple.Row> := [];
    assert none + none == none;
    assert CveSimple.BuildRows([item], JStr(id), JNull, CveSimple.GuessPackage(EmptyArr)) == Ok(none + none);
  }

  lemma OneVendorWithoutProduct(id: string, vendor: string)
    requires id != [] && vendor != []
    ensures Vendors.VendorSet(VendorOnlyRecord(id, vendor)) == Ok({JStr(vendor)})
  {
    var item := JObj([Field("vendor", JStr(vendor))]);
    var cna := JObj([Field("affected", JArr([item]))]);
    var doc := VendorOnlyRecord(id, vendor);
    assert "containers"[1] != "cveMetadata"[1];
    assert Lookup(doc.fields, "cveMetadata") == Some(JObj([Field("cveId", JStr(id))]));
    assert CveSimple.CveIdOf(doc) == Ok(JStr(id));
    assert CveSimple.CnaOf(doc) == Ok(cna);
    assert DictGet(item, "vendor", JNull) == Ok(JStr(vendor));
    assert [item][1..] == [];
    assert Vendors.VendorsOf([]) == Ok({});
    assert {JStr(vendor)} + {} == {JStr(vendor)};
    assert Vendors.VendorsOf([item]) == Ok({JStr(vendor)});
  }

  /** The database the two importers write to. */
  class ImportDb {
    var cveSimple: map<Json, CveEntry>
    var vendors: seq<VendorEntry>
    /** The next value of the `vendors.id` serial. */
    var nextVendorId: nat
    /** INSERT statements issued so far. */
    var statements: nat

    /** Serial ids are unique and below the sequence; every vendor row
        references a stored `cve_simple` row. */
    ghost predicate Valid()
      reads this
    {
      && IdsBelow(vendors, nextVendorId)
      && (forall k :: 0 <= k < |vendors| ==> vendors[k].cveId in cveSimple)
    }

    /** Freshly created tables. */
    constructor ()
      ensures Valid()
      ensures cveSimple == map[] && vendors == [] && nextVendorId == 1 && statements == 0
    {
      cveSimple := map[];
      vendors := [];
      nextVendorId := 1;
      statements := 0;
    }

    /** One `INSERT ... ON CONFLICT DO NOTHING` of a batch of records. */
    method InsertCves(batch: seq<CveSimple.Row>)
      requires Valid()
      modifies this
      ensures Valid()
      ensures cveSimple == InsertOrIgnore(old(cveSimple), batch)
      ensures vendors == old(vendors) && nextVendorId == old(nextVendorId)
      ensures statements == old(statements) + 1
    {
      var table := cveSimple;
      var i := 0;
      assert batch[i..] == batch;
      while i < |batch|
        invariant 0 <= i <= |batch|
        invariant InsertOrIgnore(table, batch[i..]) == InsertOrIgnore(old(cveSimple), batch)
        invariant forall k :: k in old(cveSimple) ==> k in table
      {
        assert batch[i..][1..] == batch[i + 1..];
        var row := batch[i];
        if row.cveId !in table {
          table := table[row.cveId := Entry(row)];
        }
        i := i + 1;
      }
      assert batch[i..] == [];
      cveSimple := table;
      statements := statements + 1;
    }

    /** One `INSERT INTO vendors ... ON CONFLICT DO NOTHING` of a batch of
        pairs, in one transaction: every row is added, or, when one breaks
        the foreign key, none is. */
    method InsertVendors(batch: seq<Vendors.Pair>) returns (ok: bool)
      requires Valid()
      modifies this
      ensures Valid()
      ensures ok <==> References(old(cveSimple), batch)
      ensures ok ==> vendors == old(vendors) + Numbered(old(nextVendorId), batch)
                     && nextVendorId == old(nextVendorId) + |batch|
      ensures !ok ==> vendors == old(vendors) && nextVendorId == old(nextVendorId)
      ensures cveSimple == old(cveSimple) && statements == old(statements) + 1
    {
      var staged: seq<VendorEntry> := [];
      var k := 0;
      while k < |batch|
        invariant 0 <= k <= |batch|
        invariant staged == Numbered(nextVendorId, batch[..k])
        invariant References(cveSimple, batch[..k])
      {
        if batch[k].cveId !in cveSimple {
          statements := statements + 1;
          return false;
        }
        staged := staged + [VendorEntry(nextVendorId + k, batch[k].cveId, batch[k].vendor)];
        k := k + 1;
      }
      assert batch[..k] == batch;
      NumberedKeepsIds(vendors, nextVendorId, batch);
      vendors := vendors + staged;
      nextVendorId := nextVendorId + |batch|;
      statements := statements + 1;
      ok := true;
    }

    /** `process_all_files` of the record importer: walk, then insert the
        batch unless it is empty. */
    method ImportCves(files: seq<SourceFile>)
      requires Valid()
      modifies this
      ensures Valid()
      ensures cveSimple == InsertOrIgnore(old(cveSimple), CveSimple.CveBatch(files))
      ensures vendors == old(vendors) && nextVendorId == old(nextVendorId)
      ensures statements == old(statements) + (if CveSimple.CveBatch(files) == [] then 0 else 1)
    {
      var toInsert := CveSimple.Accumulate(files);
      if toInsert != [] {
        InsertCves(toInsert);
      }
    }

    /** `process_all_files` of the vendor importer: walk, then insert the
        batch unless it is empty. `ok` is false when the insert raised. */
    method ImportVendors(files: seq<SourceFile>) returns (ok: bool, ghost batch: seq<Vendors.Pair>)
      requires Valid()
      modifies this
      ensures exists chunks :: |chunks| == |files| && batch == Vendors.Concat(chunks)
                               && forall i :: 0 <= i < |files| ==> Vendors.FileChunk(files[i], chunks[i])
      ensures ok <==> References(old(cveSimple), batch)
      ensures ok ==> vendors == old(vendors) + Numbered(old(nextVendorId), batch)
                     && nextVendorId == old(nextVendorId) + |batch|
      ensures !ok ==> vendors == old(vendors) && nextVendorId == old(nextVendorId)
      ensures cveSimple == old(cveSimple)
      ensures statements == old(statements) + (if batch == [] then 0 else 1)
      ensures Valid()
    {
      var toInsert, chunks := Vendors.AccumulateVendors(files);
      batch := toInsert;
      ok := true;
      if toInsert != [] {
        ok := InsertVendors(toInsert);
      } else {
        assert Numbered(nextVendorId, toInsert) == [];
      }
    }
  }

  /** Running the record importer twice over the same corpus leaves the
      table as one run left it. */
  lemma CveImportIdempotent(table: map<Json, CveEntry>, files: seq<SourceFile>)
    ensures InsertOrIgnore(InsertOrIgnore(table, CveSimple.CveBatch(files)), CveSimple.CveBatch(files))
            == InsertOrIgnore(table, CveSimple.CveBatch(files))
  {
    InsertIdempotent(table, CveSimple.CveBatch(files));
  }
}
