/** `extract_vendors` and the accumulation loop of the vendor importer's
    `process_all_files`: the distinct truthy `vendor` values of a record's
    `affected` items, each paired with the record's `cveId`. Python's set
    gives no iteration order, so the pairs of one record are specified up to
    order. */
module Vendors {
  import opened Json
  import opened Corpus
  import CveSimple

  /** One `(cve_id, vendor)` tuple of the batch. */
  datatype Pair = Pair(cveId: Json, vendor: Json)

  /** Python can put the value in a set: lists and dicts raise TypeError. */
  predicate Hashable(v: Json) {
    !v.JArr? && !v.JObj?
  }

  /** `item.get('vendor')` of a dict item. */
  function VendorField(item: Json): Json
    requires item.JObj?
  {
    Lookup(item.fields, "vendor").GetOr(JNull)
  }

  /** An item the loop gets through: a dict whose vendor, when truthy, can be
      added to the set. */
  predicate Admissible(item: Json) {
    item.JObj? && (Truthy(VendorField(item)) ==> Hashable(VendorField(item)))
  }

  /** The set the loop `for item in affected: vendor = item.get('vendor');
      if vendor: vendors.add(vendor)` builds, or `Err` when an item is not a
      dict or a truthy vendor is unhashable. */
  function VendorsOf(items: seq<Json>): Result<set<Json>>
  {
    if items == [] then Ok({})
    else
      var vendor :- DictGet(items[0], "vendor", JNull);
      if Truthy(vendor) && !Hashable(vendor) then Err
      else
        var rest :- VendorsOf(items[1..]);
        Ok(if Truthy(vendor) then {vendor} + rest else rest)
  }

  /** The loop raises exactly when some item is not admissible; otherwise
      the set holds exactly the truthy vendors of the items. */
  lemma {:induction false} VendorsOfMeaning(items: seq<Json>)
    ensures VendorsOf(items).Ok? <==> forall i :: 0 <= i < |items| ==> Admissible(items[i])
    ensures VendorsOf(items).Ok? ==> forall v :: v in VendorsOf(items).value <==>
              exists i :: 0 <= i < |items| && VendorField(items[i]) == v && Truthy(v)
  {
    if items != [] {
      VendorsOfMeaning(items[1..]);
      assert forall i :: 1 <= i < |items| ==> items[1..][i - 1] == items[i];
    }
  }

  /** The vendors `extract_vendors(doc)` pairs with the record's id: none
      when the id is falsy. `Err` when the document or one of the objects
      on the way to `affected` is not a dict, `affected` cannot be iterated,
      or an item is rejected. Unlike `extract_cve_info`, there is no dict
      guard: a document that is not a dict raises. */
  function VendorSet(doc: Json): Result<set<Json>>
  {
    var cveId :- CveSimple.CveIdOf(doc);
    var cna :- CveSimple.CnaOf(doc);
    var affected :- DictGet(cna, "affected", EmptyArr);
    var items :- Iter(affected);
    var vendors :- VendorsOf(items);
    Ok(if Truthy(cveId) then vendors else {})
  }

  /** `ps` lists `extract_vendors(doc)` in some order: one pair per vendor of
      the record, each with the record's id, no vendor twice. */
  ghost predicate ListsVendors(doc: Json, ps: seq<Pair>)
    requires VendorSet(doc).Ok?
  {
    && (forall k :: 0 <= k < |ps| ==> ps[k].cveId == CveSimple.CveIdOf(doc).value)
    && (forall k, l :: 0 <= k < l < |ps| ==> ps[k].vendor != ps[l].vendor)
    && (forall v :: v in VendorSet(doc).value <==> Pair(CveSimple.CveIdOf(doc).value, v) in ps)
  }

  /** `extract_vendors(json_data)`: the set-building loop, then the list
      comprehension over the set. */
  method ExtractVendors(doc: Json) returns (r: Result<seq<Pair>>)
    ensures r.Ok? <==> VendorSet(doc).Ok?
    ensures r.Ok? ==> ListsVendors(doc, r.value)
  {
    var cveId :- CveSimple.CveIdOf(doc);
    var cna :- CveSimple.CnaOf(doc);
    var affected :- DictGet(cna, "affected", EmptyArr);
    var items :- Iter(affected);
    var vendors := CollectVendors(items);
    if vendors.Err? {
      return Err;
    }
    var pairs := PairUp(cveId, vendors.value);
    r := Ok(pairs);
  }

  /** `[(cve_id, vendor) for vendor in vendors if cve_id]`. */
  method PairUp(cveId: Json, vendors: set<Json>) returns (pairs: seq<Pair>)
    ensures forall k :: 0 <= k < |pairs| ==> pairs[k].cveId == cveId
    ensures forall k, l :: 0 <= k < l < |pairs| ==> pairs[k].vendor != pairs[l].vendor
    ensures forall v :: v in (if Truthy(cveId) then vendors else {}) <==> Pair(cveId, v) in pairs
  {
    pairs := [];
    var rest := vendors;
    while rest != {}
      invariant rest <= vendors
      invariant forall k :: 0 <= k < |pairs| ==> pairs[k].cveId == cveId && pairs[k].vendor in vendors - rest
      invariant forall k, l :: 0 <= k < l < |pairs| ==> pairs[k].vendor != pairs[l].vendor
      invariant forall v :: v in vendors - rest ==> (Pair(cveId, v) in pairs <==> Truthy(cveId))
      invariant !Truthy(cveId) ==> pairs == []
      decreases |rest|
    {
      var v :| v in rest;
      if Truthy(cveId) {
        pairs := pairs + [Pair(cveId, v)];
      }
      rest := rest - {v};
    }
  }

  /** The set-building loop of `extract_vendors`. */
  method CollectVendors(items: seq<Json>) returns (r: Result<set<Json>>)
    ensures r == VendorsOf(items)
  {
    var vendors: set<Json> := {};
    var i := 0;
    assert items[i..] == items;
    assert VendorsOf(items).Ok? ==> vendors + VendorsOf(items).value == VendorsOf(items).value;
    while i < |items|
      invariant 0 <= i <= |items|
      invariant VendorsOf(items) == Joined(vendors, VendorsOf(items[i..]))
    {
      VendorsOfStep(items, i);
      var vendor :- DictGet(items[i], "vendor", JNull);
      if Truthy(vendor) {
        if !Hashable(vendor) {
          return Err;
        }
        if VendorsOf(items[i + 1..]).Ok? {
          var later := VendorsOf(items[i + 1..]).value;
          assert vendors + ({vendor} + later) == vendors + {vendor} + later;
        }
        vendors := vendors + {vendor};
      }
      i := i + 1;
    }
    assert items[i..] == [];
    r := Ok(vendors);
  }

  /** One turn of the loop: the item at `i` is rejected, or adds its vendor
      when truthy. */
  lemma VendorsOfStep(items: seq<Json>, i: nat)
    requires i < |items|
    ensures !items[i].JObj? ==> VendorsOf(items[i..]) == Err
    ensures items[i].JObj? && Truthy(VendorField(items[i])) && !Hashable(VendorField(items[i])) ==> VendorsOf(items[i..]) == Err
    ensures items[i].JObj? && Truthy(VendorField(items[i])) && Hashable(VendorField(items[i])) ==>
              VendorsOf(items[i..]) == Joined({VendorField(items[i])}, VendorsOf(items[i + 1..]))
    ensures items[i].JObj? && !Truthy(VendorField(items[i])) ==>
              VendorsOf(items[i..]) == VendorsOf(items[i + 1..])
  {
    assert items[i..][0] == items[i];
    assert items[i..][1..] == items[i + 1..];
  }

  /** `found` added to the set the rest of the loop builds, if it does not
      raise. */
  function Joined(found: set<Json>, r: Result<set<Json>>): Result<set<Json>>
  {
    if r.Ok? then Ok(found + r.value) else Err
  }

  /** A record's truthy vendors are exactly its pairs' vendors: an empty,
      null or false vendor is skipped, a repeated one is paired once, and a
      falsy id pairs nothing. */
  lemma VendorMembership(doc: Json, items: seq<Json>, v: Json)
    requires VendorSet(doc).Ok?
    requires CveSimple.CnaOf(doc).Ok? && DictGet(CveSimple.CnaOf(doc).value, "affected", EmptyArr).Ok?
    requires Iter(DictGet(CveSimple.CnaOf(doc).value, "affected", EmptyArr).value) == Ok(items)
    ensures v in VendorSet(doc).value <==>
              Truthy(CveSimple.CveIdOf(doc).value) && Truthy(v)
              && exists i :: 0 <= i < |items| && items[i].JObj? && VendorField(items[i]) == v
  {
    VendorsOfMeaning(items);
  }

  // ---------------------------------------------------------------------
  // The walk
  // ---------------------------------------------------------------------

  /** The file contributes its pairs: a `.json` file that opened, parsed
      and whose extraction did not raise. */
  predicate Contributes(f: SourceFile) {
    IsJsonName(f.name) && f.content.Some? && VendorSet(f.content.value).Ok?
  }

  /** `chunk` is what file `f` adds to the batch: its pairs in some order,
      or nothing when it does not contribute. */
  ghost predicate FileChunk(f: SourceFile, chunk: seq<Pair>) {
    if Contributes(f) then ListsVendors(f.content.value, chunk) else chunk == []
  }

  function Concat(chunks: seq<seq<Pair>>): (r: seq<Pair>)
  {
    if chunks == [] then [] else chunks[0] + Concat(chunks[1..])
  }

  /** The accumulation loop of the vendor importer's `process_all_files`:
      the batch is the concatenation, in visit order, of each file's pairs. */
  method AccumulateVendors(files: seq<SourceFile>) returns (toInsert: seq<Pair>, ghost chunks: seq<seq<Pair>>)
    ensures |chunks| == |files| && toInsert == Concat(chunks)
    ensures forall i :: 0 <= i < |files| ==> FileChunk(files[i], chunks[i])
  {
    toInsert := [];
    chunks := [];
    var i := 0;
    while i < |files|
      invariant 0 <= i <= |files|
      invariant |chunks| == i && toInsert == Concat(chunks)
      invariant forall j :: 0 <= j < i ==> FileChunk(files[j], chunks[j])
    {
      var rows := FilePairs(files[i]);
      ConcatSnoc(chunks, rows);
      ChunksSnoc(files, chunks, rows);
      toInsert := toInsert + rows;
      chunks := chunks + [rows];
      i := i + 1;
    }
  }

  /** The body of the walk for one file: extract when the name ends in
      `.json` and the file parsed; an exception contributes nothing. */
  method FilePairs(file: SourceFile) returns (rows: seq<Pair>)
    ensures FileChunk(file, rows)
  {
    rows := [];
    if IsJsonName(file.name) && file.content.Some? {
      var extracted := ExtractVendors(file.content.value);
      if extracted.Ok? {
        rows := extracted.value;
      }
    }
  }

  /** The chunks of the first files stay theirs when the next file's chunk
      is appended. */
  lemma ChunksSnoc(files: seq<SourceFile>, chunks: seq<seq<Pair>>, c: seq<Pair>)
    requires |chunks| < |files| && FileChunk(files[|chunks|], c)
    requires forall j :: 0 <= j < |chunks| ==> FileChunk(files[j], chunks[j])
    ensures forall j :: 0 <= j < |chunks| + 1 ==> FileChunk(files[j], (chunks + [c])[j])
  {
    forall j | 0 <= j < |chunks| + 1
      ensures FileChunk(files[j], (chunks + [c])[j])
    {
      if j < |chunks| {
        assert (chunks + [c])[j] == chunks[j];
      }
    }
  }

  lemma {:induction false} ConcatSnoc(chunks: seq<seq<Pair>>, c: seq<Pair>)
    ensures Concat(chunks + [c]) == Concat(chunks) + c
  {
    if chunks == [] {
      assert chunks + [c] == [c];
      assert Concat([c]) == c + Concat([]);
    } else {
      assert (chunks + [c])[1..] == chunks[1..] + [c];
      ConcatSnoc(chunks[1..], c);
    }
  }

  /** Every pair of the batch belongs to a contributing file, and carries
      that file's id and one of its vendors; conversely every vendor of a
      contributing file is in the batch with its id. */
  lemma {:induction false} BatchPairs(files: seq<SourceFile>, chunks: seq<seq<Pair>>, p: Pair)
    requires |chunks| == |files|
    requires forall i :: 0 <= i < |files| ==> FileChunk(files[i], chunks[i])
    ensures p in Concat(chunks) <==>
              exists i :: 0 <= i < |files| && Contributes(files[i])
                          && p.cveId == CveSimple.CveIdOf(files[i].content.value).value
                          && p.vendor in VendorSet(files[i].content.value).value
  {
    if files != [] {
      BatchPairs(files[1..], chunks[1..], p);
      assert forall i :: 1 <= i < |files| ==> files[1..][i - 1] == files[i] && chunks[1..][i - 1] == chunks[i];
      if Contributes(files[0]) {
        var doc := files[0].content.value;
        assert p in chunks[0] <==> p.cveId == CveSimple.CveIdOf(doc).value && p.vendor in VendorSet(doc).value;
      }
    }
  }
}
