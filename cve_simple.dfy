/** `import_cve_simple.py`: the extractor that turns one CVE JSON 5 record
    into `(cve_id, affected_package, score)` rows, and the walk that
    accumulates the rows of a whole corpus. The functions state what the
    Python computes; the methods are the Python's loops, proved equal to
    them. */
module CveSimple {
  import opened Json
  import opened Corpus
  import Patterns

  /** One tuple for `cve_simple`. The package is always a non-empty string
      (a falsy product yields no row, a non-string one raises); the id and
      the score are carried through as the document holds them. */
  datatype Row = Row(cveId: Json, package: string, score: Json)

  /** The CVSS versions in priority order. */
  const CvssKeys: seq<string> := ["cvssV3_1", "cvssV3_0", "cvssV2_0"]

  const BaseScore: string := "baseScore"

  // ---------------------------------------------------------------------
  // Score, dict-shaped `metrics`: version -> list of metric objects
  // ---------------------------------------------------------------------

  /** `isinstance(metric, dict) and 'baseScore' in metric`. */
  predicate HasBaseScore(metric: Json) {
    metric.JObj? && Lookup(metric.fields, BaseScore).Some?
  }

  /** The value under "baseScore" of the first dict entry that has one. */
  function FirstScored(entries: seq<Json>): Option<Json>
  {
    if entries == [] then None
    else if HasBaseScore(entries[0]) then Lookup(entries[0].fields, BaseScore)
    else FirstScored(entries[1..])
  }

  /** The inner loop finds a score exactly when some entry holds one, and
      then it is the value of the first such entry, null included. */
  lemma {:induction false} FirstScoredMeaning(entries: seq<Json>)
    ensures FirstScored(entries).Some? <==> exists i :: 0 <= i < |entries| && HasBaseScore(entries[i])
    ensures FirstScored(entries).Some? ==>
              exists i :: 0 <= i < |entries| && HasBaseScore(entries[i])
                          && Lookup(entries[i].fields, BaseScore) == FirstScored(entries)
                          && forall j :: 0 <= j < i ==> !HasBaseScore(entries[j])
  {
    if entries != [] && !HasBaseScore(entries[0]) {
      var tail := entries[1..];
      FirstScoredMeaning(tail);
      assert forall i :: 1 <= i < |entries| ==> entries[i] == tail[i - 1];
      if FirstScored(entries).Some? {
        var k :| 0 <= k < |tail| && HasBaseScore(tail[k]) && Lookup(tail[k].fields, BaseScore) == FirstScored(tail)
                 && forall j :: 0 <= j < k ==> !HasBaseScore(tail[j]);
        assert entries[k + 1] == tail[k];
      }
    }
  }

  /** What the inner loop finds under one version key: `metrics.get(key, [])`
      is iterated (a non-iterable value raises). */
  function KeyHit(fs: seq<Field>, key: string): Result<Option<Json>>
  {
    var entries :- Iter(Lookup(fs, key).GetOr(EmptyArr));
    Ok(FirstScored(entries))
  }

  /** A hit that ends the search: a `baseScore` that is not null. */
  predicate Decisive(hit: Option<Json>) {
    hit.Some? && hit.value != JNull
  }

  /** The outer loop over version keys: the first key whose hit is not null
      decides; a null `baseScore` leaves `score` None and the search goes on. */
  function DictScore(fs: seq<Field>, keys: seq<string>): Result<Json>
  {
    if keys == [] then Ok(JNull)
    else
      var hit :- KeyHit(fs, keys[0]);
      if Decisive(hit) then Ok(hit.value) else DictScore(fs, keys[1..])
  }

  // ---------------------------------------------------------------------
  // Score, list-shaped `metrics`: list of {version -> metric} objects
  // ---------------------------------------------------------------------

  /** `if metric and 'baseScore' in metric: score = metric['baseScore']`.
      `Some(v)` when the branch is taken; `in` raises on a number or `True`,
      and a list or string that contains "baseScore" raises on the
      subscript. */
  function MetricHit(metric: Json): Result<Option<Json>>
  {
    if !Truthy(metric) then Ok(None)
    else
      var has :- Contains(metric, BaseScore);
      if has then
        var v :- Subscript(metric, BaseScore);
        Ok(Some(v))
      else Ok(None)
  }

  /** The inner loop over version keys for one metric object; `.get` on a
      non-dict raises. */
  function ObjHit(obj: Json, keys: seq<string>): Result<Option<Json>>
  {
    if keys == [] then Ok(None)
    else
      var metric :- DictGet(obj, keys[0], JNull);
      var hit :- MetricHit(metric);
      if hit.Some? then Ok(hit) else ObjHit(obj, keys[1..])
  }

  /** The outer loop over metric objects: list order first. */
  function ListScore(objs: seq<Json>): Result<Json>
  {
    if objs == [] then Ok(JNull)
    else
      var hit :- ObjHit(objs[0], CvssKeys);
      if Decisive(hit) then Ok(hit.value) else ListScore(objs[1..])
  }

  /** The score of a record: `JNull` (None) when nothing is found or
      `metrics` is neither a dict nor a list. */
  function Score(metrics: Json): Result<Json>
  {
    match metrics
    case JObj(fs) => DictScore(fs, CvssKeys)
    case JArr(objs) => ListScore(objs)
    case _ => Ok(JNull)
  }

  /** Lines 41-59 of the source: the two nested searches with `break`. */
  method ResolveScore(metrics: Json) returns (r: Result<Json>)
    ensures r == Score(metrics)
  {
    if metrics.JObj? {
      r := SearchDict(metrics.fields);
    } else if metrics.JArr? {
      r := SearchList(metrics.items);
    } else {
      r := Ok(JNull);
    }
  }

  /** Lines 44-50: the version keys in order, stopping at the first whose
      search sets a non-null `score`. */
  method SearchDict(fs: seq<Field>) returns (r: Result<Json>)
    ensures r == DictScore(fs, CvssKeys)
  {
    var k := 0;
    while k < |CvssKeys|
      invariant 0 <= k <= |CvssKeys|
      invariant DictScore(fs, CvssKeys) == DictScore(fs, CvssKeys[k..])
    {
      var entries :- Iter(Lookup(fs, CvssKeys[k]).GetOr(EmptyArr));
      var hit := SearchEntries(entries);
      if Decisive(hit) {
        return Ok(hit.value);
      }
      assert CvssKeys[k..][1..] == CvssKeys[k + 1..];
      k := k + 1;
    }
    return Ok(JNull);
  }

  /** Lines 45-48: the first dict entry holding `baseScore`. */
  method SearchEntries(entries: seq<Json>) returns (hit: Option<Json>)
    ensures hit == FirstScored(entries)
  {
    var j := 0;
    while j < |entries|
      invariant 0 <= j <= |entries|
      invariant FirstScored(entries) == FirstScored(entries[j..])
    {
      if HasBaseScore(entries[j]) {
        return Lookup(entries[j].fields, BaseScore);
      }
      assert entries[j..][1..] == entries[j + 1..];
      j := j + 1;
    }
    return None;
  }

  /** Lines 52-59: the metric objects in order, stopping at the first whose
      search sets a non-null `score`. */
  method SearchList(objs: seq<Json>) returns (r: Result<Json>)
    ensures r == ListScore(objs)
  {
    var i := 0;
    while i < |objs|
      invariant 0 <= i <= |objs|
      invariant ListScore(objs) == ListScore(objs[i..])
    {
      var hit :- SearchObject(objs[i]);
      if Decisive(hit) {
        return Ok(hit.value);
      }
      assert objs[i..][1..] == objs[i + 1..];
      i := i + 1;
    }
    return Ok(JNull);
  }

  /** Lines 53-57: the version keys of one metric object, stopping at the
      first metric that is truthy and holds `baseScore`. */
  method SearchObject(obj: Json) returns (r: Result<Option<Json>>)
    ensures r == ObjHit(obj, CvssKeys)
  {
    var k := 0;
    while k < |CvssKeys|
      invariant 0 <= k <= |CvssKeys|
      invariant ObjHit(obj, CvssKeys) == ObjHit(obj, CvssKeys[k..])
    {
      var metric :- DictGet(obj, CvssKeys[k], JNull);
      if Truthy(metric) {
        var has :- Contains(metric, BaseScore);
        if has {
          var score :- Subscript(metric, BaseScore);
          return Ok(Some(score));
        }
      }
      assert CvssKeys[k..][1..] == CvssKeys[k + 1..];
      k := k + 1;
    }
    return Ok(None);
  }

  // ---------------------------------------------------------------------
  // Package name
  // ---------------------------------------------------------------------

  /** One iteration of `guess_package`'s loop: the description's `value`
      (default "") is searched for "The X package", then for "X for
      <letters>". `.get` on a non-dict and `re.search` on a non-string
      raise. */
  function DescGuess(desc: Json): (r: Result<Option<string>>)
    ensures r.Ok? <==> desc.JObj? && DescValue(desc).JStr?
    ensures r.Ok? && (exists i, n :: Patterns.ThePackageMatch(DescValue(desc).s, i, n))
            ==> r.value == Patterns.SearchThePackage(DescValue(desc).s, 0)
    ensures r.Ok? && !(exists i, n :: Patterns.ThePackageMatch(DescValue(desc).s, i, n))
            ==> r.value == Patterns.SearchFor(DescValue(desc).s, 0)
  {
    var value :- DictGet(desc, "value", JStr(""));
    if !value.JStr? then Err
    else
      var first := Patterns.SearchThePackage(value.s, 0);
      if first.Some? then Ok(first) else Ok(Patterns.SearchFor(value.s, 0))
  }

  /** `desc.get('value', '')` of a dict. */
  function DescValue(desc: Json): Json
    requires desc.JObj?
  {
    Lookup(desc.fields, "value").GetOr(JStr(""))
  }

  /** `guess_package`'s loop over the remaining descriptions: the first
      group found is returned. */
  function GuessIn(descs: seq<Json>): Result<Option<string>>
  {
    if descs == [] then Ok(None)
    else
      var hit :- DescGuess(descs[0]);
      if hit.Some? then Ok(hit) else GuessIn(descs[1..])
  }

  /** `guess_package()`: `for desc in descriptions` raises on a non-iterable. */
  function GuessPackage(descriptions: Json): Result<Option<string>>
  {
    var descs :- Iter(descriptions);
    GuessIn(descs)
  }

  /** `product.lower() == 'n/a'`. */
  predicate IsNA(s: string) {
    LowerStr(s) == "n/a"
  }

  /** What `guess_package(descriptions)` returns or raises. It is pure, so
      the rows below take it as a value; they consult it only for an "n/a"
      product, the one case in which lines 74-75 call it. */
  type Guess = Result<Option<string>>

  /** The package an `affected` entry's product resolves to: `None` for a
      falsy product, the guess (or "n/a") for any spelling of "n/a", the
      product itself otherwise. `.lower()` raises on a non-string. */
  function ResolveProduct(product: Json, guess: Guess): Result<Option<string>>
  {
    if !Truthy(product) then Ok(None)
    else
      var lowered :- Lower(product);
      if lowered == "n/a" then
        var g :- guess;
        Ok(Some(g.GetOr("n/a")))
      else Ok(Some(product.s))
  }

  // ---------------------------------------------------------------------
  // Rows of one document
  // ---------------------------------------------------------------------

  /** One iteration of the loop over `affected` (lines 73-77): the row the
      item adds, if any. `.get` on a non-dict item raises. */
  function ItemRows(item: Json, cveId: Json, score: Json, guess: Guess): Result<seq<Row>>
  {
    var product :- DictGet(item, "product", JNull);
    var name :- ResolveProduct(product, guess);
    Ok(if Truthy(cveId) && name.Some? then [Row(cveId, name.value, score)] else [])
  }

  /** The loop over `affected` items (lines 71-77). */
  function BuildRows(items: seq<Json>, cveId: Json, score: Json, guess: Guess): Result<seq<Row>>
  {
    if items == [] then Ok([])
    else
      var head :- ItemRows(items[0], cveId, score, guess);
      var rest :- BuildRows(items[1..], cveId, score, guess);
      Ok(head + rest)
  }

  /** `json_data.get('cveMetadata', {}).get('cveId')`. */
  function CveIdOf(doc: Json): Result<Json>
  {
    var meta :- DictGet(doc, "cveMetadata", EmptyObj);
    DictGet(meta, "cveId", JNull)
  }

  /** `json_data.get('containers', {}).get('cna', {})`. */
  function CnaOf(doc: Json): Result<Json>
  {
    var containers :- DictGet(doc, "containers", EmptyObj);
    DictGet(containers, "cna", EmptyObj)
  }

  /** `extract_cve_info(json_data)`. */
  function CveRows(doc: Json): Result<seq<Row>>
  {
    if !doc.JObj? then Ok([])
    else
      var cveId :- CveIdOf(doc);
      var cna :- CnaOf(doc);
      var affected :- DictGet(cna, "affected", EmptyArr);
      var metrics :- DictGet(cna, "metrics", EmptyObj);
      var descriptions :- DictGet(cna, "descriptions", EmptyArr);
      var score :- Score(metrics);
      var items :- Iter(affected);
      BuildRows(items, cveId, score, GuessPackage(descriptions))
  }

  /** The rows of `a` followed by those of `b`; a raise in either raises. */
  function Joined(a: Result<seq<Row>>, b: Result<seq<Row>>): Result<seq<Row>>
  {
    if a.Ok? && b.Ok? then Ok(a.value + b.value) else Err
  }

  /** `extract_cve_info`, statement by statement. */
  method ExtractCveInfo(doc: Json) returns (r: Result<seq<Row>>)
    ensures r == CveRows(doc)
  {
    if !doc.JObj? {
      return Ok([]);
    }
    var meta :- DictGet(doc, "cveMetadata", EmptyObj);
    var cveId :- DictGet(meta, "cveId", JNull);
    var containers :- DictGet(doc, "containers", EmptyObj);
    var cna :- DictGet(containers, "cna", EmptyObj);
    var affected :- DictGet(cna, "affected", EmptyArr);
    var metrics :- DictGet(cna, "metrics", EmptyObj);
    var descriptions :- DictGet(cna, "descriptions", EmptyArr);
    var score :- ResolveScore(metrics);
    var items :- Iter(affected);
    r := CollectRows(items, cveId, score, descriptions);
  }

  /** The loop over `affected` items (lines 71-77), appending to `results`. */
  method CollectRows(items: seq<Json>, cveId: Json, score: Json, descriptions: Json) returns (r: Result<seq<Row>>)
    ensures r == BuildRows(items, cveId, score, GuessPackage(descriptions))
  {
    ghost var guess := GuessPackage(descriptions);
    var results: seq<Row> := [];
    var i := 0;
    assert items[..i] == [];
    while i < |items|
      invariant 0 <= i <= |items|
      invariant BuildRows(items[..i], cveId, score, guess) == Ok(results)
    {
      RowsPrefixStep(items, i, cveId, score, guess);
      results :- AppendItemRows(results, items[i], cveId, score, descriptions);
      i := i + 1;
    }
    assert items[..i] == items;
    return Ok(results);
  }

  /** One pass of the loop body (lines 72-77): append the item's row, if
      any, to `results`, or raise. */
  method AppendItemRows(results: seq<Row>, item: Json, cveId: Json, score: Json, descriptions: Json)
    returns (r: Result<seq<Row>>)
    ensures r == Joined(Ok(results), ItemRows(item, cveId, score, GuessPackage(descriptions)))
  {
    var product :- DictGet(item, "product", JNull);
    var name :- ResolveName(product, descriptions);
    if Truthy(cveId) && name.Some? {
      return Ok(results + [Row(cveId, name.value, score)]);
    }
    assert results + [] == results;
    return Ok(results);
  }

  /** Lines 73-75: the package an item's product stands for. */
  method ResolveName(product: Json, descriptions: Json) returns (r: Result<Option<string>>)
    ensures r == ResolveProduct(product, GuessPackage(descriptions))
  {
    if !Truthy(product) {
      return Ok(None);
    }
    var lowered :- Lower(product);
    if lowered == "n/a" {
      var guess :- GuessPackage(descriptions);
      return Ok(Some(guess.GetOr("n/a")));
    }
    return Ok(Some(product.s));
  }

  /** The rows still to come from item `i` on: item `i`'s rows, then the
      rest; a raise at item `i` discards everything. */
  /** The rows of `a + b` are those of `a` followed by those of `b`. */
  lemma {:induction false} BuildRowsConcat(a: seq<Json>, b: seq<Json>, cveId: Json, score: Json, guess: Guess)
    ensures BuildRows(a + b, cveId, score, guess) == Joined(BuildRows(a, cveId, score, guess), BuildRows(b, cveId, score, guess))
  {
    if a == [] {
      assert a + b == b;
      var rb := BuildRows(b, cveId, score, guess);
      assert rb.Ok? ==> [] + rb.value == rb.value;
    } else {
      var ab := a + b;
      assert ab[0] == a[0] && ab[1..] == a[1..] + b;
      BuildRowsConcat(a[1..], b, cveId, score, guess);
      var h, t, rb := ItemRows(a[0], cveId, score, guess), BuildRows(a[1..], cveId, score, guess), BuildRows(b, cveId, score, guess);
      if h.Ok? && t.Ok? && rb.Ok? {
        assert h.value + (t.value + rb.value) == (h.value + t.value) + rb.value;
      }
    }
  }

  /** One loop pass: the first `i + 1` items give the rows of the first
      `i` followed by item `i`'s, and if item `i` raises so do all items. */
  lemma RowsPrefixStep(items: seq<Json>, i: nat, cveId: Json, score: Json, guess: Guess)
    requires i < |items|
    ensures BuildRows(items[..i + 1], cveId, score, guess)
         == Joined(BuildRows(items[..i], cveId, score, guess), ItemRows(items[i], cveId, score, guess))
    ensures ItemRows(items[i], cveId, score, guess).Err? ==> BuildRows(items, cveId, score, guess) == Err
  {
    assert items[..i + 1] == items[..i] + [items[i]];
    BuildRowsConcat(items[..i], [items[i]], cveId, score, guess);
    var h := ItemRows(items[i], cveId, score, guess);
    assert [items[i]][1..] == [];
    assert h.Ok? ==> h.value + [] == h.value;
    assert BuildRows([items[i]], cveId, score, guess) == Joined(h, Ok([]));
    assert items == items[..i + 1] + items[i + 1..];
    BuildRowsConcat(items[..i + 1], items[i + 1..], cveId, score, guess);
  }

  // ---------------------------------------------------------------------
  // The walk (lines 82-93)
  // ---------------------------------------------------------------------

  /** What one visited file adds to the batch: nothing unless it is a
      `.json` file that opened, parsed and extracted without raising. */
  function FileRows(f: SourceFile): seq<Row>
  {
    if IsJsonName(f.name) && f.content.Some? && CveRows(f.content.value).Ok?
    then CveRows(f.content.value).value
    else []
  }

  /** The batch: the files' rows concatenated in visit order. */
  function CveBatch(files: seq<SourceFile>): seq<Row>
  {
    if files == [] then [] else FileRows(files[0]) + CveBatch(files[1..])
  }

  /** The accumulation loop of `process_all_files`. */
  method Accumulate(files: seq<SourceFile>) returns (toInsert: seq<Row>)
    ensures toInsert == CveBatch(files)
  {
    toInsert := [];
    var i := 0;
    while i < |files|
      invariant 0 <= i <= |files|
      invariant toInsert == CveBatch(files[..i])
    {
      var rows := ReadFile(files[i]);
      BatchPrefixStep(files, i);
      toInsert := toInsert + rows;
      i := i + 1;
    }
    assert files[..i] == files;
  }

  /** The body of the walk for one file: extract when the name ends in
      `.json` and the file parsed; an exception contributes nothing. */
  method ReadFile(file: SourceFile) returns (rows: seq<Row>)
    ensures rows == FileRows(file)
  {
    rows := [];
    if IsJsonName(file.name) && file.content.Some? {
      var extracted := ExtractCveInfo(file.content.value);
      if extracted.Ok? {
        rows := extracted.value;
      }
    }
  }

  // ---------------------------------------------------------------------
  // Properties of the extractor
  // ---------------------------------------------------------------------

  /** A version key whose search neither raised nor ended the resolution. */
  predicate Undecided(fs: seq<Field>, key: string) {
    KeyHit(fs, key).Ok? && !Decisive(KeyHit(fs, key).value)
  }

  /** A hit that neither raised nor ended the resolution. */
  predicate Passes(h: Result<Option<Json>>) {
    h.Ok? && !Decisive(h.value)
  }

  /** The resolution both searches share: hits are looked at in order, the
      first one that raises or is decisive ends it, and none leaves None. */
  function FirstDecisive(hits: seq<Result<Option<Json>>>): Result<Json>
  {
    if hits == [] then Ok(JNull)
    else if hits[0].Err? then Err
    else if Decisive(hits[0].value) then Ok(hits[0].value.value)
    else FirstDecisive(hits[1..])
  }

  /** The hits of the version keys of a dict of metrics, in key order. */
  function KeyHits(fs: seq<Field>, keys: seq<string>): (r: seq<Result<Option<Json>>>)
    ensures |r| == |keys| && forall i :: 0 <= i < |keys| ==> r[i] == KeyHit(fs, keys[i])
  {
    if keys == [] then [] else [KeyHit(fs, keys[0])] + KeyHits(fs, keys[1..])
  }

  /** The dict search is the shared resolution over its keys' hits. */
  lemma {:induction false} DictScoreIsFirstDecisive(fs: seq<Field>, keys: seq<string>)
    ensures DictScore(fs, keys) == FirstDecisive(KeyHits(fs, keys))
  {
    if keys != [] {
      DictScoreIsFirstDecisive(fs, keys[1..]);
      assert KeyHits(fs, keys)[1..] == KeyHits(fs, keys[1..]);
    }
  }

  /** A non-null outcome comes from the first decisive hit, every earlier
      hit having passed. */
  lemma {:induction false} FirstDecisiveFrom(hits: seq<Result<Option<Json>>>)
    requires FirstDecisive(hits).Ok? && FirstDecisive(hits).value != JNull
    ensures exists k :: 0 <= k < |hits| && hits[k] == Ok(Some(FirstDecisive(hits).value))
                        && forall j :: 0 <= j < k ==> Passes(hits[j])
  {
    if !Decisive(hits[0].value) {
      FirstDecisiveFrom(hits[1..]);
      var k :| 0 <= k < |hits[1..]| && hits[1..][k] == Ok(Some(FirstDecisive(hits).value))
               && forall j :: 0 <= j < k ==> Passes(hits[1..][j]);
      assert hits[k + 1] == hits[1..][k];
      forall j | 0 <= j < k + 1
        ensures Passes(hits[j])
      {
        if j > 0 {
          assert hits[j] == hits[1..][j - 1];
        }
      }
    }
  }

  /** The first decisive hit, after hits that all passed, decides. */
  lemma {:induction false} FirstDecisiveAt(hits: seq<Result<Option<Json>>>, k: nat)
    requires k < |hits| && hits[k].Ok? && Decisive(hits[k].value)
    requires forall j :: 0 <= j < k ==> Passes(hits[j])
    ensures FirstDecisive(hits) == Ok(hits[k].value.value)
  {
    if k > 0 {
      assert Passes(hits[0]);
      assert hits[1..][k - 1] == hits[k];
      assert forall j :: 0 <= j < k - 1 ==> hits[1..][j] == hits[j + 1];
      FirstDecisiveAt(hits[1..], k - 1);
    }
  }

  /** The outcome is None exactly when every hit passes. */
  lemma {:induction false} FirstDecisiveNone(hits: seq<Result<Option<Json>>>)
    ensures FirstDecisive(hits) == Ok(JNull) <==> forall k :: 0 <= k < |hits| ==> Passes(hits[k])
  {
    if hits != [] {
      FirstDecisiveNone(hits[1..]);
      assert forall k :: 1 <= k < |hits| ==> hits[1..][k - 1] == hits[k];
    }
  }

  /** Dict-shaped metrics, first direction: a non-null score comes from the
      first decisive version key, every earlier key being undecided. */
  lemma DictScoreFromFirstDecisive(fs: seq<Field>, keys: seq<string>)
    requires DictScore(fs, keys).Ok? && DictScore(fs, keys).value != JNull
    ensures exists k :: 0 <= k < |keys| && KeyHit(fs, keys[k]) == Ok(Some(DictScore(fs, keys).value))
                        && forall j :: 0 <= j < k ==> Undecided(fs, keys[j])
  {
    var hits := KeyHits(fs, keys);
    DictScoreIsFirstDecisive(fs, keys);
    FirstDecisiveFrom(hits);
    var k :| 0 <= k < |hits| && hits[k] == Ok(Some(FirstDecisive(hits).value))
             && forall j :: 0 <= j < k ==> Passes(hits[j]);
    assert forall j :: 0 <= j < k ==> Undecided(fs, keys[j]) by {
      forall j | 0 <= j < k
        ensures Undecided(fs, keys[j])
      {
        assert Passes(hits[j]);
      }
    }
  }

  /** Dict-shaped metrics, second direction: the first decisive version key
      gives the score. With `CvssKeys` this is the priority
      cvssV3_1 > cvssV3_0 > cvssV2_0. */
  lemma DictScoreAtFirstDecisive(fs: seq<Field>, keys: seq<string>, k: nat)
    requires k < |keys| && KeyHit(fs, keys[k]).Ok? && Decisive(KeyHit(fs, keys[k]).value)
    requires forall j :: 0 <= j < k ==> Undecided(fs, keys[j])
    ensures DictScore(fs, keys) == Ok(KeyHit(fs, keys[k]).value.value)
  {
    var hits := KeyHits(fs, keys);
    DictScoreIsFirstDecisive(fs, keys);
    assert forall j :: 0 <= j < k ==> Passes(hits[j]);
    FirstDecisiveAt(hits, k);
  }

  /** Dict-shaped metrics: the score stays None exactly when every version
      key is undecided. */
  lemma DictScoreNone(fs: seq<Field>, keys: seq<string>)
    ensures DictScore(fs, keys) == Ok(JNull) <==> forall k :: 0 <= k < |keys| ==> Undecided(fs, keys[k])
  {
    var hits := KeyHits(fs, keys);
    DictScoreIsFirstDecisive(fs, keys);
    FirstDecisiveNone(hits);
    assert forall k :: 0 <= k < |keys| ==> (Passes(hits[k]) <==> Undecided(fs, keys[k]));
  }

  /** A record without `metrics` (the default `{}`) or with an empty list
      of them has a null score. */
  lemma MissingMetricsScoreNone()
    ensures Score(EmptyObj) == Ok(JNull) && Score(EmptyArr) == Ok(JNull)
  {
    forall k | 0 <= k < |CvssKeys|
      ensures Undecided([], CvssKeys[k])
    {
      assert KeyHit([], CvssKeys[k]) == Ok(None);
    }
    DictScoreNone([], CvssKeys);
  }

  /** A metric object that neither raised nor decided the score. */
  predicate ObjUndecided(obj: Json) {
    ObjHit(obj, CvssKeys).Ok? && !Decisive(ObjHit(obj, CvssKeys).value)
  }

  /** List-shaped metrics: list order dominates. The first metric object with
      a decisive hit gives the score, every earlier object having been
      undecided; if none decides the score is None. */
  lemma {:induction false} ListScorePriority(objs: seq<Json>)
    ensures ListScore(objs).Ok? && ListScore(objs).value != JNull ==>
              exists i :: 0 <= i < |objs| && ObjHit(objs[i], CvssKeys) == Ok(Some(ListScore(objs).value))
                          && forall j :: 0 <= j < i ==> ObjUndecided(objs[j])
    ensures forall i :: 0 <= i < |objs| && ObjHit(objs[i], CvssKeys).Ok? && Decisive(ObjHit(objs[i], CvssKeys).value)
                        && (forall j :: 0 <= j < i ==> ObjUndecided(objs[j]))
                        ==> ListScore(objs) == Ok(ObjHit(objs[i], CvssKeys).value.value)
    ensures ListScore(objs) == Ok(JNull) <==> forall i :: 0 <= i < |objs| ==> ObjUndecided(objs[i])
  {
    var hits := ObjHits(objs);
    ListScoreIsFirstDecisive(objs);
    assert forall i :: 0 <= i < |objs| ==> (Passes(hits[i]) <==> ObjUndecided(objs[i]));
    if ListScore(objs).Ok? && ListScore(objs).value != JNull {
      FirstDecisiveFrom(hits);
    }
    forall i | 0 <= i < |objs| && ObjHit(objs[i], CvssKeys).Ok? && Decisive(ObjHit(objs[i], CvssKeys).value)
               && (forall j :: 0 <= j < i ==> ObjUndecided(objs[j]))
      ensures ListScore(objs) == Ok(ObjHit(objs[i], CvssKeys).value.value)
    {
      FirstDecisiveAt(hits, i);
    }
    FirstDecisiveNone(hits);
  }

  /** The hits of the metric objects of a list, in list order. */
  function ObjHits(objs: seq<Json>): (r: seq<Result<Option<Json>>>)
    ensures |r| == |objs| && forall i :: 0 <= i < |objs| ==> r[i] == ObjHit(objs[i], CvssKeys)
  {
    if objs == [] then [] else [ObjHit(objs[0], CvssKeys)] + ObjHits(objs[1..])
  }

  /** The list search is the shared resolution over its objects' hits. */
  lemma {:induction false} ListScoreIsFirstDecisive(objs: seq<Json>)
    ensures ListScore(objs) == FirstDecisive(ObjHits(objs))
  {
    if objs != [] {
      ListScoreIsFirstDecisive(objs[1..]);
      assert ObjHits(objs)[1..] == ObjHits(objs[1..]);
    }
  }

  /** Within one metric object the version keys keep their priority: the hit
      is that of the first key whose metric passes
      `metric and 'baseScore' in metric`, even when its value is null. */
  lemma ObjHitKeyOrder(obj: Json, keys: seq<string>)
    ensures ObjHit(obj, keys).Ok? && ObjHit(obj, keys).value.Some? ==>
              obj.JObj? &&
              exists k :: 0 <= k < |keys| && MetricHit(Lookup(obj.fields, keys[k]).GetOr(JNull)) == ObjHit(obj, keys)
                          && forall j :: 0 <= j < k ==> MetricHit(Lookup(obj.fields, keys[j]).GetOr(JNull)) == Ok(None)
  {
    if keys != [] && ObjHit(obj, keys).Ok? && ObjHit(obj, keys).value.Some? {
      assert obj.JObj?;
      var hits := MetricHits(obj.fields, keys);
      ObjHitIsFirstSome(obj, keys);
      FirstSomeFrom(hits);
    }
  }

  /** The hits of the version keys of one metric object, in key order. */
  function MetricHits(fs: seq<Field>, keys: seq<string>): (r: seq<Result<Option<Json>>>)
    ensures |r| == |keys| && forall i :: 0 <= i < |keys| ==> r[i] == MetricHit(Lookup(fs, keys[i]).GetOr(JNull))
  {
    if keys == [] then [] else [MetricHit(Lookup(fs, keys[0]).GetOr(JNull))] + MetricHits(fs, keys[1..])
  }

  /** The first hit that raises or finds something ends the search. */
  function FirstSome(hits: seq<Result<Option<Json>>>): Result<Option<Json>>
  {
    if hits == [] then Ok(None)
    else if hits[0].Err? || hits[0].value.Some? then hits[0]
    else FirstSome(hits[1..])
  }

  /** On a dict, the key search of one object is that resolution over its
      keys' hits. */
  lemma {:induction false} ObjHitIsFirstSome(obj: Json, keys: seq<string>)
    requires obj.JObj?
    ensures ObjHit(obj, keys) == FirstSome(MetricHits(obj.fields, keys))
  {
    if keys != [] {
      DictGetIsLookup(obj, keys[0], JNull);
      ObjHitIsFirstSome(obj, keys[1..]);
      assert MetricHits(obj.fields, keys)[1..] == MetricHits(obj.fields, keys[1..]);
    }
  }

  /** A found hit is the first one that is not empty-handed. */
  lemma {:induction false} FirstSomeFrom(hits: seq<Result<Option<Json>>>)
    ensures FirstSome(hits).Ok? && FirstSome(hits).value.Some? ==>
              exists k :: 0 <= k < |hits| && hits[k] == FirstSome(hits)
                          && forall j :: 0 <= j < k ==> hits[j] == Ok(None)
  {
    if hits != [] && hits[0] == Ok(None) {
      FirstSomeFrom(hits[1..]);
      if FirstSome(hits).Ok? && FirstSome(hits).value.Some? {
        var k :| 0 <= k < |hits[1..]| && hits[1..][k] == FirstSome(hits)
                 && forall j :: 0 <= j < k ==> hits[1..][j] == Ok(None);
        assert hits[k + 1] == hits[1..][k];
        forall j | 0 <= j < k + 1
          ensures hits[j] == Ok(None)
        {
          if j > 0 {
            assert hits[j] == hits[1..][j - 1];
          }
        }
      }
    }
  }

  /** Neither a dict nor a list of metrics gives no score; otherwise the
      score is None exactly when no key or object decides. */
  lemma ScoreNoneCases(metrics: Json)
    ensures !metrics.JObj? && !metrics.JArr? ==> Score(metrics) == Ok(JNull)
    ensures metrics.JObj? ==> (Score(metrics) == Ok(JNull) <==> forall k :: 0 <= k < |CvssKeys| ==> Undecided(metrics.fields, CvssKeys[k]))
    ensures metrics.JArr? ==> (Score(metrics) == Ok(JNull) <==> forall i :: 0 <= i < |metrics.items| ==> ObjUndecided(metrics.items[i]))
  {
    if metrics.JObj? {
      DictScoreNone(metrics.fields, CvssKeys);
    } else if metrics.JArr? {
      ListScorePriority(metrics.items);
    }
  }

  /** `{cvssV2_0: [{baseScore: low}], cvssV3_1: [{baseScore: high}]}` scores
      `high`: in a dict the version decides, whatever the key order. */
  lemma DictPrefersV31(low: Json, high: Json)
    requires high != JNull
    ensures Score(JObj([Field("cvssV2_0", JArr([JObj([Field(BaseScore, low)])])),
                       Field("cvssV3_1", JArr([JObj([Field(BaseScore, high)])]))])) == Ok(high)
  {
    var fs := [Field("cvssV2_0", JArr([JObj([Field(BaseScore, low)])])),
               Field("cvssV3_1", JArr([JObj([Field(BaseScore, high)])]))];
    assert Lookup(fs, CvssKeys[0]) == Some(JArr([JObj([Field(BaseScore, high)])]));
    assert KeyHit(fs, CvssKeys[0]) == Ok(Some(high));
  }

  /** `[{cvssV2_0: {baseScore: low}}, {cvssV3_1: {baseScore: high}}]` scores
      `low`: in a list the first object decides, whatever its version. */
  lemma ListPrefersFirstObject(low: Json, high: Json)
    requires low != JNull
    ensures Score(JArr([JObj([Field("cvssV2_0", JObj([Field(BaseScore, low)]))]),
                       JObj([Field("cvssV3_1", JObj([Field(BaseScore, high)]))])])) == Ok(low)
  {
    var first := JObj([Field("cvssV2_0", JObj([Field(BaseScore, low)]))]);
    assert Lookup(first.fields, CvssKeys[0]) == None;
    assert Lookup(first.fields, CvssKeys[1]) == None;
    assert Lookup(first.fields, CvssKeys[2]) == Some(JObj([Field(BaseScore, low)]));
    assert MetricHit(JObj([Field(BaseScore, low)])) == Ok(Some(low));
    assert ObjHit(first, CvssKeys[2..]) == Ok(Some(low));
    assert ObjHit(first, CvssKeys[1..]) == Ok(Some(low));
    assert ObjHit(first, CvssKeys) == Ok(Some(low));
  }

  /** `guess_package` returns the guess of the first description that yields
      one, every earlier description having yielded none; it returns None
      only when no description yields one, and raises only at a description
      that raises. */
  lemma GuessFirstMatch(descs: seq<Json>)
    ensures GuessIn(descs) == Ok(None) <==> forall i :: 0 <= i < |descs| ==> DescGuess(descs[i]) == Ok(None)
    ensures GuessIn(descs).Ok? && GuessIn(descs).value.Some? ==>
              exists i :: 0 <= i < |descs| && DescGuess(descs[i]) == GuessIn(descs)
                          && forall j :: 0 <= j < i ==> DescGuess(descs[j]) == Ok(None)
    ensures GuessIn(descs).Err? ==>
              exists i :: 0 <= i < |descs| && DescGuess(descs[i]).Err?
                          && forall j :: 0 <= j < i ==> DescGuess(descs[j]) == Ok(None)
  {
    GuessNone(descs);
    GuessStops(descs);
  }

  /** No guess exactly when every description yields none. */
  lemma {:induction false} GuessNone(descs: seq<Json>)
    ensures GuessIn(descs) == Ok(None) <==> forall i :: 0 <= i < |descs| ==> DescGuess(descs[i]) == Ok(None)
  {
    if descs != [] {
      GuessNone(descs[1..]);
      assert forall i :: 1 <= i < |descs| ==> descs[1..][i - 1] == descs[i];
    }
  }

  /** A guess or a raise comes from the first description that does not
      yield None. */
  lemma {:induction false} GuessStops(descs: seq<Json>)
    ensures GuessIn(descs) != Ok(None) ==>
              exists i :: 0 <= i < |descs| && DescGuess(descs[i]) != Ok(None)
                          && (DescGuess(descs[i]).Ok? ==> DescGuess(descs[i]) == GuessIn(descs))
                          && (DescGuess(descs[i]).Err? ==> GuessIn(descs).Err?)
                          && forall j :: 0 <= j < i ==> DescGuess(descs[j]) == Ok(None)
  {
    if descs != [] && DescGuess(descs[0]) == Ok(None) {
      GuessStops(descs[1..]);
      if GuessIn(descs) != Ok(None) {
        var i :| 0 <= i < |descs[1..]| && DescGuess(descs[1..][i]) != Ok(None)
                 && (DescGuess(descs[1..][i]).Ok? ==> DescGuess(descs[1..][i]) == GuessIn(descs[1..]))
                 && (DescGuess(descs[1..][i]).Err? ==> GuessIn(descs[1..]).Err?)
                 && forall j :: 0 <= j < i ==> DescGuess(descs[1..][j]) == Ok(None);
        assert descs[1..][i] == descs[i + 1];
        forall j | 0 <= j < i + 1
          ensures DescGuess(descs[j]) == Ok(None)
        {
          if j > 0 {
            assert descs[j] == descs[1..][j - 1];
          }
        }
      }
    }
  }

  /** The spellings `product.lower() == 'n/a'` accepts. */
  lemma NASpellings(s: string)
    ensures IsNA(s) <==> |s| == 3 && (s[0] == 'n' || s[0] == 'N') && s[1] == '/' && (s[2] == 'a' || s[2] == 'A')
  {
    if |s| == 3 {
      var t := LowerStr(s);
      assert t == "n/a" <==> t[0] == 'n' && t[1] == '/' && t[2] == 'a';
    }
  }

  /** The truthy products of the dict items of `affected`, in order. */
  function Products(items: seq<Json>): seq<Json>
  {
    if items == [] then [] else ItemProducts(items[0]) + Products(items[1..])
  }

  /** An `affected` item without a truthy product adds no row, whatever
      the descriptions say. */
  lemma FalsyProductNoRow(item: Json, cveId: Json, score: Json, guess: Guess)
    requires item.JObj? && !Truthy(Lookup(item.fields, "product").GetOr(JNull))
    ensures ItemRows(item, cveId, score, guess) == Ok([])
  {
    var product := Lookup(item.fields, "product").GetOr(JNull);
    assert ResolveProduct(product, guess) == Ok(None);
  }

  /** The rows of a document that extracts without raising: none without a
      truthy `cve_id`; otherwise exactly one per truthy product, in order,
      duplicates kept, all with the same id and score. A product is a
      string; one that lowers to "n/a" becomes the guess, or "n/a", and any
      other passes through unchanged. */
  lemma {:induction false} RowsFollowAffected(items: seq<Json>, cveId: Json, score: Json, guess: Guess)
    requires BuildRows(items, cveId, score, guess).Ok?
    ensures var rows := BuildRows(items, cveId, score, guess).value;
            var ps := Products(items);
            && (!Truthy(cveId) ==> rows == [])
            && (Truthy(cveId) ==> |rows| == |ps|)
            && forall k :: 0 <= k < |rows| ==>
                 && rows[k].cveId == cveId && rows[k].score == score && ps[k].JStr?
                 && (IsNA(ps[k].s) ==> guess.Ok? && rows[k].package == guess.value.GetOr("n/a"))
                 && (!IsNA(ps[k].s) ==> rows[k].package == ps[k].s)
  {
    BuildRowsFit(items, cveId, score, guess);
  }

  /** The induction behind `RowsFollowAffected`, item by item. */
  lemma {:induction false} BuildRowsFit(items: seq<Json>, cveId: Json, score: Json, guess: Guess)
    requires BuildRows(items, cveId, score, guess).Ok?
    ensures RowsFit(BuildRows(items, cveId, score, guess).value, Products(items), cveId, score, guess)
  {
    if items != [] {
      var head := ItemRows(items[0], cveId, score, guess).value;
      var rest := BuildRows(items[1..], cveId, score, guess).value;
      assert BuildRows(items, cveId, score, guess).value == head + rest;
      assert Products(items) == ItemProducts(items[0]) + Products(items[1..]);
      ItemRowsFit(items[0], cveId, score, guess);
      BuildRowsFit(items[1..], cveId, score, guess);
      RowsFitConcat(head, ItemProducts(items[0]), rest, Products(items[1..]), cveId, score, guess);
    }
  }

  /** The truthy product of one `affected` item, as a list of at most one. */
  function ItemProducts(item: Json): seq<Json>
  {
    var p := if item.JObj? then Lookup(item.fields, "product").GetOr(JNull) else JNull;
    if Truthy(p) then [p] else []
  }

  /** Row `r` is the one product `p` yields: same id and score, and the
      product name or, for "n/a", the guess. */
  predicate RowFits(r: Row, p: Json, cveId: Json, score: Json, guess: Guess)
  {
    && r.cveId == cveId && r.score == score && p.JStr?
    && (IsNA(p.s) ==> guess.Ok? && r.package == guess.value.GetOr("n/a"))
    && (!IsNA(p.s) ==> r.package == p.s)
  }

  /** `rows` are the rows the products `ps` yield, one each, or none
      without a truthy id. */
  predicate RowsFit(rows: seq<Row>, ps: seq<Json>, cveId: Json, score: Json, guess: Guess)
  {
    && (!Truthy(cveId) ==> rows == [])
    && (Truthy(cveId) ==> |rows| == |ps|)
    && forall k :: 0 <= k < |rows| && k < |ps| ==> RowFits(rows[k], ps[k], cveId, score, guess)
  }

  /** One item's rows fit its truthy product. */
  lemma ItemRowsFit(item: Json, cveId: Json, score: Json, guess: Guess)
    requires ItemRows(item, cveId, score, guess).Ok?
    ensures RowsFit(ItemRows(item, cveId, score, guess).value, ItemProducts(item), cveId, score, guess)
  {
    assert item.JObj?;
    DictGetIsLookup(item, "product", JNull);
    var product := Lookup(item.fields, "product").GetOr(JNull);
    var rows := ItemRows(item, cveId, score, guess).value;
    if !Truthy(product) {
      assert ResolveProduct(product, guess) == Ok(None);
      assert rows == [] && ItemProducts(item) == [];
    } else {
      assert Lower(product).Ok? && product.JStr?;
      var name := ResolveProduct(product, guess).value;
      assert ItemProducts(item) == [product];
      if IsNA(product.s) {
        assert guess.Ok? && name == Some(guess.value.GetOr("n/a"));
      } else {
        assert name == Some(product.s);
      }
      assert rows == if Truthy(cveId) then [Row(cveId, name.value, score)] else [];
    }
  }

  /** Fitting row lists concatenate. */
  lemma RowsFitConcat(h: seq<Row>, ph: seq<Json>, r: seq<Row>, pr: seq<Json>, cveId: Json, score: Json, guess: Guess)
    requires RowsFit(h, ph, cveId, score, guess) && RowsFit(r, pr, cveId, score, guess)
    ensures RowsFit(h + r, ph + pr, cveId, score, guess)
  {
    if Truthy(cveId) {
      forall k | 0 <= k < |h + r|
        ensures RowFits((h + r)[k], (ph + pr)[k], cveId, score, guess)
      {
        if k >= |h| {
          assert (h + r)[k] == r[k - |h|] && (ph + pr)[k] == pr[k - |h|];
        }
      }
    }
  }

  /** A document that is not a dict yields no rows; rows come only with a
      truthy `cveMetadata.cveId`, and all carry it. */
  lemma NoRowsWithoutDocumentOrId(doc: Json)
    ensures !doc.JObj? ==> CveRows(doc) == Ok([])
    ensures CveRows(doc).Ok? && CveRows(doc).value != [] ==>
              doc.JObj? && CveIdOf(doc).Ok? && Truthy(CveIdOf(doc).value)
              && forall r :: r in CveRows(doc).value ==> r.cveId == CveIdOf(doc).value
  {
    if doc.JObj? && CveRows(doc).Ok? {
      var cveId := CveIdOf(doc).value;
      var cna := CnaOf(doc).value;
      var items := Iter(DictGet(cna, "affected", EmptyArr).value).value;
      var score := Score(DictGet(cna, "metrics", EmptyObj).value).value;
      var ds := DictGet(cna, "descriptions", EmptyArr).value;
      RowsFollowAffected(items, cveId, score, GuessPackage(ds));
    }
  }

  /** The batch concatenates per-file rows: the walk over `a + b` is the
      walk over `a` followed by the walk over `b`. */
  lemma {:induction false} BatchConcat(a: seq<SourceFile>, b: seq<SourceFile>)
    ensures CveBatch(a + b) == CveBatch(a) + CveBatch(b)
  {
    if a == [] {
      assert a + b == b;
    } else {
      var ab := a + b;
      assert ab != [] && ab[0] == a[0];
      assert ab[1..] == a[1..] + b;
      assert CveBatch(ab) == FileRows(a[0]) + CveBatch(a[1..] + b);
      BatchConcat(a[1..], b);
      var x, y, z := FileRows(a[0]), CveBatch(a[1..]), CveBatch(b);
      assert x + (y + z) == (x + y) + z;
    }
  }

  /** One more visited file appends its rows to the batch. */
  lemma BatchSnoc(files: seq<SourceFile>, f: SourceFile)
    ensures CveBatch(files + [f]) == CveBatch(files) + FileRows(f)
  {
    BatchConcat(files, [f]);
    assert CveBatch([f]) == FileRows(f) + CveBatch([]);
  }

  /** The batch of the first `i + 1` files extends that of the first `i`
      by the rows of file `i`. */
  lemma BatchPrefixStep(files: seq<SourceFile>, i: nat)
    requires i < |files|
    ensures CveBatch(files[..i + 1]) == CveBatch(files[..i]) + FileRows(files[i])
  {
    assert files[..i + 1] == files[..i] + [files[i]];
    BatchSnoc(files[..i], files[i]);
  }

  /** A file that fails to open, parse or extract discards only its own
      rows: the files around it are imported as if it were absent. */
  lemma FailedFileSkipped(before: seq<SourceFile>, bad: SourceFile, after: seq<SourceFile>)
    requires !IsJsonName(bad.name) || bad.content.None? || CveRows(bad.content.value).Err?
    ensures CveBatch(before + [bad] + after) == CveBatch(before) + CveBatch(after)
  {
    assert FileRows(bad) == [];
    BatchSnoc(before, bad);
    assert CveBatch(before + [bad]) == CveBatch(before);
    BatchConcat(before + [bad], after);
  }
}
