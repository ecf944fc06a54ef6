# postgresql_cve_db in Dafny

A model of the three core files of `postgresql_cve_db`, with proofs about it. The
repository loads CVE JSON 5 records into PostgreSQL and serves them through a small
Flask site.

- `import_cve_to_postgres/import_cve_simple.py`
  - `extract_cve_info` turns one record into `(cve_id, affected_package, score)`
    rows. It resolves the CVSS score and guesses a package name from the
    descriptions when the product is "n/a".
  - `process_all_files` walks the corpus and bulk-inserts the rows into
    `cve_simple` with `ON CONFLICT DO NOTHING`. `cve_id` is `UNIQUE` there.
- `import_cve_to_postgres/import_vendors.py`
  - `extract_vendors` turns one record into distinct `(cve_id, vendor)` pairs.
  - `process_all_files` bulk-inserts the pairs into `vendors`. That table has a
    serial key and a foreign key to `cve_simple`.
- `flask_app/app.py`
  - `index` builds the filtered, paginated listing query and its count query. It
    runs them with the vendor dropdown query and falls back to an empty page on
    any database error.
  - `cve_detail` shows one CVE with its vendors, or redirects to the index.

Modules:

| file | module | what it holds |
|---|---|---|
| `json.dfy` | `Json`, `Corpus` | JSON values and the Python operations the extractors apply to them. Python `None` and JSON `null` are one value, `JNull`. A raised exception is `Err`. A dict keeps `json.load`'s key order, and a repeated key resolves to its last occurrence. `Corpus.SourceFile` is one visited file: its name and, if it opened and parsed, its document. |
| `patterns.dfy` | `Patterns` | The two `guess_package` regular expressions, `The ([\w:.:\-]+) package` and `([\w:.:\-]+) for [A-Za-z]+`. Each has a declarative match predicate and a scanner proved to find the leftmost match and its greedy group. |
| `cve_simple.dfy` | `CveSimple` | `extract_cve_info` as functions: score resolution for both `metrics` shapes, `guess_package`, and the row loop. Also the Python loops as methods proved equal to those functions, and the walk's batch. |
| `vendors.dfy` | `Vendors` | `extract_vendors`, specified up to the unspecified iteration order of a Python `set`, and the vendor walk. |
| `loader.dfy` | `Loader` | The two tables and the two bulk inserts, as class `ImportDb`. `cve_simple` is a map keyed by `cve_id`, so the first write wins. `vendors` is an append-only sequence with serial ids and the foreign-key check. |
| `sql.dfy` | `Sql` | What the web layer's queries return, as an interpreter over a store snapshot. It covers `ILIKE`, the `ORDER BY` string order, the left-joined vendor slots, `GROUP BY`, `COUNT(DISTINCT …)`, `LIMIT`/`OFFSET` and left-to-right placeholder binding. |
| `app.dfy` | `App` | The query builder as an imperative method. Also an independent reference semantics for the listing, the count and the dropdown, the proofs that the built queries compute them, pagination, and class `Connection` with `index` and `cve_detail` as methods. |

Inputs that are not data become parameters:
- The corpus is a sequence of `SourceFile`s in visit order.
- The database is the `ImportDb` object or a `Sql.Store` snapshot.
- Whether the connection fails is the `broken` flag of a `Connection`.

`guess_package()` is pure. So the row functions (`CveSimple.ItemRows`,
`CveSimple.BuildRows`) take what it returns or raises as a value,
`CveSimple.Guess`. They consult that value only for an "n/a" product, which is
the one case in which the code calls it.

## Behaviour a reader might not expect

Each point states what the code does where a natural reading of the project
suggests otherwise. The model follows the code.

- **Score search.** It is not the first version key with any entry that decides the score. A `baseScore` of `null` leaves `score` as `None`, so the search goes on to the next key or object (`CveSimple.DictScoreNone`, `CveSimple.ListScorePriority`).
- **Exceptions.** Extraction can raise. A non-dict `affected` item, a non-string product and similar shapes raise inside `extract_cve_info` and `extract_vendors`. A non-dict record also raises inside `extract_vendors`. The walk catches each of these and drops the whole file (`CveSimple.FailedFileSkipped`).
- **Rows per affected entry.** Not every affected entry gives a row. Only entries with a truthy product give one, and only when the record has a truthy `cveId` (`CveSimple.RowsFollowAffected`).
- **Re-import.** Re-running the import is idempotent for `cve_simple` only (`Loader.CveImportIdempotent`). `vendors` has no unique key besides its serial id, so re-importing appends every pair again under new ids (`Loader.VendorReimportDuplicates`).
- **Connection failures.** An unreachable store does not give a degraded page. `get_connection()` runs before the `try` in both views (app.py:88, 128), so a failed connect raises out of the view. The model's `broken` flag covers failures inside the `try` only.
- **Huge page numbers.** `LIMIT` and `OFFSET` are `bigint` in PostgreSQL. A page number above 922337203685477581 makes `(page - 1) * 10` overflow, so the listing query fails and `index` shows the empty fallback page (`App.HugePageFallsBack`).

## Model

| member | source | states |
|---|---|---|
| Json.DictGet | import_cve_to_postgres/import_cve_simple.py:37-40 | `.get(key, default)` succeeds exactly on a dict. It returns the default when no field has the key, and otherwise the value of the last field with the key, as `json.load` keeps the last duplicate. |
| Json.DictGetIsLookup | import_cve_to_postgres/import_cve_simple.py:37-40 | Helper for the score and row proofs: on a dict, `.get(key, default)` is the last field with the key, or the default. |
| Json.Iter | import_cve_to_postgres/import_cve_simple.py:72 | `for x in v` works on a list, a string or a dict and raises otherwise. A list yields its items. A string or dict yields only strings (characters or keys). |
| Json.Contains | import_cve_to_postgres/import_cve_simple.py:55 | `'baseScore' in metric` is true on a dict exactly when some field has the key, and on a list exactly when some item is that string. On a string it is a substring search. It raises on anything else. |
| Json.Subscript | import_cve_to_postgres/import_cve_simple.py:56 | `metric['baseScore']` succeeds exactly on a dict with a field of that key. It returns the value of the last such field. |
| Json.Lower | import_cve_to_postgres/import_cve_simple.py:74 | `.lower()` succeeds exactly on a string. The result has the same length, each ASCII capital becomes the letter 32 code points above it, and every other character is unchanged. |
| Patterns.ThePackageAt | import_cve_to_postgres/import_cve_simple.py:64 | A match of `The X package` starts at `i` exactly when this returns a group. The group is the text between "The " and " package". |
| Patterns.ThePackageGroupUnique | import_cve_to_postgres/import_cve_simple.py:64 | At a given start, the greedy group of `The ([\w:.:\-]+) package` has only one possible length. |
| Patterns.ThePackageAtComplete | import_cve_to_postgres/import_cve_simple.py:64 | Every match at `i` ends its group where the run of name characters ends. |
| Patterns.ForAt | import_cve_to_postgres/import_cve_simple.py:67 | A match of `X for <letters>` starts at `i` exactly when this returns a group. The group is the name-character run before " for ". |
| Patterns.ForGroupUnique | import_cve_to_postgres/import_cve_simple.py:67 | At a given start, the group of `([\w:.:\-]+) for [A-Za-z]+` has only one possible length. |
| Patterns.ForAtComplete | import_cve_to_postgres/import_cve_simple.py:67 | Every match at `i` ends its group where the run of name characters ends. |
| Patterns.SearchThePackage | import_cve_to_postgres/import_cve_simple.py:64-66 | `re.search` finds the leftmost match, and no earlier position matches. None means no position matches at all. |
| Patterns.SearchFor | import_cve_to_postgres/import_cve_simple.py:67-69 | `re.search` finds the leftmost match, and no earlier position matches. None means no position matches at all. |
| Patterns.GroupsAreNonEmpty | import_cve_to_postgres/import_cve_simple.py:65-69 | A found group is never empty, so `if m:` and `guess_package() or 'n/a'` never see an empty name. |
| Patterns.LeadingThePackage | import_cve_to_postgres/import_cve_simple.py:64-66 | A description starting "The openssl package …" yields exactly the name, here "openssl". |
| Patterns.LeadingMatch | import_cve_to_postgres/import_cve_simple.py:64 | Helper for `Patterns.LeadingThePackage`: "The X package…", with X a non-empty run of name characters, matches at position 0 with X as its group. |
| CveSimple.FirstScoredMeaning | import_cve_to_postgres/import_cve_simple.py:45-48 | The inner loop takes the `baseScore` of the first dict entry that has the key, even a null one. Every earlier entry is a non-dict or lacks the key. |
| CveSimple.ResolveScore | import_cve_to_postgres/import_cve_simple.py:41-59 | The two nested searches with `break`, as loops, compute the score `CveSimple.Score` specifies, including when they raise. |
| CveSimple.SearchDict | import_cve_to_postgres/import_cve_simple.py:44-50 | The loop over the three version keys, with its `break`, computes the dict-shaped score `CveSimple.DictScore` specifies. |
| CveSimple.SearchEntries | import_cve_to_postgres/import_cve_simple.py:45-48 | The inner loop over one key's entries stops at the first dict entry holding `baseScore`, as `CveSimple.FirstScored` specifies. |
| CveSimple.SearchList | import_cve_to_postgres/import_cve_simple.py:52-59 | The loop over list-shaped metrics, with its `break`, computes the score `CveSimple.ListScore` specifies, raising where it does. |
| CveSimple.SearchObject | import_cve_to_postgres/import_cve_simple.py:53-57 | The loop over one metric object's version keys gives the hit `CveSimple.ObjHit` specifies. `.get` on a non-dict object raises. |
| CveSimple.KeyHits | import_cve_to_postgres/import_cve_simple.py:44 | Helper for `CveSimple.DictScoreIsFirstDecisive`: There is one hit per version key, in the order of the key list. |
| CveSimple.DictScoreIsFirstDecisive | import_cve_to_postgres/import_cve_simple.py:43-50 | Helper for `CveSimple.DictScoreFromFirstDecisive`: The dict search is the first decisive hit over the version keys' hits. |
| CveSimple.FirstDecisiveFrom | import_cve_to_postgres/import_cve_simple.py:43-59 | Helper for `CveSimple.DictScoreFromFirstDecisive`: A non-null score comes from the first decisive hit. Every earlier hit found nothing without raising. |
| CveSimple.FirstDecisiveAt | import_cve_to_postgres/import_cve_simple.py:43-59 | Helper for `CveSimple.DictScoreAtFirstDecisive`: A decisive hit preceded only by empty-handed hits determines the score. |
| CveSimple.FirstDecisiveNone | import_cve_to_postgres/import_cve_simple.py:43-59 | Helper for `CveSimple.DictScoreNone`: The score stays None exactly when every hit comes back empty-handed without raising. |
| CveSimple.MissingMetricsScoreNone | import_cve_to_postgres/import_cve_simple.py:39-59 | A record without `metrics` (default `{}`), or with an empty list of them, has score None. |
| CveSimple.DictScoreFromFirstDecisive | import_cve_to_postgres/import_cve_simple.py:43-50 | A non-null score from a dict of metrics comes from the first version key that gives a non-null `baseScore`. Every earlier key searched cleanly and found none. |
| CveSimple.DictScoreAtFirstDecisive | import_cve_to_postgres/import_cve_simple.py:43-50 | Conversely, if earlier keys found no non-null score, the first key that finds one determines the result. With the key list this is the priority cvssV3_1, then cvssV3_0, then cvssV2_0. |
| CveSimple.DictScoreNone | import_cve_to_postgres/import_cve_simple.py:43-50 | The score stays None exactly when every version key finds no non-null score without raising. |
| CveSimple.ListScorePriority | import_cve_to_postgres/import_cve_simple.py:51-59 | For a list of metric objects, list order decides. The first object with a non-null hit gives the score, and all earlier objects had none. The score is None exactly when no object has a hit. |
| CveSimple.ObjHitKeyOrder | import_cve_to_postgres/import_cve_simple.py:53-57 | Within one metric object, the hit comes from the first version key whose metric passes `metric and 'baseScore' in metric`. Every earlier key passes nothing. |
| CveSimple.ObjHits | import_cve_to_postgres/import_cve_simple.py:53-57 | Helper for `CveSimple.ListScorePriority`: one hit per metric object of the list, in list order. |
| CveSimple.ListScoreIsFirstDecisive | import_cve_to_postgres/import_cve_simple.py:51-59 | Helper for `CveSimple.ListScorePriority`: the list search is the first decisive hit over the objects' hits. |
| CveSimple.MetricHits | import_cve_to_postgres/import_cve_simple.py:53-57 | Helper for `CveSimple.ObjHitKeyOrder`: one hit per version key of one metric object, in key order. |
| CveSimple.ObjHitIsFirstSome | import_cve_to_postgres/import_cve_simple.py:53-57 | Helper for `CveSimple.ObjHitKeyOrder`: the search of one dict object is the first hit that raises or finds a metric. |
| CveSimple.FirstSomeFrom | import_cve_to_postgres/import_cve_simple.py:53-57 | Helper for `CveSimple.ObjHitKeyOrder`: a found metric is the first hit that is not empty-handed. |
| CveSimple.ScoreNoneCases | import_cve_to_postgres/import_cve_simple.py:41-59 | `metrics` that is neither a dict nor a list gives no score. Otherwise the score is None exactly when no key or object decides. |
| CveSimple.DictPrefersV31 | import_cve_to_postgres/import_cve_simple.py:43-50 | `{cvssV2_0: low, cvssV3_1: high}` scores `high`, whatever the key order in the record. |
| CveSimple.ListPrefersFirstObject | import_cve_to_postgres/import_cve_simple.py:51-59 | For list-shaped metrics, the first object's cvssV2_0 score wins over a later object's cvssV3_1 score. |
| CveSimple.DescGuess | import_cve_to_postgres/import_cve_simple.py:63-69 | One description succeeds exactly when it is a dict whose `value` (default "") is a string. The "The X package" match is preferred, and "X for …" is tried only when there is none. |
| CveSimple.GuessFirstMatch | import_cve_to_postgres/import_cve_simple.py:61-70 | `guess_package` returns the guess of the first description that yields one, after only empty-handed descriptions. It returns None exactly when none yields one. It raises only at a description that raises. |
| CveSimple.GuessNone | import_cve_to_postgres/import_cve_simple.py:61-70 | `guess_package` returns None exactly when every description yields None. |
| CveSimple.GuessStops | import_cve_to_postgres/import_cve_simple.py:61-70 | A guess or a raise comes from the first description that does not yield None. Every earlier description yields None. |
| CveSimple.NASpellings | import_cve_to_postgres/import_cve_simple.py:74 | `product.lower() == 'n/a'` accepts exactly the four spellings n/a, N/a, n/A and N/A. |
| CveSimple.RowsFollowAffected | import_cve_to_postgres/import_cve_simple.py:71-77 | There are no rows without a truthy `cve_id`. Otherwise there is one row per truthy product, in order, with duplicates kept and the record's id and score. An "n/a" product becomes the guess or "n/a"; any other product passes unchanged. |
| CveSimple.BuildRowsFit | import_cve_to_postgres/import_cve_simple.py:71-77 | The rows of a list of items are those their truthy products yield, one each, in order. |
| CveSimple.ItemRowsFit | import_cve_to_postgres/import_cve_simple.py:73-77 | Helper for `CveSimple.BuildRowsFit`: One item yields at most its truthy product's row, with the record's id and score and the guess for "n/a". |
| CveSimple.RowsFitConcat | import_cve_to_postgres/import_cve_simple.py:71-77 | Helper for `CveSimple.BuildRowsFit`: Rows that fit two runs of products concatenate to rows that fit the joined run. |
| CveSimple.FalsyProductNoRow | import_cve_to_postgres/import_cve_simple.py:73-77 | An item without a truthy product adds no row and never consults the guess. |
| CveSimple.NoRowsWithoutDocumentOrId | import_cve_to_postgres/import_cve_simple.py:35-37 | A non-dict record yields `[]`. Any row carries the record's truthy `cveMetadata.cveId`. |
| CveSimple.ExtractCveInfo | import_cve_to_postgres/import_cve_simple.py:34-78 | `extract_cve_info`, statement by statement, returns what `CveSimple.CveRows` specifies, raising exactly where it does. |
| CveSimple.CollectRows | import_cve_to_postgres/import_cve_simple.py:71-77 | The append loop over `affected` computes the rows `CveSimple.BuildRows` specifies. A raise in any item discards the rows collected so far. |
| CveSimple.AppendItemRows | import_cve_to_postgres/import_cve_simple.py:72-77 | One pass of the loop body appends the item's row, if any, to `results`, or raises as `CveSimple.ItemRows` does. |
| CveSimple.ResolveName | import_cve_to_postgres/import_cve_simple.py:73-75 | The product resolves as `CveSimple.ResolveProduct` specifies, calling `guess_package` only for "n/a". |
| CveSimple.BuildRowsConcat | import_cve_to_postgres/import_cve_simple.py:71-77 | Helper for `CveSimple.RowsPrefixStep`: The rows of two runs of items are the first run's rows followed by the second's. A raise in either run raises. |
| CveSimple.RowsPrefixStep | import_cve_to_postgres/import_cve_simple.py:71-77 | Helper for `CveSimple.CollectRows`: One more item appends its rows to the prefix's rows. An item that raises makes the whole loop raise. |
| CveSimple.Accumulate | import_cve_to_postgres/import_cve_simple.py:82-93 | The walk's `to_insert` is the concatenation of the rows of the `.json` files that open, parse and extract, in visit order. |
| CveSimple.ReadFile | import_cve_to_postgres/import_cve_simple.py:85-93 | One visited file adds exactly the rows `CveSimple.FileRows` specifies. An exception adds none. |
| CveSimple.BatchSnoc | import_cve_to_postgres/import_cve_simple.py:82-91 | Helper for `CveSimple.Accumulate`: One more visited file appends its rows to the batch. |
| CveSimple.BatchPrefixStep | import_cve_to_postgres/import_cve_simple.py:82-91 | Helper for `CveSimple.Accumulate`: The batch of the first i+1 files is that of the first i files followed by file i's rows. |
| CveSimple.BatchConcat | import_cve_to_postgres/import_cve_simple.py:82-91 | The batch of two runs of files is the concatenation of their batches. |
| CveSimple.FailedFileSkipped | import_cve_to_postgres/import_cve_simple.py:85-93 | A file that is not `.json`, or fails to open, parse or extract, leaves the other files' rows exactly as if it were absent. |
| Vendors.VendorsOfMeaning | import_cve_to_postgres/import_vendors.py:35-38 | The vendor loop succeeds exactly when every item is a dict whose truthy vendor is hashable. The set is then exactly the truthy vendor values. |
| Vendors.VendorsOfStep | import_cve_to_postgres/import_vendors.py:35-38 | One iteration either raises or adds the item's vendor when it is truthy. |
| Vendors.CollectVendors | import_cve_to_postgres/import_vendors.py:34-38 | The `vendors.add` loop computes the set `Vendors.VendorsOf` specifies. |
| Vendors.VendorMembership | import_cve_to_postgres/import_vendors.py:32-38 | A value is in a record's vendor set exactly when it is truthy and is the `vendor` of some affected item. |
| Vendors.PairUp | import_cve_to_postgres/import_vendors.py:39 | The comprehension pairs every vendor with the record's id, with no vendor twice. It yields nothing for a falsy id. |
| Vendors.ExtractVendors | import_cve_to_postgres/import_vendors.py:31-39 | `extract_vendors` succeeds exactly when the vendor set does. It yields each distinct truthy vendor once, paired with the id, and nothing when the id is falsy. |
| Vendors.FilePairs | import_cve_to_postgres/import_vendors.py:45-53 | One visited file contributes its pairs if it is `.json` and opens, parses and extracts, and nothing otherwise. |
| Vendors.AccumulateVendors | import_cve_to_postgres/import_vendors.py:41-53 | The walk's `to_insert` is the concatenation, in visit order, of one chunk per file, each as `Vendors.FilePairs` states. |
| Vendors.ConcatSnoc | import_cve_to_postgres/import_vendors.py:51 | Helper for `Vendors.AccumulateVendors`: Extending the batch by one file's pairs appends them at the end. |
| Vendors.ChunksSnoc | import_cve_to_postgres/import_vendors.py:47-51 | Helper for `Vendors.AccumulateVendors`: Appending the next file's chunk keeps every earlier chunk paired with its own file. |
| Vendors.BatchPairs | import_cve_to_postgres/import_vendors.py:41-53 | A pair is in the batch exactly when some contributing file has that id and names that vendor. |
| Loader.InsertKeepsStored | import_cve_to_postgres/import_cve_simple.py:97-101 | `ON CONFLICT DO NOTHING` on the unique `cve_id` never changes a stored row. |
| Loader.InsertKeys | import_cve_to_postgres/import_cve_simple.py:97-101 | After the insert, the stored ids are the old ids plus the batch's ids. |
| Loader.InsertFirstWins | import_cve_to_postgres/import_cve_simple.py:26 | For an id not yet stored, the first row of the batch with that id is the one kept. Later rows with the same id are ignored. |
| Loader.InsertStoredIsNoop | import_cve_to_postgres/import_cve_simple.py:97-101 | A batch whose ids are all stored changes nothing. |
| Loader.InsertIdempotent | import_cve_to_postgres/import_cve_simple.py:97-101 | Inserting the same batch twice leaves the table as inserting it once. |
| Loader.CveImportIdempotent | import_cve_to_postgres/import_cve_simple.py:81-102 | Re-importing an unchanged corpus leaves `cve_simple` unchanged. |
| Loader.NumberedKeepsIds | import_cve_to_postgres/import_vendors.py:23 | Appending a batch numbered from the serial counter keeps the ids increasing and below the counter. |
| Loader.VendorReimportDuplicates | import_cve_to_postgres/import_vendors.py:56-60 | Inserting a vendor batch twice stores each pair twice under two different serial ids, since `ON CONFLICT DO NOTHING` has no unique key to fire on. |
| Loader.VendorWithoutProduct | import_cve_to_postgres/import_vendors.py:35-39 | A record whose affected item has a vendor but no product yields no `cve_simple` row and one vendor pair. |
| Loader.NoRowWithoutProduct | import_cve_to_postgres/import_cve_simple.py:71-77 | A record whose only affected item has a vendor but no product yields no `cve_simple` row. |
| Loader.ImportDb.constructor | import_cve_to_postgres/import_cve_simple.py:21-31 | The tables start empty, with the serial counter at 1. |
| Loader.ImportDb.InsertCves | import_cve_to_postgres/import_cve_simple.py:96-102 | One statement inserts the batch row by row with first-write-wins. `vendors` and the serial counter are left alone. |
| Loader.ImportDb.InsertVendors | import_cve_to_postgres/import_vendors.py:55-61 | The statement succeeds exactly when every pair's id is in `cve_simple`. It then appends the pairs with consecutive serial ids. Otherwise nothing changes. The foreign key holds afterwards. |
| Loader.ImportDb.ImportCves | import_cve_to_postgres/import_cve_simple.py:81-102 | The table becomes the old table with the corpus batch inserted. A statement is issued only for a non-empty batch. |
| Loader.ImportDb.ImportVendors | import_cve_to_postgres/import_vendors.py:41-61 | The batch is one chunk per file as extracted. The insert is all-or-nothing on the foreign key, `cve_simple` is untouched, and a statement is issued only for a non-empty batch. |
| Sql.LikeLiteralPrefix | flask_app/app.py:45 | For a wildcard-free `v`, `LIKE v%` is a prefix test. |
| Sql.LikeAnyRest | flask_app/app.py:45 | `%` matches every string. |
| Sql.LikeLeadingPercent | flask_app/app.py:45 | `%q` matches exactly when some suffix matches `q`. |
| Sql.LowerKeepsWildcardFree | flask_app/app.py:45 | Helper for `Sql.ILikeContains`: Lowering a wildcard-free filter keeps it wildcard-free. |
| Sql.LowerConcat | flask_app/app.py:45 | Helper for `Sql.ILikeContains`: Lowering distributes over concatenation. |
| Sql.ILikeContains | flask_app/app.py:45-46 | For a wildcard-free vendor filter `v`, `ILIKE '%v%'` is exactly a case-insensitive substring test. |
| Sql.StrLeTotal | flask_app/app.py:59 | The `ORDER BY` string order is total. |
| Sql.StrLeTrans | flask_app/app.py:59 | The `ORDER BY` string order is transitive. |
| Sql.StrLeAntisym | flask_app/app.py:59 | The `ORDER BY` string order is antisymmetric. |
| Sql.InsertBy | flask_app/app.py:59 | Inserting into a sorted result keeps it sorted and adds exactly that element. |
| Sql.SortBy | flask_app/app.py:59 | `ORDER BY` returns a sorted permutation of its input. |
| Sql.Page | flask_app/app.py:60 | `LIMIT n OFFSET o` returns at most `n` rows, those from position `o` on. It is empty when `o` is past the end. |
| Sql.DistinctNames | flask_app/app.py:101-106 | `SELECT DISTINCT vendor_name` lists every stored name exactly once. |
| Sql.NamesInOrder | flask_app/app.py:143-148 | The detail page's vendor query returns exactly the names stored for that id. |
| Sql.RunNeedsAllParams | flask_app/app.py:92-97 | `execute` succeeds only when the number of `%s` equals the number of parameters. |
| Sql.ListingNeedsAllParams | flask_app/app.py:97 | For the listing query, success implies one parameter per placeholder. |
| Sql.CountNeedsAllParams | flask_app/app.py:92 | For the count query, success implies one parameter per placeholder. |
| App.FlagSpellings | flask_app/app.py:49 | A flag argument means True exactly for the sixteen case spellings of "true". |
| App.BuildQueries | flask_app/app.py:24-86 | The builder appends a clause and a parameter only for a non-empty argument, in the order vendor, exploit, fix. Grouping, ordering and the page parameters follow. The count query gets the same conditions without them. |
| App.ConditionsFollowArguments | flask_app/app.py:44-56 | A condition is present exactly when its argument is non-empty, with one parameter per condition. The vendor condition is first with parameter `'%'+v+'%'`, and fix is last with its parsed flag. |
| App.WherePlaceholders | flask_app/app.py:44-56 | Each appended condition adds exactly one placeholder. |
| App.PlaceholdersMatchParams | flask_app/app.py:43-86 | For any arguments, both queries have exactly as many `%s` as parameters. |
| App.HoldsAllMeaning | flask_app/app.py:40-56 | A joined row passes all bound conditions exactly when its vendor matches the `ILIKE` filter and each set flag equals the CVE's stored status. A NULL status never matches. |
| App.SurvivorsMeaning | flask_app/app.py:35-58 | A CVE has a surviving joined row exactly when it matches the filters. Its aggregated vendors are then exactly the names the vendor filter lets through. |
| App.GroupedIsMatching | flask_app/app.py:32-58 | Grouping the surviving joined rows gives, in table order, one row per matching CVE. |
| App.FilterBinds | flask_app/app.py:43-56 | Each parameter binds to its condition with the right type. |
| App.ListingBindsAll | flask_app/app.py:97 | Binding the condition parameters left to right gives the filters' bound conditions. |
| App.BindAllStep | flask_app/app.py:92-97 | Helper for `App.ListingBindsAll`: Binding the first condition, then the rest, binds them all, in order. |
| App.PageRange | flask_app/app.py:29-30 | A page's offset fits PostgreSQL's `bigint` `OFFSET` exactly when the page is between 1 and 922337203685477581. |
| App.ListingTail | flask_app/app.py:59-61 | Helper for `App.ListQueryMeaning`: `ORDER BY cve_id LIMIT 10 OFFSET o` over the grouped rows succeeds exactly when `o` is a non-negative `bigint`. |
| App.CountBindsAll | flask_app/app.py:92 | Binding the count parameters left to right gives the same bound conditions. |
| App.ListQueryMeaning | flask_app/app.py:32-61 | The listing query returns page `page` of the matching CVEs ordered by id, 10 rows from offset `(page-1)*10`. It fails exactly when `page < 1` (a negative offset) or `page > 922337203685477581` (an offset beyond `bigint`). |
| App.CountQueryMeaning | flask_app/app.py:64-86 | The count query returns the number of distinct ids of the CVEs matching the filters. |
| App.MatchingCount | flask_app/app.py:65 | With distinct ids, the matching rows are as many as their distinct ids. |
| App.MatchIdsCons | flask_app/app.py:65 | Helper for `App.MatchingCount`: With distinct ids, the first row adds its id to the rest's matching ids exactly when it matches, and that id is new. |
| App.CountIsListingLength | flask_app/app.py:65 | With unique `cve_id`s, the count equals the length of the full ordered listing. |
| App.MatchingMembers | flask_app/app.py:32-59 | A row is in the listing exactly when it is the view of a matching CVE. |
| App.ListingMembers | flask_app/app.py:32-59 | The listing is ordered by `cve_id` and holds exactly the views of the matching CVEs. |
| App.VendorColumnShowsMatchesOnly | flask_app/app.py:35-46 | With a wildcard-free vendor filter, every listed row shows only vendor names containing the filter case-insensitively, because the filter applies before `GROUP BY`. |
| App.TotalPagesIsCeiling | flask_app/app.py:94 | `(count + 9) // 10` is the ceiling of count/10, and zero exactly when the count is zero. |
| App.PagesCoverListing | flask_app/app.py:28-29 | Every page up to `total_pages` is non-empty, and every later page is empty. Each listed CVE appears on the page `k // 10 + 1`. |
| App.DropdownMeaning | flask_app/app.py:101-106 | The dropdown lists each stored vendor name exactly once, in `ORDER BY` order. |
| App.HugePageFallsBack | flask_app/app.py:97-111 | Page 922337203685477582 falls back to `([], [], 1)`, while page 922337203685477581 still shows the dropdown. |
| App.Connection.constructor | flask_app/app.py:88 | A connection is opened on a store, unclosed. |
| App.Connection.Execute | flask_app/app.py:92-105 | `cur.execute` fails on a broken connection and otherwise returns what the query computes on the store. |
| App.Connection.Close | flask_app/app.py:113 | `conn.close()` counts one close and changes nothing else. |
| App.Index | flask_app/app.py:21-124 | Gives the requested page of matching CVEs, the dropdown and `total_pages`, or `([], [], 1)` on any database error, including a page whose offset is negative or beyond `bigint`. The connection is closed exactly once either way. |
| App.DetailsOfMeaning | flask_app/app.py:132-140 | The detail query returns the stored CVE rows with that id, with their exploit and fix status. |
| App.CveDetail | flask_app/app.py:126-159 | Shows the first matching record with its vendors, and redirects when there is none or on a database error. The connection is closed exactly once. |
| App.DetailShowsStoredRecord | flask_app/app.py:132-157 | On a working connection the page shows a record exactly when that id is stored. The record then has the id, and its vendors are exactly the names stored for it. |

## Left out

- Database I/O, DDL and connection set-up are not modelled. `get_connection`, `create_table` and `create_vendors_table` become the initial state of `Loader.ImportDb` and the `broken` flag of `App.Connection`.
- A connection failure outside the `try` is not modelled (app.py:88, 128). The view raises there instead of falling back.
- `os.walk`, `open` and `json.load` are not modelled. The corpus is a sequence of `SourceFile`s in visit order, and a file that fails to open or parse has no content. The walk's order is not modelled.
- The `print` diagnostics, the `__main__` blocks and the command-line year argument are not modelled.
- `\w` in the two `guess_package` patterns is ASCII letters, digits and `_`. Python's Unicode word characters are not modelled.
- `str.lower` lowers ASCII only. For the comparisons with "n/a" and "true" this changes no outcome, because no other character lowers to those letters. For `ILIKE` it leaves PostgreSQL's locale-dependent case folding unmodelled.
- `Vendors.ExtractVendors`: a Python `set` compares `True == 1` and `1.0 == 1` as equal. The model compares JSON values structurally, so such a pair of vendors stays two.
- `Vendors.ExtractVendors`: iteration order of the vendor set is not modelled. The contract fixes the pairs up to order.
- Score values are carried as the JSON value found. PostgreSQL's conversion of a non-numeric score or a non-string `cve_id` (which would fail the bulk insert) is not modelled.
- `Loader.ImportDb.InsertCves`: the `cve_simple` serial `id` is not modelled.
- `Loader.ImportDb.InsertVendors`: serial values that PostgreSQL consumes on a failed insert are not modelled. The counter advances only when the statement succeeds.
- `Loader.ImportDb.InsertVendors`: a failed insert leaves the state unchanged. In the source the exception then escapes `process_all_files`, which is not modelled.
- `execute_values` splitting the batch into pages of 100 rows is not modelled. All pages run in one transaction, committed once, so all-or-nothing holds as modelled.
- `Sql.SortBy`: `ORDER BY` uses code-point order (the "C" collation). Locale collations are not modelled.
- `string_agg(DISTINCT …, ', ')` is not rendered as a string. It is modelled as the set of names, with no vendor as the empty set.
- The two status tables are modelled as maps keyed by `cve_id`. Their DDL is not part of this model.
- `Sql.ILikeContains`: holds only for filters without `%`, `_` or `\`. The source does not escape these, so a filter containing them acts as a pattern. `Sql.Like` models that pattern. A pattern ending in a lone backslash, which PostgreSQL rejects, cannot arise, because the parameter always ends in `%`.
- `request.args.get('page', 1, type=int)` parsing is not modelled. `page` is an integer parameter.
- Template rendering and the echoed filter arguments are not modelled.
- `App.CveDetail`: the detail page's vendors come in table order. The model specifies them as a sequence holding exactly the stored names.
