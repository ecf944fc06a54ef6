/** The part of PostgreSQL the web application relies on: the four tables it
    reads, `ILIKE` matching, ordering of text by code point, and the
    queries the application sends, as clause lists with `%s` placeholders
    bound in order. */
module Sql {
  import opened Json

  // ---------------------------------------------------------------------
  // LIKE / ILIKE
  // ---------------------------------------------------------------------

  /** `s LIKE p`: `%` matches any run of characters, `_` any one character,
      a backslash makes the next pattern character literal. */
  function Like(s: string, p: string): bool
    decreases |s| + |p|
  {
    if p == [] then s == []
    else if p[0] == '%' then Like(s, p[1..]) || (s != [] && Like(s[1..], p))
    else if s == [] then false
    else if p[0] == '_' then Like(s[1..], p[1..])
    else if p[0] == '\\' && |p| >= 2 then s[0] == p[1] && Like(s[1..], p[2..])
    else s[0] == p[0] && Like(s[1..], p[1..])
  }

  /** `s ILIKE p`: LIKE after case folding both sides. */
  function ILike(s: string, p: string): bool {
    Like(LowerStr(s), LowerStr(p))
  }

  /** No character of `v` is special in a LIKE pattern. */
  predicate WildcardFree(v: string) {
    forall i :: 0 <= i < |v| ==> v[i] != '%' && v[i] != '_' && v[i] != '\\'
  }

  /** A wildcard-free pattern followed by `%` matches exactly the strings it
      starts. */
  lemma {:induction false} LikeLiteralPrefix(s: string, v: string)
    requires WildcardFree(v)
    ensures Like(s, v + "%") <==> |v| <= |s| && s[..|v|] == v
    decreases |v|
  {
    if v == [] {
      assert v + "%" == "%";
      LikeAnyRest(s);
    } else {
      assert (v + "%")[0] == v[0];
      assert (v + "%")[1..] == v[1..] + "%";
      if s != [] {
        LikeLiteralPrefix(s[1..], v[1..]);
        if |v| <= |s| {
          assert s[..|v|] == [s[0]] + s[1..][..|v| - 1];
          assert v == [v[0]] + v[1..];
        }
      }
    }
  }

  /** `%` alone matches every string. */
  lemma {:induction false} LikeAnyRest(s: string)
    ensures Like(s, "%")
    decreases |s|
  {
    if s != [] {
      LikeAnyRest(s[1..]);
    }
  }

  /** A leading `%` matches when the rest of the pattern matches some
      suffix. */
  lemma {:induction false} LikeLeadingPercent(s: string, q: string)
    ensures Like(s, "%" + q) <==> exists i :: 0 <= i <= |s| && Like(s[i..], q)
    decreases |s|
  {
    var p := "%" + q;
    assert p[0] == '%' && p[1..] == q;
    assert s[0..] == s;
    if s != [] {
      LikeLeadingPercent(s[1..], q);
      assert forall i :: 1 <= i <= |s| ==> s[1..][i - 1..] == s[i..];
    }
  }

  /** Lowering keeps a pattern free of wildcards. */
  lemma LowerKeepsWildcardFree(v: string)
    requires WildcardFree(v)
    ensures WildcardFree(LowerStr(v))
  {
  }

  /** Lowering distributes over concatenation. */
  lemma LowerConcat(a: string, b: string)
    ensures LowerStr(a + b) == LowerStr(a) + LowerStr(b)
  {
  }

  /** `s ILIKE '%' || v || '%'` for a wildcard-free `v` is a case-insensitive
      substring test. */
  lemma ILikeContains(s: string, v: string)
    requires WildcardFree(v)
    ensures ILike(s, "%" + v + "%") <==> IsInfix(LowerStr(v), LowerStr(s))
  {
    var t := LowerStr(s);
    var w := LowerStr(v);
    LowerConcat("%" + v, "%");
    LowerConcat("%", v);
    assert LowerStr("%") == "%";
    assert LowerStr("%" + v + "%") == "%" + (w + "%");
    LowerKeepsWildcardFree(v);
    LikeLeadingPercent(t, w + "%");
    forall i | 0 <= i <= |t|
      ensures Like(t[i..], w + "%") <==> OccursAt(w, t, i)
    {
      LikeLiteralPrefix(t[i..], w);
      if |w| <= |t[i..]| {
        assert t[i..][..|w|] == t[i..i + |w|];
      }
    }
    if IsInfix(w, t) {
      var i :| 0 <= i <= |t| - |w| && OccursAt(w, t, i);
      assert Like(t[i..], w + "%");
    }
  }

  // ---------------------------------------------------------------------
  // Ordering of text (code-point order, the "C" collation)
  // ---------------------------------------------------------------------

  predicate StrLe(a: string, b: string)
    decreases |a|
  {
    if a == [] then true
    else if b == [] then false
    else if a[0] < b[0] then true
    else a[0] == b[0] && StrLe(a[1..], b[1..])
  }

  lemma {:induction false} StrLeTotal(a: string, b: string)
    ensures StrLe(a, b) || StrLe(b, a)
    decreases |a|
  {
    if a != [] && b != [] && a[0] == b[0] {
      StrLeTotal(a[1..], b[1..]);
    }
  }

  lemma {:induction false} StrLeTrans(a: string, b: string, c: string)
    requires StrLe(a, b) && StrLe(b, c)
    ensures StrLe(a, c)
    decreases |a|
  {
    if a != [] && b != [] && c != [] && a[0] == b[0] && b[0] == c[0] {
      StrLeTrans(a[1..], b[1..], c[1..]);
    }
  }

  lemma {:induction false} StrLeAntisym(a: string, b: string)
    requires StrLe(a, b) && StrLe(b, a)
    ensures a == b
    decreases |a|
  {
    if a != [] && b != [] {
      StrLeAntisym(a[1..], b[1..]);
      assert a == [a[0]] + a[1..] && b == [b[0]] + b[1..];
    }
  }

  /** `xs` is ordered by `key`. */
  ghost predicate SortedBy<T>(xs: seq<T>, key: T -> string) {
    forall i, j :: 0 <= i < j < |xs| ==> StrLe(key(xs[i]), key(xs[j]))
  }

  /** Insert `x` into the ordered `xs`, before the first element it does not
      follow. */
  function InsertBy<T>(x: T, xs: seq<T>, key: T -> string): (r: seq<T>)
    requires SortedBy(xs, key)
    ensures SortedBy(r, key)
    ensures multiset(r) == multiset(xs) + multiset{x}
  {
    if xs == [] then [x]
    else if StrLe(key(x), key(xs[0])) then
      assert forall j :: 0 < j < |xs| ==> StrLe(key(xs[0]), key(xs[j]));
      InsertFirstSorted(x, xs, key);
      [x] + xs
    else
      StrLeTotal(key(x), key(xs[0]));
      assert xs == [xs[0]] + xs[1..];
      var rest := InsertBy(x, xs[1..], key);
      FollowsSorted(xs[0], rest, key, x, xs[1..]);
      [xs[0]] + rest
  }

  lemma InsertFirstSorted<T>(x: T, xs: seq<T>, key: T -> string)
    requires xs != [] && SortedBy(xs, key) && StrLe(key(x), key(xs[0]))
    ensures SortedBy([x] + xs, key)
  {
    forall j | 0 < j < |xs| ensures StrLe(key(x), key(xs[j])) {
      StrLeTrans(key(x), key(xs[0]), key(xs[j]));
    }
  }

  lemma FollowsSorted<T>(y: T, rest: seq<T>, key: T -> string, x: T, xs: seq<T>)
    requires SortedBy(rest, key)
    requires multiset(rest) == multiset(xs) + multiset{x}
    requires StrLe(key(y), key(x)) && forall j :: 0 <= j < |xs| ==> StrLe(key(y), key(xs[j]))
    ensures SortedBy([y] + rest, key)
  {
    forall j | 0 <= j < |rest| ensures StrLe(key(y), key(rest[j])) {
      assert rest[j] in multiset(rest);
      if rest[j] != x {
        assert rest[j] in multiset(xs);
        var k :| 0 <= k < |xs| && xs[k] == rest[j];
      }
    }
  }

  /** Insertion sort by `key`: an ordered permutation. */
  function SortBy<T>(xs: seq<T>, key: T -> string): (r: seq<T>)
    ensures SortedBy(r, key)
    ensures multiset(r) == multiset(xs) && |r| == |xs|
  {
    if xs == [] then []
    else
      assert xs == [xs[0]] + xs[1..];
      InsertBy(xs[0], SortBy(xs[1..], key), key)
  }

  // ---------------------------------------------------------------------
  // Tables
  // ---------------------------------------------------------------------

  /** A `cve_simple` row; `score` is a nullable REAL. */
  datatype CveRow = CveRow(cveId: string, package: string, score: Option<real>)

  /** A `vendors` row (its serial id is not read). */
  datatype VendorRow = VendorRow(cveId: string, name: string)

  /** The tables the application reads. The two status tables, keyed by
      `cve_id`, hold a nullable boolean each. */
  datatype Store = Store(
    cves: seq<CveRow>,
    exploit: map<string, Option<bool>>,
    fix: map<string, Option<bool>>,
    vendors: seq<VendorRow>)

  /** `cve_simple.cve_id` is UNIQUE. */
  predicate UniqueIds(st: Store) {
    forall i, j :: 0 <= i < j < |st.cves| ==> st.cves[i].cveId != st.cves[j].cveId
  }

  /** `ces.has_active_exploit` after the LEFT JOIN: NULL when no row. */
  function ExploitOf(st: Store, id: string): Option<bool> {
    if id in st.exploit then st.exploit[id] else None
  }

  /** `cfs.has_fix` after the LEFT JOIN. */
  function FixOf(st: Store, id: string): Option<bool> {
    if id in st.fix then st.fix[id] else None
  }

  /** The vendor names stored for `id`. */
  function NamesOf(st: Store, id: string): set<string> {
    set k | 0 <= k < |st.vendors| && st.vendors[k].cveId == id :: st.vendors[k].name
  }

  /** `v.vendor_name` of the tuples `LEFT JOIN vendors` makes for `id`: one
      per stored name, or a single NULL when there is none. (Equal names
      give equal tuples; only their distinct values reach the result.) */
  function Slots(st: Store, id: string): set<Option<string>> {
    if NamesOf(st, id) == {} then {None} else set n | n in NamesOf(st, id) :: Some(n)
  }

  // ---------------------------------------------------------------------
  // Queries
  // ---------------------------------------------------------------------

  /** A value bound to a `%s`. */
  datatype Param = PText(s: string) | PBool(b: bool) | PInt(i: int)

  /** The conditions after `WHERE 1=1`, one placeholder each. */
  datatype Cond =
    | VendorILike   // AND v.vendor_name ILIKE %s
    | ExploitIs     // AND ces.has_active_exploit = %s
    | FixIs         // AND cfs.has_fix = %s

  datatype Clause =
    | Where(cond: Cond)
    | GroupByCve    // GROUP BY cs.cve_id, cs.affected_package, cs.score, ces.has_active_exploit, cfs.has_fix
    | OrderByCve    // ORDER BY cs.cve_id
    | LimitOffset   // LIMIT %s OFFSET %s

  datatype Select =
    | ListCves             // SELECT cs.cve_id, ..., string_agg(DISTINCT v.vendor_name, ', ') FROM <joins>
    | CountCves            // SELECT COUNT(DISTINCT cs.cve_id) FROM <joins>
    | DistinctVendorNames  // SELECT DISTINCT vendor_name FROM vendors ORDER BY vendor_name
    | CveById              // SELECT cs.cve_id, ... FROM <two joins> WHERE cs.cve_id = %s
    | VendorNamesOf        // SELECT vendor_name FROM vendors WHERE cve_id = %s

  datatype Query = Query(select: Select, clauses: seq<Clause>)

  /** A row of the listing: `string_agg` of no name is NULL, here the empty
      set. */
  datatype View = View(cveId: string, package: string, score: Option<real>,
                       exploit: Option<bool>, fix: Option<bool>, vendors: set<string>)

  /** A row of the detail query. */
  datatype Detail = Detail(cveId: string, package: string, score: Option<real>,
                           exploit: Option<bool>, fix: Option<bool>)

  datatype Answer =
    | Listed(views: seq<View>)
    | Counted(count: nat)
    | Names(names: seq<string>)
    | Details(rows: seq<Detail>)

  function ClausePlaceholders(c: Clause): nat {
    match c
    case Where(_) => 1
    case LimitOffset => 2
    case _ => 0
  }

  function ClausesPlaceholders(cs: seq<Clause>): nat {
    if cs == [] then 0 else ClausePlaceholders(cs[0]) + ClausesPlaceholders(cs[1..])
  }

  /** The number of `%s` in the query's text. */
  function Placeholders(q: Query): nat {
    (if q.select == CveById || q.select == VendorNamesOf then 1 else 0) + ClausesPlaceholders(q.clauses)
  }

  /** A condition with its value substituted. */
  datatype Bound = BVendor(pattern: string) | BExploit(b: bool) | BFix(b: bool)

  /** Substituting a parameter; a value of the wrong type makes the
      statement fail. */
  function BindOne(c: Cond, p: Param): Result<Bound> {
    match (c, p)
    case (VendorILike, PText(s)) => Ok(BVendor(s))
    case (ExploitIs, PBool(b)) => Ok(BExploit(b))
    case (FixIs, PBool(b)) => Ok(BFix(b))
    case _ => Err
  }

  /** The tuple of `c` with vendor `slot` passes the bound condition. A NULL
      operand never satisfies `=` or `ILIKE`. */
  predicate HoldsOn(st: Store, c: CveRow, slot: Option<string>, b: Bound) {
    match b
    case BVendor(p) => slot.Some? && ILike(slot.value, p)
    case BExploit(x) => ExploitOf(st, c.cveId) == Some(x)
    case BFix(x) => FixOf(st, c.cveId) == Some(x)
  }

  /** The vendor slots of `c`'s tuples that pass every condition. */
  function Survivors(st: Store, c: CveRow, bs: seq<Bound>): set<Option<string>> {
    set v | v in Slots(st, c.cveId) && forall k :: 0 <= k < |bs| ==> HoldsOn(st, c, v, bs[k])
  }

  /** The non-NULL names among surviving slots. */
  function NamesIn(slots: set<Option<string>>): set<string> {
    set o | o in slots && o.Some? :: o.value
  }

  /** GROUP BY the CVE: one row per CVE with a surviving tuple, carrying the
      distinct surviving vendor names, in table order. */
  function Grouped(st: Store, cves: seq<CveRow>, bs: seq<Bound>): seq<View> {
    if cves == [] then []
    else
      var c := cves[0];
      var s := Survivors(st, c, bs);
      (if s != {} then [View(c.cveId, c.package, c.score, ExploitOf(st, c.cveId), FixOf(st, c.cveId), NamesIn(s))] else [])
      + Grouped(st, cves[1..], bs)
  }

  /** `COUNT(DISTINCT cs.cve_id)` over the surviving tuples. */
  function DistinctSurvivingIds(st: Store, bs: seq<Bound>): set<string> {
    set c | c in st.cves && Survivors(st, c, bs) != {} :: c.cveId
  }

  /** `LIMIT limit OFFSET offset`. */
  function Page<T>(xs: seq<T>, limit: nat, offset: nat): (r: seq<T>)
    ensures |r| <= limit
    ensures offset >= |xs| ==> r == []
    ensures offset < |xs| ==> r == xs[offset..if offset + limit <= |xs| then offset + limit else |xs|]
  {
    if offset >= |xs| then []
    else if offset + limit <= |xs| then xs[offset..offset + limit]
    else xs[offset..]
  }

  /** The distinct names of `rows`, in order of first appearance. */
  function DistinctNames(rows: seq<VendorRow>): (r: seq<string>)
    ensures forall n :: n in r <==> exists k :: 0 <= k < |rows| && rows[k].name == n
    ensures forall i, j :: 0 <= i < j < |r| ==> r[i] != r[j]
  {
    if rows == [] then []
    else
      var front := DistinctNames(rows[..|rows| - 1]);
      assert forall k :: 0 <= k < |rows| - 1 ==> rows[..|rows| - 1][k] == rows[k];
      if rows[|rows| - 1].name in front then front else front + [rows[|rows| - 1].name]
  }

  /** The names stored for `id`, in table order (no ORDER BY). */
  function NamesInOrder(rows: seq<VendorRow>, id: string): (r: seq<string>)
    ensures forall n :: n in r <==> exists k :: 0 <= k < |rows| && rows[k].cveId == id && rows[k].name == n
  {
    if rows == [] then []
    else
      assert forall k :: 1 <= k < |rows| ==> rows[1..][k - 1] == rows[k];
      (if rows[0].cveId == id then [rows[0].name] else []) + NamesInOrder(rows[1..], id)
  }

  /** The rows of `cve_simple` with the given id, joined with the status
      tables. */
  function DetailsOf(st: Store, cves: seq<CveRow>, id: string): seq<Detail> {
    if cves == [] then []
    else
      var c := cves[0];
      (if c.cveId == id then [Detail(c.cveId, c.package, c.score, ExploitOf(st, id), FixOf(st, id))] else [])
      + DetailsOf(st, cves[1..], id)
  }

  /** The largest `bigint`, the type PostgreSQL gives `LIMIT` and `OFFSET`. */
  const BigintMax: int := 0x7FFF_FFFF_FFFF_FFFF

  /** A value PostgreSQL accepts as a `LIMIT` or `OFFSET` count. */
  predicate RowCountOk(p: Param) {
    p.PInt? && 0 <= p.i <= BigintMax
  }

  /** The listing query: conditions bound left to right, then exactly
      `GROUP BY`, `ORDER BY`, `LIMIT %s OFFSET %s`. A missing or surplus
      parameter, a value of the wrong type, a clause out of place, or a
      LIMIT or OFFSET that is negative or beyond `bigint` makes the
      statement fail. */
  function RunListing(st: Store, clauses: seq<Clause>, params: seq<Param>, bs: seq<Bound>): Result<Answer>
    decreases |clauses|
  {
    if clauses == [] then Err
    else match clauses[0]
      case Where(c) =>
        if params == [] then Err
        else
          var b :- BindOne(c, params[0]);
          RunListing(st, clauses[1..], params[1..], bs + [b])
      case GroupByCve =>
        if clauses[1..] == [OrderByCve, LimitOffset] && |params| == 2 && RowCountOk(params[0]) && RowCountOk(params[1])
        then Ok(Listed(Page(SortBy(Grouped(st, st.cves, bs), (v: View) => v.cveId), params[0].i, params[1].i)))
        else Err
      case _ => Err
  }

  /** The count query: conditions only. */
  function RunCount(st: Store, clauses: seq<Clause>, params: seq<Param>, bs: seq<Bound>): Result<Answer>
    decreases |clauses|
  {
    if clauses == [] then
      if params == [] then Ok(Counted(|DistinctSurvivingIds(st, bs)|)) else Err
    else match clauses[0]
      case Where(c) =>
        if params == [] then Err
        else
          var b :- BindOne(c, params[0]);
          RunCount(st, clauses[1..], params[1..], bs + [b])
      case _ => Err
  }

  /** Executing `q` with `params` against the tables. */
  function Run(st: Store, q: Query, params: seq<Param>): Result<Answer> {
    match q.select
    case ListCves => RunListing(st, q.clauses, params, [])
    case CountCves => RunCount(st, q.clauses, params, [])
    case DistinctVendorNames =>
      if q.clauses == [] && params == [] then Ok(Names(SortBy(DistinctNames(st.vendors), (n: string) => n))) else Err
    case CveById =>
      if q.clauses == [] && |params| == 1 && params[0].PText? then Ok(Details(DetailsOf(st, st.cves, params[0].s))) else Err
    case VendorNamesOf =>
      if q.clauses == [] && |params| == 1 && params[0].PText? then Ok(Names(NamesInOrder(st.vendors, params[0].s))) else Err
  }

  /** A statement runs only when every `%s` received exactly one value. */
  lemma RunNeedsAllParams(st: Store, q: Query, params: seq<Param>)
    ensures Run(st, q, params).Ok? ==> Placeholders(q) == |params|
  {
    match q.select
    case ListCves => ListingNeedsAllParams(st, q.clauses, params, []);
    case CountCves => CountNeedsAllParams(st, q.clauses, params, []);
    case _ =>
  }

  lemma {:induction false} ListingNeedsAllParams(st: Store, clauses: seq<Clause>, params: seq<Param>, bs: seq<Bound>)
    ensures RunListing(st, clauses, params, bs).Ok? ==> ClausesPlaceholders(clauses) == |params|
    decreases |clauses|
  {
    if clauses != [] && RunListing(st, clauses, params, bs).Ok? {
      match clauses[0]
      case Where(c) =>
        ListingNeedsAllParams(st, clauses[1..], params[1..], bs + [BindOne(c, params[0]).value]);
      case GroupByCve =>
        var tail := clauses[1..];
        assert tail[1..] == [LimitOffset] && tail[1..][1..] == [];
        assert ClausesPlaceholders(tail[1..]) == 2;
        assert ClausesPlaceholders(tail) == 2;
      case _ =>
    }
  }

  lemma {:induction false} CountNeedsAllParams(st: Store, clauses: seq<Clause>, params: seq<Param>, bs: seq<Bound>)
    ensures RunCount(st, clauses, params, bs).Ok? ==> ClausesPlaceholders(clauses) == |params|
    decreases |clauses|
  {
    if clauses != [] && RunCount(st, clauses, params, bs).Ok? {
      match clauses[0]
      case Where(c) =>
        CountNeedsAllParams(st, clauses[1..], params[1..], bs + [BindOne(c, params[0]).value]);
      case _ =>
    }
  }
}
