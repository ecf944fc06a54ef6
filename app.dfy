/** The web application's two pages. `index` turns the request's filter
    arguments into a listing query and a count query that share their
    conditions and parameters, runs them with the vendor dropdown query,
    and falls back to an empty page when a statement raises; `cve_detail`
    shows one record or redirects. The connection is closed exactly once on
    every path inside `try`. */
module App {
  import opened Json
  import opened Sql

  /** `per_page`. */
  const PerPage: nat := 10

  /** The filters of a request: an absent or empty argument is `None`. */
  datatype Filters = Filters(vendor: Option<string>, exploit: Option<bool>, fix: Option<bool>)

  /** `has_x.lower() == 'true'`. */
  function ParseFlag(arg: string): bool {
    LowerStr(arg) == "true"
  }

  /** Only the spellings of "true" select `True`; any other non-empty value,
      "false" or "yes" alike, selects `False`. */
  lemma FlagSpellings(arg: string)
    ensures ParseFlag(arg) <==>
              |arg| == 4 && (arg[0] == 't' || arg[0] == 'T') && (arg[1] == 'r' || arg[1] == 'R')
              && (arg[2] == 'u' || arg[2] == 'U') && (arg[3] == 'e' || arg[3] == 'E')
  {
    if |arg| == 4 {
      var t := LowerStr(arg);
      assert t == "true" <==> t[0] == 't' && t[1] == 'r' && t[2] == 'u' && t[3] == 'e';
    }
  }

  /** The filters the three arguments select. */
  function FiltersOf(vendorArg: string, exploitArg: string, fixArg: string): Filters {
    Filters(
      if vendorArg == "" then None else Some(vendorArg),
      if exploitArg == "" then None else Some(ParseFlag(exploitArg)),
      if fixArg == "" then None else Some(ParseFlag(fixArg)))
  }

  /** `f'%{vendor}%'`. */
  function Wrap(v: string): string {
    "%" + v + "%"
  }

  /** The conditions `index` appends, in its order: vendor, exploit, fix. */
  function FilterConds(f: Filters): seq<Cond> {
    (if f.vendor.Some? then [VendorILike] else [])
    + (if f.exploit.Some? then [ExploitIs] else [])
    + (if f.fix.Some? then [FixIs] else [])
  }

  /** The parameters appended with them. */
  function FilterParams(f: Filters): seq<Param> {
    (if f.vendor.Some? then [PText(Wrap(f.vendor.value))] else [])
    + (if f.exploit.Some? then [PBool(f.exploit.value)] else [])
    + (if f.fix.Some? then [PBool(f.fix.value)] else [])
  }

  function WhereAll(conds: seq<Cond>): (r: seq<Clause>)
    ensures |r| == |conds| && forall i :: 0 <= i < |conds| ==> r[i] == Where(conds[i])
  {
    seq(|conds|, i requires 0 <= i < |conds| => Where(conds[i]))
  }

  /** `offset = (page - 1) * per_page`. */
  function Offset(page: int): int {
    (page - 1) * PerPage
  }

  /** The pages whose OFFSET PostgreSQL accepts: from 1 while
      `(page - 1) * 10` fits in a `bigint`. */
  predicate PageInRange(page: int) {
    1 <= page && Offset(page) <= BigintMax
  }

  /** The last such page is 922337203685477581. */
  lemma PageRange(page: int)
    ensures PageInRange(page) <==> 1 <= page <= 922337203685477581
    ensures PageInRange(page) <==> 0 <= Offset(page) <= BigintMax
  {
  }

  function ListQuery(f: Filters): Query {
    Query(ListCves, WhereAll(FilterConds(f)) + [GroupByCve, OrderByCve, LimitOffset])
  }

  function ListParams(f: Filters, page: int): seq<Param> {
    FilterParams(f) + [PInt(PerPage), PInt(Offset(page))]
  }

  function CountQuery(f: Filters): Query {
    Query(CountCves, WhereAll(FilterConds(f)))
  }

  const DropdownQuery: Query := Query(DistinctVendorNames, [])

  /** The query building of `index`: each condition and its parameter are
      appended only for a non-empty argument, to both queries. */
  method BuildQueries(vendorArg: string, exploitArg: string, fixArg: string, page: int)
    returns (query: Query, params: seq<Param>, countQuery: Query, countParams: seq<Param>)
    ensures query == ListQuery(FiltersOf(vendorArg, exploitArg, fixArg))
    ensures params == ListParams(FiltersOf(vendorArg, exploitArg, fixArg), page)
    ensures countQuery == CountQuery(FiltersOf(vendorArg, exploitArg, fixArg))
    ensures countParams == FilterParams(FiltersOf(vendorArg, exploitArg, fixArg))
  {
    ghost var f := FiltersOf(vendorArg, exploitArg, fixArg);
    var offset := (page - 1) * PerPage;
    var clauses: seq<Clause> := [];
    params := [];
    if vendorArg != "" {
      clauses := clauses + [Where(VendorILike)];
      params := params + [PText("%" + vendorArg + "%")];
    }
    if exploitArg != "" {
      clauses := clauses + [Where(ExploitIs)];
      params := params + [PBool(ParseFlag(exploitArg))];
    }
    if fixArg != "" {
      clauses := clauses + [Where(FixIs)];
      params := params + [PBool(ParseFlag(fixArg))];
    }
    assert clauses == WhereAll(FilterConds(f));
    assert params == FilterParams(f);
    countQuery := Query(CountCves, clauses);
    countParams := params;
    query := Query(ListCves, clauses + [GroupByCve, OrderByCve, LimitOffset]);
    params := params + [PInt(PerPage), PInt(offset)];
  }

  // ---------------------------------------------------------------------
  // Shape of the queries
  // ---------------------------------------------------------------------

  lemma {:induction false} WherePlaceholders(conds: seq<Cond>, tail: seq<Clause>)
    ensures ClausesPlaceholders(WhereAll(conds) + tail) == |conds| + ClausesPlaceholders(tail)
    decreases |conds|
  {
    if conds == [] {
      assert WhereAll(conds) + tail == tail;
    } else {
      assert (WhereAll(conds) + tail)[0] == Where(conds[0]);
      assert (WhereAll(conds) + tail)[1..] == WhereAll(conds[1..]) + tail;
      WherePlaceholders(conds[1..], tail);
    }
  }

  /** Both queries carry exactly as many `%s` as parameters: one per
      condition, plus LIMIT and OFFSET in the listing. */
  lemma PlaceholdersMatchParams(f: Filters, page: int)
    ensures Placeholders(ListQuery(f)) == |ListParams(f, page)|
    ensures Placeholders(CountQuery(f)) == |FilterParams(f)|
  {
    WherePlaceholders(FilterConds(f), [GroupByCve, OrderByCve, LimitOffset]);
    WherePlaceholders(FilterConds(f), []);
    assert WhereAll(FilterConds(f)) + [] == WhereAll(FilterConds(f));
    assert ClausesPlaceholders([LimitOffset]) == 2;
    assert ClausesPlaceholders([OrderByCve, LimitOffset]) == 2;
  }

  /** A condition is present exactly when its argument is non-empty; they
      come in the order vendor, exploit, fix; the vendor value is wrapped
      in `%`, and a flag's value is whether it spells "true". */
  lemma ConditionsFollowArguments(vendorArg: string, exploitArg: string, fixArg: string)
    ensures var f := FiltersOf(vendorArg, exploitArg, fixArg);
            && (VendorILike in FilterConds(f) <==> vendorArg != "")
            && (ExploitIs in FilterConds(f) <==> exploitArg != "")
            && (FixIs in FilterConds(f) <==> fixArg != "")
            && |FilterConds(f)| == |FilterParams(f)|
            && (vendorArg != "" ==> FilterConds(f)[0] == VendorILike && FilterParams(f)[0] == PText("%" + vendorArg + "%"))
            && (fixArg != "" ==> FilterConds(f)[|FilterConds(f)| - 1] == FixIs
                                 && FilterParams(f)[|FilterParams(f)| - 1] == PBool(ParseFlag(fixArg)))
            && (exploitArg != "" ==> var k := if vendorArg != "" then 1 else 0;
                                     FilterConds(f)[k] == ExploitIs && FilterParams(f)[k] == PBool(ParseFlag(exploitArg)))
  {
  }

  // ---------------------------------------------------------------------
  // What the listing should show
  // ---------------------------------------------------------------------

  /** A record passes the filters: one of its vendor names matches the
      vendor pattern, and each status filter equals the stored status (a
      NULL or missing status never does). */
  predicate Matches(st: Store, f: Filters, c: CveRow) {
    && (f.vendor.None? || exists n :: n in NamesOf(st, c.cveId) && ILike(n, Wrap(f.vendor.value)))
    && (f.exploit.None? || ExploitOf(st, c.cveId) == f.exploit)
    && (f.fix.None? || FixOf(st, c.cveId) == f.fix)
  }

  /** The vendor names shown with a record: all of them, or, under a vendor
      filter, only those that match it. */
  function Shown(st: Store, f: Filters, c: CveRow): set<string> {
    if f.vendor.None? then NamesOf(st, c.cveId)
    else set n | n in NamesOf(st, c.cveId) && ILike(n, Wrap(f.vendor.value))
  }

  function ViewOf(st: Store, f: Filters, c: CveRow): View {
    View(c.cveId, c.package, c.score, ExploitOf(st, c.cveId), FixOf(st, c.cveId), Shown(st, f, c))
  }

  function Matching(st: Store, f: Filters, cves: seq<CveRow>): seq<View> {
    if cves == [] then []
    else (if Matches(st, f, cves[0]) then [ViewOf(st, f, cves[0])] else []) + Matching(st, f, cves[1..])
  }

  /** Every matching record, ordered by id. */
  function Listing(st: Store, f: Filters): seq<View> {
    SortBy(Matching(st, f, st.cves), (v: View) => v.cveId)
  }

  /** The number of distinct matching ids. */
  function MatchCount(st: Store, f: Filters): nat {
    |set c | c in st.cves && Matches(st, f, c) :: c.cveId|
  }

  /** The dropdown: every stored vendor name once, in order. */
  function Dropdown(st: Store): seq<string> {
    SortBy(DistinctNames(st.vendors), (n: string) => n)
  }

  // ---------------------------------------------------------------------
  // The queries compute it
  // ---------------------------------------------------------------------

  function BoundsOf(f: Filters): seq<Bound> {
    (if f.vendor.Some? then [BVendor(Wrap(f.vendor.value))] else [])
    + (if f.exploit.Some? then [BExploit(f.exploit.value)] else [])
    + (if f.fix.Some? then [BFix(f.fix.value)] else [])
  }

  /** A joined tuple with vendor `v` passes the filters. */
  predicate SlotPasses(st: Store, f: Filters, c: CveRow, v: Option<string>) {
    && (f.vendor.None? || (v.Some? && ILike(v.value, Wrap(f.vendor.value))))
    && (f.exploit.None? || ExploitOf(st, c.cveId) == f.exploit)
    && (f.fix.None? || FixOf(st, c.cveId) == f.fix)
  }

  lemma HoldsAllMeaning(st: Store, f: Filters, c: CveRow, v: Option<string>)
    ensures (forall k :: 0 <= k < |BoundsOf(f)| ==> HoldsOn(st, c, v, BoundsOf(f)[k])) <==> SlotPasses(st, f, c, v)
  {
    var bs := BoundsOf(f);
    if f.vendor.Some? {
      assert bs[0] == BVendor(Wrap(f.vendor.value));
    }
    if f.exploit.Some? {
      assert bs[if f.vendor.Some? then 1 else 0] == BExploit(f.exploit.value);
    }
    if f.fix.Some? {
      assert bs[|bs| - 1] == BFix(f.fix.value);
    }
  }

  /** The tuples of one record that survive WHERE: none exactly when the
      record does not match, and otherwise carrying the names it shows. */
  lemma SurvivorsMeaning(st: Store, f: Filters, c: CveRow)
    ensures Survivors(st, c, BoundsOf(f)) != {} <==> Matches(st, f, c)
    ensures Matches(st, f, c) ==> NamesIn(Survivors(st, c, BoundsOf(f))) == Shown(st, f, c)
  {
    var s := Survivors(st, c, BoundsOf(f));
    forall v | v in Slots(st, c.cveId)
      ensures v in s <==> SlotPasses(st, f, c, v)
    {
      HoldsAllMeaning(st, f, c, v);
    }
    var names := NamesOf(st, c.cveId);
    if names == {} {
      assert Slots(st, c.cveId) == {None};
      if f.vendor.None? && Matches(st, f, c) {
        assert None in s;
        assert NamesIn(s) == {};
      }
    } else {
      var n0 :| n0 in names;
      assert Some(n0) in Slots(st, c.cveId);
      if Matches(st, f, c) {
        if f.vendor.Some? {
          var n :| n in names && ILike(n, Wrap(f.vendor.value));
          assert Some(n) in Slots(st, c.cveId);
          assert Some(n) in s;
        } else {
          assert Some(n0) in s;
        }
        forall n | n in NamesIn(s) ensures n in Shown(st, f, c) {
          assert Some(n) in s;
        }
        forall n | n in Shown(st, f, c) ensures n in NamesIn(s) {
          assert Some(n) in Slots(st, c.cveId);
          assert Some(n) in s;
        }
      }
      if s != {} {
        var v :| v in s;
        assert SlotPasses(st, f, c, v);
        if f.vendor.Some? {
          assert v.value in names;
        }
      }
    }
  }

  lemma {:induction false} GroupedIsMatching(st: Store, f: Filters, cves: seq<CveRow>)
    ensures Grouped(st, cves, BoundsOf(f)) == Matching(st, f, cves)
    decreases |cves|
  {
    if cves != [] {
      SurvivorsMeaning(st, f, cves[0]);
      GroupedIsMatching(st, f, cves[1..]);
    }
  }

  function BindAll(conds: seq<Cond>, ps: seq<Param>): seq<Bound>
    requires |conds| == |ps| && forall i :: 0 <= i < |conds| ==> BindOne(conds[i], ps[i]).Ok?
  {
    seq(|conds|, i requires 0 <= i < |conds| => BindOne(conds[i], ps[i]).value)
  }

  lemma {:induction false} ListingBindsAll(st: Store, conds: seq<Cond>, ps: seq<Param>, tail: seq<Clause>, rest: seq<Param>, bs: seq<Bound>)
    requires |conds| == |ps| && forall i :: 0 <= i < |conds| ==> BindOne(conds[i], ps[i]).Ok?
    ensures RunListing(st, WhereAll(conds) + tail, ps + rest, bs) == RunListing(st, tail, rest, bs + BindAll(conds, ps))
    decreases |conds|
  {
    if conds == [] {
      assert WhereAll(conds) + tail == tail && ps + rest == rest;
      assert bs + BindAll(conds, ps) == bs;
    } else {
      var b := BindOne(conds[0], ps[0]).value;
      assert (WhereAll(conds) + tail)[0] == Where(conds[0]);
      assert (WhereAll(conds) + tail)[1..] == WhereAll(conds[1..]) + tail;
      assert (ps + rest)[0] == ps[0] && (ps + rest)[1..] == ps[1..] + rest;
      assert RunListing(st, WhereAll(conds) + tail, ps + rest, bs)
          == RunListing(st, WhereAll(conds[1..]) + tail, ps[1..] + rest, bs + [b]);
      ListingBindsAll(st, conds[1..], ps[1..], tail, rest, bs + [b]);
      BindAllStep(conds, ps, bs);
    }
  }

  /** Binding the first condition, then the rest, binds them all. */
  lemma BindAllStep(conds: seq<Cond>, ps: seq<Param>, bs: seq<Bound>)
    requires conds != [] && |conds| == |ps| && forall i :: 0 <= i < |conds| ==> BindOne(conds[i], ps[i]).Ok?
    ensures bs + [BindOne(conds[0], ps[0]).value] + BindAll(conds[1..], ps[1..]) == bs + BindAll(conds, ps)
  {
    var all := BindAll(conds, ps);
    var tl := BindAll(conds[1..], ps[1..]);
    assert all == [all[0]] + tl;
  }

  lemma {:induction false} CountBindsAll(st: Store, conds: seq<Cond>, ps: seq<Param>, bs: seq<Bound>)
    requires |conds| == |ps| && forall i :: 0 <= i < |conds| ==> BindOne(conds[i], ps[i]).Ok?
    ensures RunCount(st, WhereAll(conds), ps, bs) == RunCount(st, [], [], bs + BindAll(conds, ps))
    decreases |conds|
  {
    if conds == [] {
      assert bs + BindAll(conds, ps) == bs;
    } else {
      assert WhereAll(conds)[1..] == WhereAll(conds[1..]);
      CountBindsAll(st, conds[1..], ps[1..], bs + [BindOne(conds[0], ps[0]).value]);
      BindAllStep(conds, ps, bs);
    }
  }

  lemma FilterBinds(f: Filters)
    ensures |FilterConds(f)| == |FilterParams(f)|
    ensures forall i :: 0 <= i < |FilterConds(f)| ==> BindOne(FilterConds(f)[i], FilterParams(f)[i]).Ok?
    ensures BindAll(FilterConds(f), FilterParams(f)) == BoundsOf(f)
  {
  }

  /** Running the listing query gives the requested page of the listing;
      a page below 1 makes OFFSET negative, and a page past
      922337203685477581 makes it overflow `bigint`, so the statement fails. */
  lemma ListQueryMeaning(st: Store, f: Filters, page: int)
    ensures Run(st, ListQuery(f), ListParams(f, page)) ==
            if page < 1 || page > 922337203685477581 then Err
            else Ok(Listed(Page(Listing(st, f), PerPage, Offset(page))))
  {
    FilterBinds(f);
    ListingBindsAll(st, FilterConds(f), FilterParams(f), [GroupByCve, OrderByCve, LimitOffset],
                    [PInt(PerPage), PInt(Offset(page))], []);
    assert [] + BoundsOf(f) == BoundsOf(f);
    ListingTail(st, BoundsOf(f), Offset(page));
    GroupedIsMatching(st, f, st.cves);
    PageRange(page);
  }

  /** After the conditions, `GROUP BY … ORDER BY … LIMIT 10 OFFSET off`
      returns that page of the sorted groups, or fails when `off` is
      negative or beyond `bigint`. */
  lemma ListingTail(st: Store, bs: seq<Bound>, off: int)
    ensures RunListing(st, [GroupByCve, OrderByCve, LimitOffset], [PInt(PerPage), PInt(off)], bs)
         == if 0 <= off <= BigintMax
            then Ok(Listed(Page(SortBy(Grouped(st, st.cves, bs), (v: View) => v.cveId), PerPage, off)))
            else Err
  {
    assert [GroupByCve, OrderByCve, LimitOffset][1..] == [OrderByCve, LimitOffset];
  }

  /** Running the count query gives the number of distinct matching ids. */
  lemma CountQueryMeaning(st: Store, f: Filters)
    ensures Run(st, CountQuery(f), FilterParams(f)) == Ok(Counted(MatchCount(st, f)))
  {
    FilterBinds(f);
    CountBindsAll(st, FilterConds(f), FilterParams(f), []);
    assert [] + BoundsOf(f) == BoundsOf(f);
    forall c | c in st.cves ensures Survivors(st, c, BoundsOf(f)) != {} <==> Matches(st, f, c) {
      SurvivorsMeaning(st, f, c);
    }
    assert DistinctSurvivingIds(st, BoundsOf(f)) == set c | c in st.cves && Matches(st, f, c) :: c.cveId;
  }

  // ---------------------------------------------------------------------
  // Properties of the listing
  // ---------------------------------------------------------------------

  /** Ids of the records in `cves` that match. */
  function MatchIds(st: Store, f: Filters, cves: seq<CveRow>): set<string> {
    set c | c in cves && Matches(st, f, c) :: c.cveId
  }

  lemma {:induction false} MatchingCount(st: Store, f: Filters, cves: seq<CveRow>)
    requires forall i, j :: 0 <= i < j < |cves| ==> cves[i].cveId != cves[j].cveId
    ensures |Matching(st, f, cves)| == |MatchIds(st, f, cves)|
    decreases |cves|
  {
    if cves != [] {
      var c := cves[0];
      var rest := cves[1..];
      MatchingCount(st, f, rest);
      MatchIdsCons(st, f, cves);
    }
  }

  /** Peeling the first record off a listing with unique ids adds its id
      to the ids of the rest exactly when it matches, and that id is new. */
  lemma MatchIdsCons(st: Store, f: Filters, cves: seq<CveRow>)
    requires cves != []
    requires forall i, j :: 0 <= i < j < |cves| ==> cves[i].cveId != cves[j].cveId
    ensures cves[0].cveId !in MatchIds(st, f, cves[1..])
    ensures MatchIds(st, f, cves)
         == (if Matches(st, f, cves[0]) then {cves[0].cveId} else {}) + MatchIds(st, f, cves[1..])
  {
    var c := cves[0];
    var rest := cves[1..];
    forall d | d in rest ensures d.cveId != c.cveId {
      var k :| 0 <= k < |rest| && rest[k] == d;
      assert cves[k + 1] == d;
    }
  }

  /** With unique ids, the count is the length of the listing, so the count
      query and the listing query agree. */
  lemma CountIsListingLength(st: Store, f: Filters)
    requires UniqueIds(st)
    ensures MatchCount(st, f) == |Listing(st, f)|
  {
    MatchingCount(st, f, st.cves);
  }

  lemma {:induction false} MatchingMembers(st: Store, f: Filters, cves: seq<CveRow>)
    ensures forall v :: v in Matching(st, f, cves) <==> exists c :: c in cves && Matches(st, f, c) && v == ViewOf(st, f, c)
    decreases |cves|
  {
    if cves != [] {
      MatchingMembers(st, f, cves[1..]);
      assert forall c :: c in cves <==> c == cves[0] || c in cves[1..];
    }
  }

  /** The listing holds, ordered by id, one row for each matching record
      and nothing else. */
  lemma ListingMembers(st: Store, f: Filters)
    ensures SortedBy(Listing(st, f), (v: View) => v.cveId)
    ensures forall v :: v in Listing(st, f) <==> exists c :: c in st.cves && Matches(st, f, c) && v == ViewOf(st, f, c)
  {
    var m := Matching(st, f, st.cves);
    MatchingMembers(st, f, st.cves);
    assert forall v :: v in Listing(st, f) <==> v in multiset(Listing(st, f));
    assert forall v :: v in m <==> v in multiset(m);
  }

  /** Under a wildcard-free vendor filter the vendor column shows only names
      that contain it, ignoring case (the second vendor of a record stays
      out of its row), and every listed record has such a name. */
  lemma VendorColumnShowsMatchesOnly(st: Store, f: Filters)
    requires f.vendor.Some? && WildcardFree(f.vendor.value)
    ensures forall v :: v in Listing(st, f) ==>
              v.vendors != {} &&
              forall n :: n in v.vendors ==> IsInfix(LowerStr(f.vendor.value), LowerStr(n))
  {
    ListingMembers(st, f);
    forall v | v in Listing(st, f)
      ensures v.vendors != {}
      ensures forall n :: n in v.vendors ==> IsInfix(LowerStr(f.vendor.value), LowerStr(n))
    {
      var c :| c in st.cves && Matches(st, f, c) && v == ViewOf(st, f, c);
      var n0 :| n0 in NamesOf(st, c.cveId) && ILike(n0, Wrap(f.vendor.value));
      assert n0 in v.vendors;
      forall n | n in v.vendors ensures IsInfix(LowerStr(f.vendor.value), LowerStr(n)) {
        ILikeContains(n, f.vendor.value);
      }
    }
  }

  /** `total_pages = (total_count + per_page - 1) // per_page`. */
  function TotalPages(count: nat): nat {
    (count + PerPage - 1) / PerPage
  }

  /** The page count is the ceiling of count / 10: enough pages for every
      record and no empty last page; no records give no pages. */
  lemma TotalPagesIsCeiling(count: nat)
    ensures TotalPages(count) * PerPage >= count
    ensures TotalPages(count) > 0 ==> (TotalPages(count) - 1) * PerPage < count
    ensures count == 0 <==> TotalPages(count) == 0
  {
  }

  /** Record `k` of `xs` is on page `k / 10 + 1`, which is among the
      pages counted. */
  ghost predicate OnItsPage<T>(xs: seq<T>, k: int)
    requires 0 <= k < |xs|
  {
    var p := k / PerPage + 1;
    1 <= p <= TotalPages(|xs|) && Offset(p) <= k < Offset(p) + PerPage
    && Page(xs, PerPage, Offset(p))[k - Offset(p)] == xs[k]
  }

  /** Each record of a listing lies on exactly one page, and the pages
      from 1 to the page count are the ones with records. */
  lemma PagesCoverListing<T>(xs: seq<T>, page: int)
    ensures 1 <= page <= TotalPages(|xs|) ==> Page(xs, PerPage, Offset(page)) != []
    ensures page > TotalPages(|xs|) ==> Page(xs, PerPage, Offset(page)) == []
    ensures forall k :: 0 <= k < |xs| ==> OnItsPage(xs, k)
  {
    TotalPagesIsCeiling(|xs|);
    var n := TotalPages(|xs|);
    if 1 <= page <= n {
      assert (page - 1) * PerPage <= (n - 1) * PerPage;
    }
    if page > n {
      assert (page - 1) * PerPage >= n * PerPage;
    }
    forall k | 0 <= k < |xs|
      ensures OnItsPage(xs, k)
    {
      var q := k / PerPage;
      assert q * PerPage <= k < q * PerPage + PerPage;
      assert n * PerPage > q * PerPage;
      assert Offset(q + 1) == q * PerPage;
    }
  }

  /** The dropdown lists every stored vendor name exactly once, in order. */
  lemma DropdownMeaning(st: Store)
    ensures SortedBy(Dropdown(st), (n: string) => n)
    ensures forall n :: n in Dropdown(st) <==> exists k :: 0 <= k < |st.vendors| && st.vendors[k].name == n
    ensures forall i, j :: 0 <= i < j < |Dropdown(st)| ==> Dropdown(st)[i] != Dropdown(st)[j]
  {
    var d := Dropdown(st);
    var names := DistinctNames(st.vendors);
    assert forall n :: n in d <==> n in multiset(d);
    assert forall n :: n in names <==> n in multiset(names);
    DistinctAtMostOnce(names);
    forall i, j | 0 <= i < j < |d| ensures d[i] != d[j] {
      if d[i] == d[j] {
        RepeatedTwice(d, i, j);
      }
    }
  }

  lemma {:induction false} DistinctAtMostOnce(xs: seq<string>)
    requires forall i, j :: 0 <= i < j < |xs| ==> xs[i] != xs[j]
    ensures forall x :: multiset(xs)[x] <= 1
    decreases |xs|
  {
    if xs != [] {
      DistinctAtMostOnce(xs[1..]);
      assert xs == [xs[0]] + xs[1..];
      assert xs[0] !in xs[1..];
    }
  }

  lemma RepeatedTwice(xs: seq<string>, i: int, j: int)
    requires 0 <= i < j < |xs| && xs[i] == xs[j]
    ensures multiset(xs)[xs[i]] >= 2
  {
    assert xs == xs[..j] + xs[j..];
    assert xs[i] in xs[..j];
    assert xs[j] in xs[j..];
  }

  // ---------------------------------------------------------------------
  // The request handlers
  // ---------------------------------------------------------------------

  /** A database connection. `broken` stands for a statement raising on it
      (a lost connection, a failing query); `closes` counts `close()`. */
  class Connection {
    var store: Store
    var broken: bool
    var closes: nat

    constructor (st: Store, broken: bool)
      ensures store == st && this.broken == broken && closes == 0
    {
      store := st;
      this.broken := broken;
      closes := 0;
    }

    /** `cur.execute(q, params)` and fetching its rows. */
    method Execute(q: Query, params: seq<Param>) returns (r: Result<Answer>)
      ensures r == if broken then Err else Run(store, q, params)
    {
      if broken {
        r := Err;
      } else {
        r := Run(store, q, params);
      }
    }

    method Close()
      modifies this
      ensures closes == old(closes) + 1 && store == old(store) && broken == old(broken)
    {
      closes := closes + 1;
    }
  }

  /** What `index` renders (the arguments it echoes back are left out). */
  datatype IndexPage = IndexPage(cves: seq<View>, vendors: seq<string>, totalPages: nat)

  /** The page for a request: the fallback `([], [], 1)` when a statement
      raises (a broken connection, or a page whose OFFSET is negative or
      overflows `bigint`); otherwise the requested page of the listing,
      the dropdown and the page count. */
  function IndexSpec(st: Store, broken: bool, vendorArg: string, exploitArg: string, fixArg: string, page: int): IndexPage {
    var f := FiltersOf(vendorArg, exploitArg, fixArg);
    if broken || !PageInRange(page) then IndexPage([], [], 1)
    else IndexPage(Page(Listing(st, f), PerPage, Offset(page)), Dropdown(st), TotalPages(MatchCount(st, f)))
  }

  /** The first page past the `bigint` range renders the fallback, like a
      broken connection; the page before it is still served. */
  lemma HugePageFallsBack(st: Store, vendorArg: string, exploitArg: string, fixArg: string)
    ensures IndexSpec(st, false, vendorArg, exploitArg, fixArg, 922337203685477582) == IndexPage([], [], 1)
    ensures IndexSpec(st, false, vendorArg, exploitArg, fixArg, 922337203685477581).vendors == Dropdown(st)
  {
    PageRange(922337203685477582);
    PageRange(922337203685477581);
  }

  /** `index()` after the connection is obtained. */
  method Index(conn: Connection, vendorArg: string, exploitArg: string, fixArg: string, page: int)
    returns (out: IndexPage)
    modifies conn
    ensures out == IndexSpec(old(conn.store), old(conn.broken), vendorArg, exploitArg, fixArg, page)
    ensures conn.closes == old(conn.closes) + 1
    ensures conn.store == old(conn.store) && conn.broken == old(conn.broken)
  {
    var query, params, countQuery, countParams := BuildQueries(vendorArg, exploitArg, fixArg, page);
    ghost var f := FiltersOf(vendorArg, exploitArg, fixArg);
    CountQueryMeaning(conn.store, f);
    ListQueryMeaning(conn.store, f, page);
    var cves: seq<View> := [];
    var vendors: seq<string> := [];
    var totalPages: nat := 1;
    var failed := false;
    var counted := conn.Execute(countQuery, countParams);
    if counted.Ok? && counted.value.Counted? {
      totalPages := (counted.value.count + PerPage - 1) / PerPage;
      var listed := conn.Execute(query, params);
      if listed.Ok? && listed.value.Listed? {
        cves := listed.value.views;
        var names := conn.Execute(DropdownQuery, []);
        if names.Ok? && names.value.Names? {
          vendors := names.value.names;
        } else {
          failed := true;
        }
      } else {
        failed := true;
      }
    } else {
      failed := true;
    }
    if failed {
      cves := [];
      vendors := [];
      totalPages := 1;
    }
    conn.Close();
    out := IndexPage(cves, vendors, totalPages);
  }

  /** What `cve_detail` returns. */
  datatype DetailPage = Redirect | Shows(cve: Detail, vendors: seq<string>)

  /** A redirect to the index when a statement raises or no record has the
      id; otherwise the record and its vendor names in table order. */
  function DetailSpec(st: Store, broken: bool, id: string): DetailPage {
    var rows := DetailsOf(st, st.cves, id);
    if broken || rows == [] then Redirect else Shows(rows[0], NamesInOrder(st.vendors, id))
  }

  /** `cve_detail(cve_id)` after the connection is obtained. */
  method CveDetail(conn: Connection, id: string) returns (out: DetailPage)
    modifies conn
    ensures out == DetailSpec(old(conn.store), old(conn.broken), id)
    ensures conn.closes == old(conn.closes) + 1
    ensures conn.store == old(conn.store) && conn.broken == old(conn.broken)
  {
    var cve: Option<Detail> := None;
    var vendors: seq<string> := [];
    var found := conn.Execute(Query(CveById, []), [PText(id)]);
    if found.Ok? && found.value.Details? {
      cve := if found.value.rows == [] then None else Some(found.value.rows[0]);
      var names := conn.Execute(Query(VendorNamesOf, []), [PText(id)]);
      if names.Ok? && names.value.Names? {
        vendors := names.value.names;
      } else {
        cve := None;
        vendors := [];
      }
    }
    conn.Close();
    if cve.None? {
      out := Redirect;
    } else {
      out := Shows(cve.value, vendors);
    }
  }

  lemma {:induction false} DetailsOfMeaning(st: Store, cves: seq<CveRow>, id: string)
    ensures forall d :: d in DetailsOf(st, cves, id) <==>
              exists c :: c in cves && c.cveId == id
                          && d == Detail(c.cveId, c.package, c.score, ExploitOf(st, id), FixOf(st, id))
    decreases |cves|
  {
    if cves != [] {
      DetailsOfMeaning(st, cves[1..], id);
      assert forall c :: c in cves <==> c == cves[0] || c in cves[1..];
    }
  }

  /** The detail page appears exactly for a stored id, with that record's
      columns and statuses and every vendor name stored for it. */
  lemma DetailShowsStoredRecord(st: Store, id: string)
    ensures DetailSpec(st, false, id).Shows? <==> exists c :: c in st.cves && c.cveId == id
    ensures DetailSpec(st, false, id).Shows? ==>
              var d := DetailSpec(st, false, id);
              (exists c :: c in st.cves && c.cveId == id && d.cve == Detail(id, c.package, c.score, ExploitOf(st, id), FixOf(st, id)))
              && forall n :: n in d.vendors <==> n in NamesOf(st, id)
  {
    DetailsOfMeaning(st, st.cves, id);
    var rows := DetailsOf(st, st.cves, id);
    forall c | c in st.cves && c.cveId == id
      ensures rows != []
    {
      assert Detail(c.cveId, c.package, c.score, ExploitOf(st, id), FixOf(st, id)) in rows;
    }
    if rows != [] {
      assert rows[0] in rows;
    }
  }
}
