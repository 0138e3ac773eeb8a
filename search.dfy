/**
 * People search: the filter list `search_people` composes from its
 * arguments, and the paging loop of `search`, which asks for pages of at
 * most 49 results, clamps the last request to what a limit still allows,
 * and stops at the limit, at an empty page, or after 200 pages' worth of
 * results.
 */
module Search {
  import opened Values
  import opened Text

  // ---------------------------------------------------------------------
  // search_people: the filters
  // ---------------------------------------------------------------------

  /** The filter keys, in the order `search_people` appends them. */
  datatype FilterKey =
    | ResultType | ConnectionOf | Network | GeoUrn | Industry | CurrentCompany | PastCompany
    | ProfileLanguage | NonprofitInterest | Schools | ServiceCategory
    | FirstName | LastName | Title | Company | School

  function KeyName(k: FilterKey): string {
    match k
    case ResultType => "resultType"
    case ConnectionOf => "connectionOf"
    case Network => "network"
    case GeoUrn => "geoUrn"
    case Industry => "industry"
    case CurrentCompany => "currentCompany"
    case PastCompany => "pastCompany"
    case ProfileLanguage => "profileLanguage"
    case NonprofitInterest => "nonprofitInterest"
    case Schools => "schools"
    case ServiceCategory => "serviceCategory"
    case FirstName => "firstName"
    case LastName => "lastName"
    case Title => "title"
    case Company => "company"
    case School => "school"
  }

  /** The position of a key in the order above. */
  function Rank(k: FilterKey): nat {
    match k
    case ResultType => 0
    case ConnectionOf => 1
    case Network => 2
    case GeoUrn => 3
    case Industry => 4
    case CurrentCompany => 5
    case PastCompany => 6
    case ProfileLanguage => 7
    case NonprofitInterest => 8
    case Schools => 9
    case ServiceCategory => 10
    case FirstName => 11
    case LastName => 12
    case Title => 13
    case Company => 14
    case School => 15
  }

  datatype Filter = Filter(key: FilterKey, value: string)

  /** `f"(key:{key},value:List({value}))"` */
  function Render(f: Filter): string {
    "(key:" + KeyName(f.key) + ",value:List(" + f.value + "))"
  }

  /** The arguments of `search_people` that shape the filters. A missing
      string is the empty string and a missing list the empty list: Python
      treats None and empty alike here. */
  datatype PeopleQuery = PeopleQuery(
    keywords: string,
    connectionOf: string,
    networkDepths: seq<string>,
    networkDepth: string,
    regions: seq<string>,
    industries: seq<string>,
    currentCompany: seq<string>,
    pastCompanies: seq<string>,
    profileLanguages: seq<string>,
    nonprofitInterests: seq<string>,
    schools: seq<string>,
    serviceCategories: seq<string>,
    keywordFirstName: string,
    keywordLastName: string,
    keywordTitle: string,
    keywordCompany: string,
    keywordSchool: string,
    title: string)

  const ListSeparator := " | "

  /** The value of a string argument's filter, if it is given. */
  function TextValue(s: string): Option<string> {
    if s == "" then None else Some(s)
  }

  /** The value of a list argument's filter: its entries joined with
      `" | "`, if there are any. */
  function ListValue(xs: seq<string>): Option<string> {
    if xs == [] then None else Some(Join(xs, ListSeparator))
  }

  /** `network_depths` wins over `network_depth`. */
  function NetworkValue(q: PeopleQuery): Option<string> {
    if q.networkDepths != [] then ListValue(q.networkDepths) else TextValue(q.networkDepth)
  }

  /** `keyword_title` falls back to `title`. */
  function TitleValue(q: PeopleQuery): Option<string> {
    TextValue(if q.keywordTitle != "" then q.keywordTitle else q.title)
  }

  /** The `i`-th filter `search_people` may append after the first, with
      its value when it is appended; candidates come in increasing key
      order. */
  function Candidate(q: PeopleQuery, i: nat): (c: (FilterKey, Option<string>))
    requires i < 15
    ensures Rank(c.0) == i + 1
  {
    if i == 0 then (ConnectionOf, TextValue(q.connectionOf))
    else if i == 1 then (Network, NetworkValue(q))
    else if i == 2 then (GeoUrn, ListValue(q.regions))
    else if i == 3 then (Industry, ListValue(q.industries))
    else if i == 4 then (CurrentCompany, ListValue(q.currentCompany))
    else if i == 5 then (PastCompany, ListValue(q.pastCompanies))
    else if i == 6 then (ProfileLanguage, ListValue(q.profileLanguages))
    else if i == 7 then (NonprofitInterest, ListValue(q.nonprofitInterests))
    else if i == 8 then (Schools, ListValue(q.schools))
    else if i == 9 then (ServiceCategory, ListValue(q.serviceCategories))
    else if i == 10 then (FirstName, TextValue(q.keywordFirstName))
    else if i == 11 then (LastName, TextValue(q.keywordLastName))
    else if i == 12 then (Title, TitleValue(q))
    else if i == 13 then (Company, TextValue(q.keywordCompany))
    else (School, TextValue(q.keywordSchool))
  }

  /** The filter a candidate contributes: one, or none. */
  function Emit(c: (FilterKey, Option<string>)): seq<Filter> {
    if c.1.Some? then [Filter(c.0, c.1.value)] else []
  }

  const PeopleFilter := Filter(ResultType, "PEOPLE")

  /** The filter list once the first `n` candidates have been considered. */
  function Prefix(q: PeopleQuery, n: nat): (fs: seq<Filter>)
    requires n <= 15
    ensures |fs| >= 1 && fs[0] == PeopleFilter
  {
    if n == 0 then [PeopleFilter] else Prefix(q, n - 1) + Emit(Candidate(q, n - 1))
  }

  /** The filters of a people search. */
  function Filters(q: PeopleQuery): seq<Filter> {
    Prefix(q, 15)
  }

  /** `"List({})".format(",".join(filters))` */
  function FiltersParam(fs: seq<Filter>): string {
    "List(" + Join(seq(|fs|, i requires 0 <= i < |fs| => Render(fs[i])), ",") + ")"
  }

  /** The value of the first filter with key `k`, if any. */
  function ValueFor(fs: seq<Filter>, k: FilterKey): Option<string>
    decreases |fs|
  {
    if fs == [] then None
    else if fs[0].key == k then Some(fs[0].value)
    else ValueFor(fs[1..], k)
  }

  lemma {:induction false} ValueForAppend(a: seq<Filter>, b: seq<Filter>, k: FilterKey)
    ensures ValueFor(a + b, k) == if ValueFor(a, k).Some? then ValueFor(a, k) else ValueFor(b, k)
    decreases |a|
  {
    if a != [] {
      assert (a + b)[1..] == a[1..] + b;
      ValueForAppend(a[1..], b, k);
    } else {
      assert a + b == b;
    }
  }

  /** A key whose candidate comes later has no filter yet. */
  lemma {:induction false} PrefixAbsent(q: PeopleQuery, n: nat, k: FilterKey)
    requires n <= 15 && n < Rank(k)
    ensures ValueFor(Prefix(q, n), k) == None
  {
    if n == 0 {
      assert [PeopleFilter][1..] == [];
    } else {
      PrefixAbsent(q, n - 1, k);
      ValueForAppend(Prefix(q, n - 1), Emit(Candidate(q, n - 1)), k);
    }
  }

  /** A candidate already considered has exactly its value. */
  lemma {:induction false} PrefixValue(q: PeopleQuery, n: nat, j: nat)
    requires j < n <= 15
    ensures ValueFor(Prefix(q, n), Candidate(q, j).0) == Candidate(q, j).1
  {
    var k := Candidate(q, j).0;
    ValueForAppend(Prefix(q, n - 1), Emit(Candidate(q, n - 1)), k);
    if j == n - 1 {
      PrefixAbsent(q, n - 1, k);
    } else {
      PrefixValue(q, n - 1, j);
    }
  }

  /** The keys of the filter list strictly increase, all up to the rank of
      the last candidate considered. */
  lemma {:induction false} PrefixRanks(q: PeopleQuery, n: nat)
    requires n <= 15
    ensures forall i :: 0 <= i < |Prefix(q, n)| ==> Rank(Prefix(q, n)[i].key) <= n
    ensures forall i, j :: 0 <= i < j < |Prefix(q, n)| ==> Rank(Prefix(q, n)[i].key) < Rank(Prefix(q, n)[j].key)
  {
    if n > 0 {
      PrefixRanks(q, n - 1);
    }
  }

  /** The filters start with the people filter, and their keys strictly
      increase: every key appears at most once, in the order of the code. */
  lemma FiltersOrdered(q: PeopleQuery)
    ensures Filters(q)[0] == PeopleFilter
    ensures forall i, j :: 0 <= i < j < |Filters(q)| ==> Rank(Filters(q)[i].key) < Rank(Filters(q)[j].key)
  {
    PrefixRanks(q, 15);
  }

  /** Each optional filter carries exactly its candidate's value. */
  lemma FilterValue(q: PeopleQuery, j: nat)
    requires j < 15
    ensures ValueFor(Filters(q), Candidate(q, j).0) == Candidate(q, j).1
  {
    PrefixValue(q, 15, j);
  }

  /** The network filter: the joined `network_depths` when given, otherwise
      `network_depth` when given, otherwise none. */
  lemma NetworkFilter(q: PeopleQuery)
    ensures ValueFor(Filters(q), Network) ==
      if q.networkDepths != [] then Some(Join(q.networkDepths, " | "))
      else if q.networkDepth != "" then Some(q.networkDepth)
      else None
  {
    FilterValue(q, 1);
  }

  /** The title filter: `keyword_title` when given, otherwise `title` when
      given, otherwise none. */
  lemma TitleFilter(q: PeopleQuery)
    ensures ValueFor(Filters(q), Title) ==
      if q.keywordTitle != "" then Some(q.keywordTitle)
      else if q.title != "" then Some(q.title)
      else None
  {
    FilterValue(q, 12);
  }

  /** The list arguments: a filter with the entries joined by `" | "`
      exactly when the list is not empty. */
  lemma ListFilters(q: PeopleQuery)
    ensures ValueFor(Filters(q), GeoUrn) == if q.regions == [] then None else Some(Join(q.regions, " | "))
    ensures ValueFor(Filters(q), Industry) == if q.industries == [] then None else Some(Join(q.industries, " | "))
    ensures ValueFor(Filters(q), Schools) == if q.schools == [] then None else Some(Join(q.schools, " | "))
    ensures ValueFor(Filters(q), ServiceCategory) ==
      if q.serviceCategories == [] then None else Some(Join(q.serviceCategories, " | "))
  {
    FilterValue(q, 2);
    FilterValue(q, 3);
    FilterValue(q, 8);
    FilterValue(q, 9);
  }

  /** `search_people`'s filter list, appended to one argument at a time. */
  method PeopleFilters(q: PeopleQuery) returns (filters: seq<Filter>)
    ensures filters == Filters(q)
  {
    filters := [PeopleFilter];
    if q.connectionOf != "" {
      filters := filters + [Filter(ConnectionOf, q.connectionOf)];
    }
    assert filters == Prefix(q, 1);
    if q.networkDepths != [] {
      filters := filters + [Filter(Network, Join(q.networkDepths, ListSeparator))];
    } else if q.networkDepth != "" {
      filters := filters + [Filter(Network, q.networkDepth)];
    }
    assert filters == Prefix(q, 2);
    filters := AppendList(q, filters, 2, q.regions);
    filters := AppendList(q, filters, 3, q.industries);
    filters := AppendList(q, filters, 4, q.currentCompany);
    filters := AppendList(q, filters, 5, q.pastCompanies);
    filters := AppendList(q, filters, 6, q.profileLanguages);
    filters := AppendList(q, filters, 7, q.nonprofitInterests);
    filters := AppendList(q, filters, 8, q.schools);
    filters := AppendList(q, filters, 9, q.serviceCategories);
    var keywordTitle := if q.keywordTitle != "" then q.keywordTitle else q.title;
    filters := AppendText(q, filters, 10, q.keywordFirstName);
    filters := AppendText(q, filters, 11, q.keywordLastName);
    filters := AppendText(q, filters, 12, keywordTitle);
    filters := AppendText(q, filters, 13, q.keywordCompany);
    filters := AppendText(q, filters, 14, q.keywordSchool);
  }

  /** `if values: filters.append(...)` for a list argument, joined with
      `" | "`. */
  method AppendList(q: PeopleQuery, filters: seq<Filter>, i: nat, values: seq<string>) returns (next: seq<Filter>)
    requires 2 <= i <= 9 && filters == Prefix(q, i)
    requires Candidate(q, i).1 == ListValue(values)
    ensures next == Prefix(q, i + 1)
  {
    next := filters;
    if values != [] {
      next := next + [Filter(Candidate(q, i).0, Join(values, ListSeparator))];
    }
  }

  /** `if value: filters.append(...)` for a string argument. */
  method AppendText(q: PeopleQuery, filters: seq<Filter>, i: nat, value: string) returns (next: seq<Filter>)
    requires 10 <= i < 15 && filters == Prefix(q, i)
    requires Candidate(q, i).1 == TextValue(value)
    ensures next == Prefix(q, i + 1)
  {
    next := filters;
    if value != "" {
      next := next + [Filter(Candidate(q, i).0, value)];
    }
  }

  /** The request parameters: the rendered filters, and the keywords when
      given. */
  function PeopleParams(q: PeopleQuery): (params: map<string, string>)
    ensures "filters" in params && params["filters"] == FiltersParam(Filters(q))
    ensures "keywords" in params <==> q.keywords != ""
    ensures "keywords" in params ==> params["keywords"] == q.keywords
  {
    var base := map["filters" := FiltersParam(Filters(q))];
    if q.keywords != "" then base["keywords" := q.keywords] else base
  }

  // ---------------------------------------------------------------------
  // search: reading one response
  // ---------------------------------------------------------------------

  const CollectionType := "com.linkedin.restli.common.CollectionResponse"
  const ClusterType := "com.linkedin.voyager.dash.search.SearchClusterViewModel"
  const ItemType := "com.linkedin.voyager.dash.search.SearchItem"
  const EntityType := "com.linkedin.voyager.dash.search.EntityResultViewModel"

  /** `j.get(key, default)`; a value that is not an object is read as one
      without the key. */
  function Get(j: Json, key: string, default: Json): Json {
    if j.Object? then Lookup(j.fields, key).GetOr(default) else default
  }

  /** What a `for` loop visits in a value: the entries of a list, nothing
      otherwise. */
  function Entries(j: Json): seq<Json> {
    if j.List? then j.items else []
  }

  /** `x.get("_type", []) == t` */
  predicate HasType(j: Json, t: string) {
    Get(j, "_type", List([])) == Str(t)
  }

  /** The entity result of one search item, when every type check passes. */
  function ItemEntity(el: Json): (e: Option<Json>)
    ensures e.Some? ==> Truthy(e.value) && HasType(e.value, EntityType)
  {
    if !HasType(el, ItemType) then None
    else
      var e := Get(Get(el, "item", Object([])), "entityResult", List([]));
      if !Truthy(e) || !HasType(e, EntityType) then None else Some(e)
  }

  /** The entities of a cluster's items, in order. */
  function ItemEntities(items: seq<Json>): seq<Json>
    decreases |items|
  {
    if items == [] then []
    else
      var e := ItemEntity(items[|items| - 1]);
      ItemEntities(items[..|items| - 1]) + (if e.Some? then [e.value] else [])
  }

  /** The entities of the search clusters, in order. */
  function ClusterEntities(clusters: seq<Json>): seq<Json>
    decreases |clusters|
  {
    if clusters == [] then []
    else
      var it := clusters[|clusters| - 1];
      ClusterEntities(clusters[..|clusters| - 1])
        + (if HasType(it, ClusterType) then ItemEntities(Entries(Get(it, "items", List([])))) else [])
  }

  /** Every value is a non-empty entity result. */
  predicate AllEntities(es: seq<Json>) {
    forall i :: 0 <= i < |es| ==> Truthy(es[i]) && HasType(es[i], EntityType)
  }

  lemma {:induction false} ItemEntitiesTyped(items: seq<Json>)
    ensures AllEntities(ItemEntities(items))
    decreases |items|
  {
    if items != [] {
      ItemEntitiesTyped(items[..|items| - 1]);
    }
  }

  /** Only entity results of the expected type reach the results. */
  lemma {:induction false} ClusterEntitiesTyped(clusters: seq<Json>)
    ensures AllEntities(ClusterEntities(clusters))
    decreases |clusters|
  {
    if clusters != [] {
      var it := clusters[|clusters| - 1];
      ClusterEntitiesTyped(clusters[..|clusters| - 1]);
      ItemEntitiesTyped(Entries(Get(it, "items", List([]))));
    }
  }

  /** The new elements of one response, collected by the nested loops. */
  method NewElements(clusters: seq<Json>) returns (elements: seq<Json>)
    ensures elements == ClusterEntities(clusters)
  {
    elements := [];
    for i := 0 to |clusters|
      invariant elements == ClusterEntities(clusters[..i])
    {
      assert clusters[..i + 1][..i] == clusters[..i];
      var it := clusters[i];
      if HasType(it, ClusterType) {
        elements := AddItemEntities(elements, Entries(Get(it, "items", List([]))));
      }
    }
    assert clusters[..|clusters|] == clusters;
  }

  /** The inner loop: the entity of every item that passes the checks of
      `ItemEntity`. */
  method AddItemEntities(elements: seq<Json>, items: seq<Json>) returns (more: seq<Json>)
    ensures more == elements + ItemEntities(items)
  {
    more := elements;
    for j := 0 to |items|
      invariant more == elements + ItemEntities(items[..j])
    {
      assert items[..j + 1][..j] == items[..j];
      var e := ItemEntity(items[j]);
      if e.Some? {
        more := more + [e.value];
      }
    }
    assert items[..|items|] == items;
  }

  /** The search clusters of a response. */
  function ClustersOf(data: Json): Json {
    Get(Get(data, "data", Object([])), "searchDashClustersByAll", List([]))
  }

  /** The page a response yields: None when it has no clusters or they are
      not a collection response, which ends the search with no results. */
  function PageOf(data: Json): (p: Option<seq<Json>>)
    ensures p.None? <==> !Truthy(ClustersOf(data)) || !HasType(ClustersOf(data), CollectionType)
    ensures p.Some? ==> AllEntities(p.value)
  {
    var clusters := ClustersOf(data);
    if !Truthy(clusters) || !HasType(clusters, CollectionType) then None
    else
      ClusterEntitiesTyped(Entries(Get(clusters, "elements", List([]))));
      Some(ClusterEntities(Entries(Get(clusters, "elements", List([])))))
  }

  // ---------------------------------------------------------------------
  // search: the paging loop
  // ---------------------------------------------------------------------

  const MaxSearchCount := 49
  const MaxRepeatedRequests := 200

  /** The largest result count at which the loop still goes on. */
  const MaxResults := MaxSearchCount * MaxRepeatedRequests

  /** One page request: the index of the first result and how many. */
  datatype Request = Request(start: int, count: int)

  /** The pages a search receives and the requests it makes; `aborted`
      when a response had no search clusters of the expected type, which
      makes the search return no results at all. */
  datatype Run = Run(pages: seq<seq<Json>>, requests: seq<Request>, aborted: bool)

  /** The count of the next request: clamped to what the limit still
      allows once within one page of it. */
  function Clamp(limit: int, have: nat, count: int): (c: int)
    requires 0 < count
    requires limit > -1 ==> have <= limit
    ensures 0 <= c <= count
    ensures limit > -1 ==> c <= limit - have
    ensures c == 0 ==> -1 < limit && limit == have
  {
    if limit > -1 && limit - have < count then limit - have else count
  }

  /** `len(results) / count >= 200`. */
  predicate RatioReached(have: nat, count: int)
    requires count > 0
  {
    have >= MaxRepeatedRequests * count
  }

  /** The stop rule, tested in the code's order: a zero count is only ever
      reached with the limit already met, so the division never fails. */
  predicate Stops(limit: int, have: nat, count: int, page: seq<Json>)
    requires count > 0 || (-1 < limit && limit <= have)
  {
    (-1 < limit && limit <= have) || RatioReached(have, count) || |page| == 0
  }

  /** The run of a search that has collected `got` and last asked for
      `count` results; `fetch(start, count)` is the response's elements,
      None when it had no usable clusters. */
  function Pages(fetch: (int, int) -> Option<seq<Json>>, limit: int, offset: int,
                 got: seq<Json>, count: int): (r: Run)
    requires 0 < count <= MaxSearchCount
    requires limit > -1 ==> |got| <= limit
    requires |got| <= MaxResults
    ensures |r.pages| == |r.requests| >= 1
    decreases MaxResults - |got|
  {
    var c := Clamp(limit, |got|, count);
    var req := Request(|got| + offset, c);
    match fetch(req.start, req.count)
    case None => Run([[]], [req], true)
    case Some(page) =>
      var now := got + page;
      if Stops(limit, |now|, c, page) then Run([page], [req], false)
      else
        var rest := Pages(fetch, limit, offset, now, c);
        Run([page] + rest.pages, [req] + rest.requests, rest.aborted)
  }

  /** A search from the start. */
  function SearchRun(fetch: (int, int) -> Option<seq<Json>>, limit: int, offset: int): Run {
    Pages(fetch, limit, offset, [], MaxSearchCount)
  }

  /** What `search` returns. */
  function Results(r: Run): seq<Json> {
    if r.aborted then [] else Concat(r.pages)
  }

  lemma ConcatCons<T>(x: seq<T>, xss: seq<seq<T>>)
    ensures Concat([x] + xss) == x + Concat(xss)
  {
    ConcatAppend([x], xss);
    assert Concat([x]) == Concat([x][..0]) + x;
    assert [x][..0] == [];
  }

  /** What a search returns, given what it collected before a run. */
  function Finish(got: seq<Json>, r: Run): seq<Json> {
    if r.aborted then [] else got + Concat(r.pages)
  }

  /** One round of the loop that ends it: a response without clusters
      ends the search with nothing, a page that meets the stop rule ends it
      with that page added. */
  lemma PagesEnd(fetch: (int, int) -> Option<seq<Json>>, limit: int, offset: int, got: seq<Json>,
                 count: int, c: int, f: Option<seq<Json>>)
    requires 0 < count <= MaxSearchCount
    requires limit > -1 ==> |got| <= limit
    requires |got| <= MaxResults
    requires c == Clamp(limit, |got|, count) && f == fetch(|got| + offset, c)
    ensures f.None? ==> Finish(got, Pages(fetch, limit, offset, got, count)) == []
    ensures f.Some? && Stops(limit, |got + f.value|, c, f.value) ==>
              Finish(got, Pages(fetch, limit, offset, got, count)) == got + f.value
  {
    match f
    case None =>
    case Some(page) =>
      if Stops(limit, |got + page|, c, page) {
        ConcatCons(page, []);
      }
  }

  /** One round of the loop that goes on: the search carries on from the
      larger collection with the clamped count. */
  lemma PagesGoOn(fetch: (int, int) -> Option<seq<Json>>, limit: int, offset: int, got: seq<Json>,
                  count: int, c: int, page: seq<Json>)
    requires 0 < count <= MaxSearchCount
    requires limit > -1 ==> |got| <= limit
    requires |got| <= MaxResults
    requires c == Clamp(limit, |got|, count) && fetch(|got| + offset, c) == Some(page)
    requires !Stops(limit, |got + page|, c, page)
    ensures 0 < c && (limit > -1 ==> |got + page| <= limit) && |got + page| <= MaxResults
    ensures Finish(got, Pages(fetch, limit, offset, got, count))
            == Finish(got + page, Pages(fetch, limit, offset, got + page, c))
  {
    var now := got + page;
    var rest := Pages(fetch, limit, offset, now, c);
    assert Pages(fetch, limit, offset, got, count).pages == [page] + rest.pages;
    assert Pages(fetch, limit, offset, got, count).aborted == rest.aborted;
    ConcatCons(page, rest.pages);
    assert got + (page + Concat(rest.pages)) == now + Concat(rest.pages);
  }

  /** One response: None where the search returns `[]` at once, otherwise
      the new elements. */
  method ReadPage(data: Json) returns (page: Option<seq<Json>>)
    ensures page == PageOf(data)
  {
    var clusters := ClustersOf(data);
    if !Truthy(clusters) {
      return None;
    }
    if !HasType(clusters, CollectionType) {
      return None;
    }
    var newElements := NewElements(Entries(Get(clusters, "elements", List([]))));
    return Some(newElements);
  }

  /** `search(params, limit, offset)`, with `limit=None` given as None;
      `respond(start)` is the response to the request for `start`. */
  method SearchPages(respond: int -> Json, limit: Option<int>, offset: int)
    returns (results: seq<Json>)
    ensures results == Results(SearchRun(AsWritten(respond), if limit.None? then -1 else limit.value, offset))
  {
    var lim := if limit.None? then -1 else limit.value;
    var count := MaxSearchCount;
    results := [];
    ghost var fetch := AsWritten(respond);
    ghost var answer := Results(SearchRun(fetch, lim, offset));
    while true
      invariant 0 < count <= MaxSearchCount
      invariant lim > -1 ==> |results| <= lim
      invariant |results| <= MaxResults
      invariant answer == Finish(results, Pages(fetch, lim, offset, results, count))
      decreases MaxResults - |results|
    {
      ghost var previous := count;
      if lim > -1 && lim - |results| < count {
        count := lim - |results|;
      }
      var page := ReadPage(respond(|results| + offset));
      assert fetch(|results| + offset, count) == page;
      PagesEnd(fetch, lim, offset, results, previous, count, page);
      if page.None? {
        return [];
      }
      var newElements := page.value;
      if (-1 < lim && lim <= |results + newElements|) || RatioReached(|results + newElements|, count)
         || |newElements| == 0 {
        return results + newElements;
      }
      PagesGoOn(fetch, lim, offset, results, previous, count, newElements);
      results := results + newElements;
    }
  }

  // ---------------------------------------------------------------------
  // Properties of a search
  // ---------------------------------------------------------------------

  /** Requests are contiguous: the first starts at the offset plus what was
      already collected, and each next one where the previous page ended. */
  lemma {:induction false} RequestsContiguous(fetch: (int, int) -> Option<seq<Json>>, limit: int, offset: int,
                                              got: seq<Json>, count: int)
    requires 0 < count <= MaxSearchCount
    requires limit > -1 ==> |got| <= limit
    requires |got| <= MaxResults
    ensures var r := Pages(fetch, limit, offset, got, count);
      && r.requests[0].start == |got| + offset
      && forall i :: 0 <= i < |r.requests| - 1 ==> r.requests[i + 1].start == r.requests[i].start + |r.pages[i]|
    decreases MaxResults - |got|
  {
    var c := Clamp(limit, |got|, count);
    match fetch(|got| + offset, c)
    case None =>
    case Some(page) =>
      var now := got + page;
      if !Stops(limit, |now|, c, page) {
        RequestsContiguous(fetch, limit, offset, now, c);
      }
  }

  /** Every request asks for at most 49 results, and never for more than
      the limit still allows given where it starts. */
  predicate Clamped(limit: int, offset: int, requests: seq<Request>) {
    forall i :: 0 <= i < |requests| ==>
      && 0 <= requests[i].count <= MaxSearchCount
      && (limit > -1 ==> requests[i].count <= limit - (requests[i].start - offset))
  }

  lemma {:induction false} RequestsClamped(fetch: (int, int) -> Option<seq<Json>>, limit: int, offset: int,
                                           got: seq<Json>, count: int)
    requires 0 < count <= MaxSearchCount
    requires limit > -1 ==> |got| <= limit
    requires |got| <= MaxResults
    ensures Clamped(limit, offset, Pages(fetch, limit, offset, got, count).requests)
    decreases MaxResults - |got|
  {
    var c := Clamp(limit, |got|, count);
    match fetch(|got| + offset, c)
    case None =>
    case Some(page) =>
      var now := got + page;
      if !Stops(limit, |now|, c, page) {
        var rest := Pages(fetch, limit, offset, now, c);
        RequestsClamped(fetch, limit, offset, now, c);
        assert Pages(fetch, limit, offset, got, count).requests == [Request(|got| + offset, c)] + rest.requests;
      }
  }

  /** Every page before the last added results. */
  predicate NonEmptyBeforeLast(pages: seq<seq<Json>>) {
    forall i :: 0 <= i < |pages| - 1 ==> pages[i] != []
  }

  /** A run that is not aborted ended on the stop rule: its last page was
      empty, or the limit or the ratio bound was reached. */
  predicate EndsOnStop(limit: int, got: seq<Json>, r: Run)
    requires |r.pages| == |r.requests| >= 1
  {
    var n := |got| + |Concat(r.pages)|;
    var last := r.requests[|r.requests| - 1].count;
    !r.aborted ==>
      (-1 < limit && limit <= n) || n >= MaxRepeatedRequests * last || r.pages[|r.pages| - 1] == []
  }

  /** The loop only goes on after a page that added results. */
  lemma {:induction false} PagesNonEmpty(fetch: (int, int) -> Option<seq<Json>>, limit: int, offset: int,
                                         got: seq<Json>, count: int)
    requires 0 < count <= MaxSearchCount
    requires limit > -1 ==> |got| <= limit
    requires |got| <= MaxResults
    ensures NonEmptyBeforeLast(Pages(fetch, limit, offset, got, count).pages)
    decreases MaxResults - |got|
  {
    var c := Clamp(limit, |got|, count);
    match fetch(|got| + offset, c)
    case None =>
    case Some(page) =>
      var now := got + page;
      if !Stops(limit, |now|, c, page) {
        PagesNonEmpty(fetch, limit, offset, now, c);
      }
  }

  /** A search that is not aborted ends on the stop rule. */
  lemma {:induction false} RunStops(fetch: (int, int) -> Option<seq<Json>>, limit: int, offset: int,
                                    got: seq<Json>, count: int)
    requires 0 < count <= MaxSearchCount
    requires limit > -1 ==> |got| <= limit
    requires |got| <= MaxResults
    ensures EndsOnStop(limit, got, Pages(fetch, limit, offset, got, count))
    decreases MaxResults - |got|
  {
    var c := Clamp(limit, |got|, count);
    match fetch(|got| + offset, c)
    case None =>
    case Some(page) =>
      var now := got + page;
      if Stops(limit, |now|, c, page) {
        ConcatCons(page, []);
      } else {
        var rest := Pages(fetch, limit, offset, now, c);
        RunStops(fetch, limit, offset, now, c);
        ConcatCons(page, rest.pages);
        assert |got| + |page + Concat(rest.pages)| == |now| + |Concat(rest.pages)|;
      }
  }

  /** When no response holds more results than asked for, a search never
      returns more than its limit. */
  lemma {:induction false} RunWithinLimit(fetch: (int, int) -> Option<seq<Json>>, limit: int, offset: int,
                                          got: seq<Json>, count: int)
    requires 0 < count <= MaxSearchCount
    requires limit > -1 ==> |got| <= limit
    requires |got| <= MaxResults
    requires forall s, c :: fetch(s, c).Some? ==> |fetch(s, c).value| <= c
    ensures var r := Pages(fetch, limit, offset, got, count);
      limit > -1 && !r.aborted ==> |got| + |Concat(r.pages)| <= limit
    decreases MaxResults - |got|
  {
    var c := Clamp(limit, |got|, count);
    match fetch(|got| + offset, c)
    case None =>
    case Some(page) =>
      var now := got + page;
      if Stops(limit, |now|, c, page) {
        ConcatCons(page, []);
      } else {
        var rest := Pages(fetch, limit, offset, now, c);
        RunWithinLimit(fetch, limit, offset, now, c);
        ConcatCons(page, rest.pages);
      }
  }

  /** The loop always ends: a search makes at most 9801 requests. */
  lemma {:induction false} RequestsBounded(fetch: (int, int) -> Option<seq<Json>>, limit: int, offset: int,
                                           got: seq<Json>, count: int)
    requires 0 < count <= MaxSearchCount
    requires limit > -1 ==> |got| <= limit
    requires |got| <= MaxResults
    ensures |Pages(fetch, limit, offset, got, count).requests| <= MaxResults - |got| + 1
    decreases MaxResults - |got|
  {
    var c := Clamp(limit, |got|, count);
    match fetch(|got| + offset, c)
    case None =>
    case Some(page) =>
      var now := got + page;
      if !Stops(limit, |now|, c, page) {
        RequestsBounded(fetch, limit, offset, now, c);
      }
  }

  /** The pages of the code as written: the request carries the start but
      not the count, so the response depends on the start alone. */
  function AsWritten(respond: int -> Json): (int, int) -> Option<seq<Json>> {
    (start: int, count: int) => PageOf(respond(start))
  }

  /** The pages once the request also carries the clamped count. */
  function SendingCount(server: (int, int) -> Json): (int, int) -> Option<seq<Json>> {
    (start: int, count: int) => PageOf(server(start, count))
  }

  /** As written, a first page longer than the limit is returned whole: the
      clamp of `count` never reaches the request. */
  lemma LimitOverrun(respond: int -> Json, limit: int, offset: int)
    requires 0 <= limit
    requires PageOf(respond(offset)).Some? && |PageOf(respond(offset)).value| > limit
    ensures Results(SearchRun(AsWritten(respond), limit, offset)) == PageOf(respond(offset)).value
    ensures |Results(SearchRun(AsWritten(respond), limit, offset))| > limit
  {
    var fetch := AsWritten(respond);
    var page := PageOf(respond(offset)).value;
    var c := Clamp(limit, 0, MaxSearchCount);
    assert fetch(offset, c) == Some(page);
    assert [] + page == page;
    assert Stops(limit, |page|, c, page);
    assert SearchRun(fetch, limit, offset) == Run([page], [Request(offset, c)], false);
    ConcatCons(page, []);
  }

  /** The second of two fields, read by a key the first does not have. */
  lemma LookupSecond(fields: Record, k: string)
    requires |fields| == 2 && fields[0].0 != k && fields[1].0 == k
    ensures Lookup(fields, k) == Some(fields[1].1)
  {
    assert fields[1..][0] == fields[1];
  }

  /** A response with two search results. */
  function TwoResults(): Json {
    var entity := Object([("_type", Str(EntityType))]);
    var item := Object([("_type", Str(ItemType)), ("item", Object([("entityResult", entity)]))]);
    var cluster := Object([("_type", Str(ClusterType)), ("items", List([item, item]))]);
    Object([("data", Object([("searchDashClustersByAll",
      Object([("_type", Str(CollectionType)), ("elements", List([cluster]))]))]))])
  }

  /** `search(params, limit=1)` against a server answering two results
      returns both. */
  lemma LimitOverrunExample()
    ensures |Results(SearchRun(AsWritten((start: int) => TwoResults()), 1, 0))| == 2
  {
    var respond := (start: int) => TwoResults();
    var entity := Object([("_type", Str(EntityType))]);
    var item := Object([("_type", Str(ItemType)), ("item", Object([("entityResult", entity)]))]);
    var cluster := Object([("_type", Str(ClusterType)), ("items", List([item, item]))]);
    assert HasType(entity, EntityType) && Truthy(entity);
    assert ItemEntity(item) == Some(entity) by {
      assert HasType(item, ItemType);
      LookupSecond(item.fields, "item");
    }
    assert ItemEntities([item]) == [entity] by {
      assert [item][..0] == [];
    }
    assert ItemEntities([item, item]) == [entity, entity] by {
      assert [item, item][..1] == [item];
    }
    assert ClusterEntities([cluster]) == [entity, entity] by {
      assert HasType(cluster, ClusterType);
      LookupSecond(cluster.fields, "items");
      assert [cluster][..0] == [];
    }
    var clusters := Object([("_type", Str(CollectionType)), ("elements", List([cluster]))]);
    assert ClustersOf(respond(0)) == clusters;
    assert HasType(clusters, CollectionType) && Truthy(clusters);
    LookupSecond(clusters.fields, "elements");
    assert PageOf(respond(0)) == Some([entity, entity]);
    LimitOverrun(respond, 1, 0);
  }

  /** With the count sent and honoured by the server, a search never
      returns more than its limit. */
  lemma IntendedWithinLimit(server: (int, int) -> Json, limit: int, offset: int)
    requires forall s, c :: PageOf(server(s, c)).Some? ==> |PageOf(server(s, c)).value| <= c
    ensures limit > -1 ==> |Results(SearchRun(SendingCount(server), limit, offset))| <= limit
  {
    var fetch := SendingCount(server);
    forall s, c | fetch(s, c).Some?
      ensures |fetch(s, c).value| <= c
    {
      assert fetch(s, c) == PageOf(server(s, c));
    }
    RunWithinLimit(fetch, limit, offset, [], MaxSearchCount);
  }

  /** A search from the start makes at most 9801 requests, each clamped,
      the first at the offset. */
  lemma SearchRequests(fetch: (int, int) -> Option<seq<Json>>, limit: int, offset: int)
    ensures |SearchRun(fetch, limit, offset).requests| <= MaxResults + 1
    ensures Clamped(limit, offset, SearchRun(fetch, limit, offset).requests)
    ensures SearchRun(fetch, limit, offset).requests[0].start == offset
  {
    RequestsBounded(fetch, limit, offset, [], MaxSearchCount);
    RequestsClamped(fetch, limit, offset, [], MaxSearchCount);
    RequestsContiguous(fetch, limit, offset, [], MaxSearchCount);
  }
}
