/** The search options of the post list — offset, page size, free-text query,
    sort key and order, selected tag — with their shallow-merge update, their
    encoding in the shareable URL, the parser that reads them back, and the
    choice of the endpoint a fetch goes to. */
module PostSearch {
  import opened Wrappers
  import opened JsNumber
  import opened UrlParams

  datatype SearchOptions = SearchOptions(
    skip: Num,
    limit: Num,
    searchQuery: string,
    sortBy: string,
    sortOrder: string,
    tag: string)

  /** `Partial<PostsSearchOptions>`: a field that is None is absent. */
  datatype Patch = Patch(
    skip: Option<Num>,
    limit: Option<Num>,
    searchQuery: Option<string>,
    sortBy: Option<string>,
    sortOrder: Option<string>,
    tag: Option<string>)

  const NoFields: Patch := Patch(None, None, None, None, None, None)

  /** `{ ...prev, ...patch }`. */
  function Merge(o: SearchOptions, p: Patch): (r: SearchOptions)
    ensures r.skip == p.skip.GetOr(o.skip) && r.limit == p.limit.GetOr(o.limit)
    ensures r.searchQuery == p.searchQuery.GetOr(o.searchQuery)
    ensures r.sortBy == p.sortBy.GetOr(o.sortBy) && r.sortOrder == p.sortOrder.GetOr(o.sortOrder)
    ensures r.tag == p.tag.GetOr(o.tag)
  {
    SearchOptions(
      p.skip.GetOr(o.skip), p.limit.GetOr(o.limit), p.searchQuery.GetOr(o.searchQuery),
      p.sortBy.GetOr(o.sortBy), p.sortOrder.GetOr(o.sortOrder), p.tag.GetOr(o.tag))
  }

  /** The patch that sets a field when either patch sets it, the second one winning. */
  function Then(p: Patch, q: Patch): Patch
  {
    Patch(
      if q.skip.Some? then q.skip else p.skip,
      if q.limit.Some? then q.limit else p.limit,
      if q.searchQuery.Some? then q.searchQuery else p.searchQuery,
      if q.sortBy.Some? then q.sortBy else p.sortBy,
      if q.sortOrder.Some? then q.sortOrder else p.sortOrder,
      if q.tag.Some? then q.tag else p.tag)
  }

  /** Two merges in a row are one merge of the combined patch; merging the same
      patch again changes nothing; merging no fields changes nothing. */
  lemma MergeLaws(o: SearchOptions, p: Patch, q: Patch)
    ensures Merge(Merge(o, p), q) == Merge(o, Then(p, q))
    ensures Merge(Merge(o, p), p) == Merge(o, p)
    ensures Merge(o, NoFields) == o
  {
  }

  // ---------------------------------------------------------------------------
  // The shareable URL

  /** The names `updateURL` writes, in the order it writes them. */
  const ParamNames: seq<string> := ["skip", "limit", "search", "sortBy", "sortOrder", "tag"]

  /** The value `updateURL` writes under a name, or None when the field is falsy
      (0, NaN or the empty string) and the name is left out. */
  function ParamValue(o: SearchOptions, name: string): Option<string>
  {
    if name == "skip" then NumberParam(o.skip)
    else if name == "limit" then NumberParam(o.limit)
    else if name == "search" then TextParam(o.searchQuery)
    else if name == "sortBy" then TextParam(o.sortBy)
    else if name == "sortOrder" then TextParam(o.sortOrder)
    else if name == "tag" then TextParam(o.tag)
    else None
  }

  function NumberParam(n: Num): Option<string>
  {
    if Truthy(n) then Some(ToString(n.value)) else None
  }

  function TextParam(t: string): Option<string>
  {
    if t != "" then Some(t) else None
  }

  /** ParamValue as a function of the name. */
  function ParamValues(o: SearchOptions): string -> Option<string>
  {
    name => ParamValue(o, name)
  }

  /** The query string `updateURL` navigates to: one pair per truthy field, in
      the order of ParamNames. */
  function QueryOf(o: SearchOptions): Query
  {
    Pairs(ParamNames, ParamValues(o))
  }

  /** The pairs `updateURL` has written after going through the first `k` names. */
  function WrittenUpTo(o: SearchOptions, k: nat): Query
    requires k <= |ParamNames|
  {
    if k == 0 then [] else WrittenUpTo(o, k - 1) + Entry(ParamNames[k - 1], ParamValue(o, ParamNames[k - 1]))
  }

  lemma {:induction false} WrittenUpToPairs(o: SearchOptions, k: nat)
    requires k <= |ParamNames|
    ensures WrittenUpTo(o, k) == Pairs(ParamNames[..k], ParamValues(o))
  {
    if k > 0 {
      WrittenUpToPairs(o, k - 1);
      assert ParamNames[..k][..k - 1] == ParamNames[..k - 1];
    }
  }

  /** The names of ParamNames are distinct. */
  lemma ParamNamesDistinct(k: nat)
    requires k < |ParamNames|
    ensures ParamNames[k] !in ParamNames[..k]
  {
  }

  /** The next guarded `set` extends the pairs written so far by the next name. */
  lemma WrittenStep(o: SearchOptions, k: nat, before: Query, name: string, present: bool, value: string)
    requires k < |ParamNames| && name == ParamNames[k] && before == WrittenUpTo(o, k)
    requires ParamValue(o, name) == if present then Some(value) else None
    ensures (if present then Set(before, name, value) else before) == WrittenUpTo(o, k + 1)
  {
    ParamNamesDistinct(k);
    WrittenUpToPairs(o, k);
    GetPairs(ParamNames[..k], ParamValues(o), name);
  }

  /** How `updateURL` fills its `URLSearchParams`: one `set` per truthy field. */
  method BuildParams(o: SearchOptions) returns (params: Query)
    ensures params == QueryOf(o)
  {
    params := [];
    ghost var before := params;
    if Truthy(o.skip) { params := Set(params, "skip", ToString(o.skip.value)); }
    WrittenStep(o, 0, before, "skip", Truthy(o.skip), if Truthy(o.skip) then ToString(o.skip.value) else "");
    before := params;
    if Truthy(o.limit) { params := Set(params, "limit", ToString(o.limit.value)); }
    WrittenStep(o, 1, before, "limit", Truthy(o.limit), if Truthy(o.limit) then ToString(o.limit.value) else "");
    before := params;
    if o.searchQuery != "" { params := Set(params, "search", o.searchQuery); }
    WrittenStep(o, 2, before, "search", o.searchQuery != "", o.searchQuery);
    before := params;
    if o.sortBy != "" { params := Set(params, "sortBy", o.sortBy); }
    WrittenStep(o, 3, before, "sortBy", o.sortBy != "", o.sortBy);
    before := params;
    if o.sortOrder != "" { params := Set(params, "sortOrder", o.sortOrder); }
    WrittenStep(o, 4, before, "sortOrder", o.sortOrder != "", o.sortOrder);
    before := params;
    if o.tag != "" { params := Set(params, "tag", o.tag); }
    WrittenStep(o, 5, before, "tag", o.tag != "", o.tag);
    WrittenUpToPairs(o, 6);
    assert ParamNames[..6] == ParamNames;
  }

  /** Reading a name back from the URL gives what was written under it, and a
      name that is not one of ParamNames is never written. */
  lemma GetQueryOf(o: SearchOptions, name: string)
    ensures Get(QueryOf(o), name) == ParamValue(o, name)
  {
    GetPairs(ParamNames, ParamValues(o), name);
  }

  /** A field is written to the URL exactly when it is truthy. */
  lemma OmitsFalsyFields(o: SearchOptions)
    ensures HasKey(QueryOf(o), "skip") <==> Truthy(o.skip)
    ensures HasKey(QueryOf(o), "limit") <==> Truthy(o.limit)
    ensures HasKey(QueryOf(o), "search") <==> o.searchQuery != ""
    ensures HasKey(QueryOf(o), "sortBy") <==> o.sortBy != ""
    ensures HasKey(QueryOf(o), "sortOrder") <==> o.sortOrder != ""
    ensures HasKey(QueryOf(o), "tag") <==> o.tag != ""
  {
    var q := QueryOf(o);
    GetQueryOf(o, "skip");
    GetQueryOf(o, "limit");
    GetQueryOf(o, "search");
    GetQueryOf(o, "sortBy");
    GetQueryOf(o, "sortOrder");
    GetQueryOf(o, "tag");
    GetFindsFirst(q, "skip");
    GetFindsFirst(q, "limit");
    GetFindsFirst(q, "search");
    GetFindsFirst(q, "sortBy");
    GetFindsFirst(q, "sortOrder");
    GetFindsFirst(q, "tag");
  }

  /** `params.get(name) || fallback`: a missing or empty value falls back. */
  function ParamOr(q: Query, name: string, fallback: string): (r: string)
    ensures Get(q, name).Some? && Get(q, name).value != "" ==> r == Get(q, name).value
    ensures Get(q, name).None? || Get(q, name).value == "" ==> r == fallback
  {
    var v := Get(q, name);
    if v.Some? && v.value != "" then v.value else fallback
  }

  /** The parser of the URL, with the name it reads the free-text query under. */
  function ParseWith(q: Query, searchName: string): SearchOptions
  {
    SearchOptions(
      ParseInt(ParamOr(q, "skip", "0")),
      ParseInt(ParamOr(q, "limit", "10")),
      ParamOr(q, searchName, ""),
      ParamOr(q, "sortBy", ""),
      ParamOr(q, "sortOrder", "asc"),
      ParamOr(q, "tag", ""))
  }

  /** The search options a URL stands for: what the provider starts from, and
      what it re-reads when the location changes. A number or text given in
      the URL is read, and a missing or empty one gets its default. */
  function ParseSearchOptions(q: Query): (r: SearchOptions)
    ensures Get(q, "skip").None? || Get(q, "skip") == Some("") ==> r.skip == Int(0)
    ensures Get(q, "limit").None? || Get(q, "limit") == Some("") ==> r.limit == Int(10)
    ensures (Get(q, "search").Some? && Get(q, "search").value != "") <==> r.searchQuery != ""
    ensures r.searchQuery == "" || Get(q, "search") == Some(r.searchQuery)
    ensures (Get(q, "sortBy").Some? && Get(q, "sortBy").value != "") <==> r.sortBy != ""
    ensures r.sortBy == "" || Get(q, "sortBy") == Some(r.sortBy)
    ensures r.sortOrder != ""
    ensures Get(q, "sortOrder").None? || Get(q, "sortOrder") == Some("") ==> r.sortOrder == "asc"
    ensures Get(q, "sortOrder").Some? && Get(q, "sortOrder").value != "" ==> r.sortOrder == Get(q, "sortOrder").value
    ensures (Get(q, "tag").Some? && Get(q, "tag").value != "") <==> r.tag != ""
    ensures r.tag == "" || Get(q, "tag") == Some(r.tag)
  {
    ParseZero();
    ParseTen();
    ParseWith(q, "search")
  }

  /** A non-empty value under `skip` or `limit` is read with `parseInt`, so any
      integer written there as `toString` writes it is the number parsed. */
  lemma ParseReadsIntegers(q: Query, n: int)
    ensures Get(q, "skip").Some? && Get(q, "skip").value != "" ==>
              ParseSearchOptions(q).skip == ParseInt(Get(q, "skip").value)
    ensures Get(q, "limit").Some? && Get(q, "limit").value != "" ==>
              ParseSearchOptions(q).limit == ParseInt(Get(q, "limit").value)
    ensures Get(q, "skip") == Some(ToString(n)) ==> ParseSearchOptions(q).skip == Int(n)
    ensures Get(q, "limit") == Some(ToString(n)) ==> ParseSearchOptions(q).limit == Int(n)
  {
    ParseIntToString(n, "");
    assert ToString(n) + "" == ToString(n);
  }

  /** The re-hydration as written: it reads the query under `searchQuery`,
      a name `updateURL` never writes. */
  function RehydratedAsWritten(q: Query): (r: SearchOptions)
    ensures r.(searchQuery := "") == ParseSearchOptions(q).(searchQuery := "")
    ensures (Get(q, "searchQuery").Some? && Get(q, "searchQuery").value != "") <==> r.searchQuery != ""
    ensures r.searchQuery == "" || Get(q, "searchQuery") == Some(r.searchQuery)
  {
    ParseWith(q, "searchQuery")
  }

  const Defaults: SearchOptions := SearchOptions(Int(0), Int(10), "", "", "asc", "")

  /** The numeric fallbacks parse to the numbers they spell. */
  lemma ParseZero()
    ensures ParseInt("0") == Int(0)
  {
    ParseIntToString(0, "");
    assert ToString(0) + "" == "0";
  }

  lemma ParseTen()
    ensures ParseInt("10") == Int(10)
  {
    ParseIntToString(10, "");
    assert ToString(10) + "" == "10";
  }

  /** An empty query string gives the defaults. */
  lemma ParseEmpty()
    ensures ParseSearchOptions([]) == Defaults
  {
    ParseZero();
    ParseTen();
  }

  /** The options that survive the URL unchanged: a number for `skip`, a non-zero
      number for `limit` and a non-empty `sortOrder` (a zero `limit` or an empty
      `sortOrder` is omitted and comes back as 10 or "asc"). */
  predicate Representable(o: SearchOptions)
  {
    o.skip.Int? && o.limit.Int? && o.limit.value != 0 && o.sortOrder != ""
  }

  /** What the options become after a trip through the URL: a NaN `skip` comes
      back as 0, a falsy `limit` as 10 and an empty `sortOrder` as "asc". */
  function Normalized(o: SearchOptions): (r: SearchOptions)
    ensures Representable(r)
    ensures Representable(o) <==> r == o
  {
    o.(skip := if o.skip.Int? then o.skip else Int(0),
       limit := if Truthy(o.limit) then o.limit else Int(10),
       sortOrder := if o.sortOrder != "" then o.sortOrder else "asc")
  }

  /** A numeric field written as `n.toString()` when truthy reads back as `n`,
      and as the fallback's number when it was left out. */
  lemma ReadNumber(o: SearchOptions, name: string, n: Num, fallback: string, m: int)
    requires ParamValue(o, name) == NumberParam(n)
    requires ParseInt(fallback) == Int(m)
    ensures ParseInt(ParamOr(QueryOf(o), name, fallback)) == if Truthy(n) then n else Int(m)
  {
    GetQueryOf(o, name);
    if Truthy(n) {
      ParseIntToString(n.value, "");
      assert ToString(n.value) + "" == ToString(n.value);
    }
  }

  /** A text field written when non-empty reads back as itself, and as the
      fallback when it was left out. */
  lemma ReadText(o: SearchOptions, name: string, t: string, fallback: string)
    requires ParamValue(o, name) == TextParam(t)
    ensures ParamOr(QueryOf(o), name, fallback) == if t != "" then t else fallback
  {
    GetQueryOf(o, name);
  }

  /** Every field the parser reads back from `QueryOf(o)`, whatever `o`; the
      free-text query is read under `searchName`. */
  lemma {:induction false} ParsedQueryOf(o: SearchOptions, searchName: string)
    ensures ParseWith(QueryOf(o), searchName)
            == Normalized(o).(searchQuery := ParamOr(QueryOf(o), searchName, ""))
  {
    ParseZero();
    ParseTen();
    ReadNumber(o, "skip", o.skip, "0", 0);
    ReadNumber(o, "limit", o.limit, "10", 10);
    ReadText(o, "sortBy", o.sortBy, "");
    ReadText(o, "sortOrder", o.sortOrder, "asc");
    ReadText(o, "tag", o.tag, "");
  }

  /** Parsing the URL written for any options gives them back normalized. */
  lemma UrlReadsBackNormalized(o: SearchOptions)
    ensures ParseSearchOptions(QueryOf(o)) == Normalized(o)
  {
    ParsedQueryOf(o, "search");
    ReadText(o, "search", o.searchQuery, "");
  }

  /** Writing the options to the URL and parsing it gives them back. */
  lemma UrlRoundTrip(o: SearchOptions)
    requires Representable(o)
    ensures ParseSearchOptions(QueryOf(o)) == o
  {
    UrlReadsBackNormalized(o);
  }

  /** Options read from a URL survive the next trip through the URL unchanged:
      after one write and one read, the options settle. (The URL itself may
      change once: a zero `limit` is left out of the first URL and written as
      10 in the second.) */
  lemma UrlSettles(o: SearchOptions)
    ensures var r := ParseSearchOptions(QueryOf(o));
      ParseSearchOptions(QueryOf(r)) == r
  {
    UrlReadsBackNormalized(o);
    UrlRoundTrip(Normalized(o));
  }

  /** The URL changes on the second write exactly when `limit` was falsy or
      `sortOrder` empty: those are left out, then written as their defaults. */
  lemma UrlRewrittenOnce(o: SearchOptions)
    ensures QueryOf(ParseSearchOptions(QueryOf(o))) == QueryOf(o)
            <==> Truthy(o.limit) && o.sortOrder != ""
  {
    var n := Normalized(o);
    UrlReadsBackNormalized(o);
    if Truthy(o.limit) && o.sortOrder != "" {
      assert NumberParam(n.skip) == NumberParam(o.skip);
      SameValuesSameQuery(n, o);
    } else {
      GetQueryOf(n, "limit");
      GetQueryOf(o, "limit");
      GetQueryOf(n, "sortOrder");
      GetQueryOf(o, "sortOrder");
    }
  }

  /** The query depends only on the values written. */
  lemma SameValuesSameQuery(o: SearchOptions, r: SearchOptions)
    requires NumberParam(o.skip) == NumberParam(r.skip) && NumberParam(o.limit) == NumberParam(r.limit)
    requires o.searchQuery == r.searchQuery && o.sortBy == r.sortBy && o.tag == r.tag
    requires TextParam(o.sortOrder) == TextParam(r.sortOrder)
    ensures QueryOf(o) == QueryOf(r)
  {
    forall name ensures ParamValues(o)(name) == ParamValues(r)(name) {}
    PairsOfSameValues(ParamNames, ParamValues(o), ParamValues(r));
  }

  /** As written, the re-hydration loses the free-text query of every URL the
      provider writes, and keeps every other field. */
  lemma RehydrationDropsQuery(o: SearchOptions)
    ensures RehydratedAsWritten(QueryOf(o)) == Normalized(o).(searchQuery := "")
  {
    ParsedQueryOf(o, "searchQuery");
    GetQueryOf(o, "searchQuery");
  }

  /** A concrete case: the query "love" is written under `search` and read back empty. */
  lemma RehydrationDropsQueryExample()
    ensures var o := Defaults.(searchQuery := "love");
      Get(QueryOf(o), "search") == Some("love")
      && RehydratedAsWritten(QueryOf(o)).searchQuery == ""
  {
    var o := Defaults.(searchQuery := "love");
    GetQueryOf(o, "search");
    RehydrationDropsQuery(o);
  }

  // ---------------------------------------------------------------------------
  // Which endpoint a fetch goes to

  datatype Strategy =
    | ByTag(tag: string)
    | BySearch(query: string)
    | Paginated(limit: Num, skip: Num)

  /** `fetchPosts(options?)`: a tag other than "" and "all" selects the tag
      endpoint, whatever else is set; otherwise a non-empty query selects the
      search endpoint; otherwise the paginated list at the current limit and skip. */
  function SelectStrategy(request: Patch, current: SearchOptions): (s: Strategy)
    ensures s.ByTag? <==> request.tag.Some? && request.tag.value != "" && request.tag.value != "all"
    ensures s.ByTag? ==> s.tag == request.tag.value
    ensures s.BySearch? <==> !s.ByTag? && request.searchQuery.Some? && request.searchQuery.value != ""
    ensures s.BySearch? ==> s.query == request.searchQuery.value
    ensures s.Paginated? ==> s.limit == current.limit && s.skip == current.skip
  {
    if request.tag.Some? && request.tag.value != "" && request.tag.value != "all" then ByTag(request.tag.value)
    else if request.searchQuery.Some? && request.searchQuery.value != "" then BySearch(request.searchQuery.value)
    else Paginated(current.limit, current.skip)
  }
}
