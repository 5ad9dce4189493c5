/**
 * request.go: reading the `sort` and `limit` query parameters of a list
 * request, and collecting named route parameters.
 */
module RequestParams {
  import opened Wrappers
  import opened GoStrings
  import opened Strconv
  import opened Url
  import opened Sorting

  /** The `DEFAULT_LIMIT` of request.go. */
  const DEFAULT_LIMIT: Int64 := 10

  datatype SortKey = SortKey(Field: string, Direction: SortDirection)

  datatype URLQueryParams = URLQueryParams(SortKeys: seq<SortKey>, Limit: Int64)

  /** The zero `URLQueryParams{}` returned next to an error. */
  const ZeroParams := URLQueryParams([], 0)

  /**
   * `Extract`: one sort key per comma-separated piece of `sort`, named by the
   * piece's first space-separated word and descending only when its second
   * word is "desc"; `limit` defaults to 10, and a `limit` that `Atoi` rejects
   * makes the whole extraction fail with that error.
   */
  method Extract(query: Values) returns (q: URLQueryParams, err: Option<NumError>)
    ensures var limit := Get(query, "limit");
      err.Some? <==> limit != "" && Atoi(limit).err.Some?
    ensures err.Some? ==> q == ZeroParams && err == Atoi(Get(query, "limit")).err
    ensures err.None? ==>
      q.Limit == if Get(query, "limit") == "" then DEFAULT_LIMIT else Atoi(Get(query, "limit")).n
    ensures err.None? && Get(query, "sort") == "" ==> q.SortKeys == []
    ensures err.None? && Get(query, "sort") != "" ==>
      var pieces := Split(Get(query, "sort"), ',');
      && |q.SortKeys| == |pieces|
      && forall j :: 0 <= j < |pieces| ==>
           var words := Split(pieces[j], ' ');
           q.SortKeys[j] == SortKey(words[0], DirectionOf(words))
  {
    q := URLQueryParams([], DEFAULT_LIMIT);
    err := None;
    var sort := Get(query, "sort");
    if sort != "" {
      var keys := Split(sort, ',');
      for i := 0 to |keys|
        invariant q.Limit == DEFAULT_LIMIT
        invariant |q.SortKeys| == i
        invariant forall j :: 0 <= j < i ==>
          var words := Split(keys[j], ' ');
          q.SortKeys[j] == SortKey(words[0], DirectionOf(words))
      {
        var vals := Split(keys[i], ' ');
        var newSortKey := SortKey("", "");
        if |vals| > 0 {
          newSortKey := newSortKey.(Field := vals[0]);
        }
        if |vals| > 1 && ToLower(vals[1]) == "desc" {
          newSortKey := newSortKey.(Direction := SORT_DESC);
        } else {
          newSortKey := newSortKey.(Direction := SORT_ASC);
        }
        q := q.(SortKeys := q.SortKeys + [newSortKey]);
      }
    }

    var limitStr := Get(query, "limit");
    if limitStr != "" {
      var parsed := Atoi(limitStr);
      q := q.(Limit := parsed.n);
      if parsed.err.Some? {
        return ZeroParams, parsed.err;
      }
    }
  }

  /** The error `NewQueryMap` reports for a required parameter that is empty. */
  function MissingParameter(name: string): string
  {
    "missing required parameter " + name
  }

  /**
   * `NewQueryMap`: looks up every requested route parameter. It fails exactly
   * when some required parameter is empty, naming one of them (which one
   * depends on Go's map iteration order); otherwise every requested parameter
   * has an entry, possibly "", and nothing else does.
   */
  method NewQueryMap(params: RouteParams, queryParams: map<string, bool>)
    returns (qm: map<string, string>, err: Option<string>)
    ensures err.Some? <==> exists p :: p in queryParams && queryParams[p] && URLParam(params, p) == ""
    ensures err.Some? ==> qm == map[]
    ensures err.Some? ==>
      exists p :: p in queryParams && queryParams[p] && URLParam(params, p) == "" && err.value == MissingParameter(p)
    ensures err.None? ==> qm.Keys == queryParams.Keys
    ensures err.None? ==> forall p :: p in qm ==> qm[p] == URLParam(params, p)
  {
    qm := map[];
    var todo := queryParams.Keys;
    while todo != {}
      invariant todo <= queryParams.Keys
      invariant qm.Keys == queryParams.Keys - todo
      invariant forall p :: p in qm ==> qm[p] == URLParam(params, p)
      invariant forall p :: p in qm ==> !(queryParams[p] && qm[p] == "")
      decreases todo
    {
      var queryParam :| queryParam in todo;
      qm := qm[queryParam := URLParam(params, queryParam)];
      if qm[queryParam] == "" && queryParams[queryParam] {
        return map[], Some(MissingParameter(queryParam));
      }
      todo := todo - {queryParam};
    }
    err := None;
  }
}
