/** paginate.go: the sort and limit settings of a list request, read from its query. */
module Pagination {
  import opened GoStrings
  import opened Strconv
  import opened Url
  import opened Sorting

  /** The `DEFAULT_LIMIT` of paginate.go. */
  const DEFAULT_LIMIT: Int64 := 1000

  datatype SortField = SortField(Field: string, Direction: SortDirection)

  datatype Paginate = Paginate(SortFields: seq<SortField>, Limit: Int64)

  /**
   * `NewPaginate`. The `sort` parameter is parsed into one field per
   * comma-separated piece (`parsed`), but those fields are never stored, so
   * the result always has no sort fields. `limit` defaults to 1000; a `limit`
   * that `Atoi` rejects is not reported, and the limit becomes the value
   * `Atoi` returned beside its error: 0 for a malformed number, the nearest
   * 64-bit bound for one that is out of range.
   */
  method NewPaginate(query: Values) returns (p: Paginate, ghost parsed: seq<SortField>)
    ensures p.SortFields == []
    ensures Get(query, "limit") == "" ==> p.Limit == DEFAULT_LIMIT
    ensures Get(query, "limit") != "" ==> p.Limit == Atoi(Get(query, "limit")).n
    ensures Get(query, "sort") == "" ==> parsed == []
    ensures Get(query, "sort") != "" ==>
      var pieces := Split(Get(query, "sort"), ',');
      && |parsed| == |pieces|
      && forall j :: 0 <= j < |pieces| ==>
           var words := Split(pieces[j], ' ');
           parsed[j] == SortField(words[0], DirectionOf(words))
  {
    p := Paginate([], DEFAULT_LIMIT);
    var sortFields: seq<SortField> := [];
    var sort := Get(query, "sort");
    if sort != "" {
      var keys := Split(sort, ',');
      for i := 0 to |keys|
        invariant |sortFields| == i
        invariant forall j :: 0 <= j < i ==>
          var words := Split(keys[j], ' ');
          sortFields[j] == SortField(words[0], DirectionOf(words))
      {
        var vals := Split(keys[i], ' ');
        var sf := SortField("", "");
        if |vals| > 0 {
          sf := sf.(Field := vals[0]);
        }
        if |vals| > 1 && ToLower(vals[1]) == "desc" {
          sf := sf.(Direction := SORT_DESC);
        } else {
          sf := sf.(Direction := SORT_ASC);
        }
        sortFields := sortFields + [sf];
      }
    }

    var limitStr := Get(query, "limit");
    if limitStr != "" {
      p := p.(Limit := Atoi(limitStr).n);
    }
    parsed := sortFields;
  }
}
