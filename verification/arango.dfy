/**
 * arango.go: turning URL filter parameters into filter keys, and the AQL query
 * builder. Every builder value holds a pointer to one shared
 * `strings.Builder`; the Go methods take the builder by value, so every copy
 * appends to the same text. Here the shared builder is a `Builder<char>`
 * object inside an `ArangoQueryBuilder` datatype value, which gives exactly
 * that sharing.
 */
module Arango {
  import opened Wrappers
  import opened GoStrings
  import opened Strconv
  import opened Url
  import opened Sorting
  import opened Pagination

  type FilterOperator = string

  const Eq: FilterOperator := "=="
  const Neq: FilterOperator := "!="
  const Gt: FilterOperator := ">"
  const Lt: FilterOperator := "<"
  const Geq: FilterOperator := ">="
  const Leq: FilterOperator := "<="

  const OPERATOR_MAP: map<string, FilterOperator> :=
    map["eq" := Eq, "neq" := Neq, "gt" := Gt, "lt" := Lt, "geq" := Geq, "leq" := Leq]

  /** `OPERATOR_MAP[word]`: an unknown word reads as the zero operator "", which no known word maps to. */
  function OperatorFor(word: string): (op: FilterOperator)
    ensures op == "" <==> word !in OPERATOR_MAP
  {
    if word in OPERATOR_MAP then OPERATOR_MAP[word] else ""
  }

  /** A filter's `interface{}` value: a Go string, or any other value together with the text `%v` prints for it. */
  datatype Value = Str(s: string) | Other(text: string)

  datatype FilterKey = FilterKey(FieldName: string, Operator: FilterOperator, Value: Value)

  function NewFilterKey(fieldName: string, op: FilterOperator, val: Value): FilterKey
  {
    FilterKey(fieldName, op, val)
  }

  /** What `%v` prints for a value. */
  function Show(v: Value): string
  {
    match v
    case Str(s) => s
    case Other(text) => text
  }

  /** `FilterKey.FormatValue`: a string value is wrapped in double quotes; any other value is printed as it is. */
  function FormatValue(fk: FilterKey): Value
  {
    match fk.Value
    case Str(s) => Str("\"" + s + "\"")
    case Other(_) => fk.Value
  }

  /** The formatted value of a string is that string between two double quotes; any other value is unchanged. */
  lemma FormatValueQuotes(fk: FilterKey)
    ensures var v := FormatValue(fk);
      fk.Value.Str? ==>
        && v.Str? && |v.s| == |fk.Value.s| + 2
        && v.s[0] == '"' && v.s[|v.s| - 1] == '"'
        && v.s[1..|v.s| - 1] == fk.Value.s
    ensures fk.Value.Other? ==> FormatValue(fk) == fk.Value
  {
  }

  /** A join of two or more pieces contains the separator. */
  lemma JoinHasSeparator(pieces: seq<string>, sep: char)
    requires |pieces| >= 2
    ensures sep in Join(pieces, [sep])
  {
  }

  /**
   * `FilterKeyFromURLElement(key, val)`: a value without a space is an
   * equality test on the whole value; otherwise its first word names the
   * operator (or the empty operator, for an unknown word) and its second word
   * is the value, always a string without spaces.
   */
  function FilterKeyFromURLElement(key: string, val: string): (fk: FilterKey)
    ensures fk.FieldName == key
    ensures ' ' !in val ==> fk == FilterKey(key, Eq, Str(val))
    ensures fk.Value.Str? && ' ' !in fk.Value.s
    ensures ' ' in val ==> fk.Operator == "" || fk.Operator in OPERATOR_MAP.Values
  {
    var eles := Split(val, ' ');
    if |eles| < 2 then
      JoinOfSplit(val, ' ');
      FilterKey(key, Eq, Str(eles[0]))
    else
      JoinOfSplit(val, ' ');
      JoinHasSeparator(eles, ' ');
      assert OperatorFor(eles[0]) != "" ==> OperatorFor(eles[0]) == OPERATOR_MAP[eles[0]];
      FilterKey(key, OperatorFor(eles[0]), Str(eles[1]))
  }

  /** A value made of two or more words takes its operator from the first and its value from the second; later words are ignored. */
  lemma FilterKeyOfWords(key: string, words: seq<string>)
    requires |words| >= 2
    requires forall i :: 0 <= i < |words| ==> ' ' !in words[i]
    ensures FilterKeyFromURLElement(key, Join(words, " ")) == FilterKey(key, OperatorFor(words[0]), Str(words[1]))
  {
    SplitOfJoin(words, ' ');
  }

  datatype ArangoQueryBuilder = ArangoQueryBuilder(QueryString: Builder<char>, loopVar: string)

  /** A query builder that has just written a FILTER clause and may extend it. */
  datatype FilterQueryBuilder = FilterQueryBuilder(aqb: ArangoQueryBuilder)

  /** Regrouping appended texts. */
  lemma Regroup(a: string, b: string, c: string)
    ensures a + b + c == a + (b + c)
  {
  }

  lemma Regroup4(a: string, b: string, c: string, d: string)
    ensures a + b + c + d == a + (b + c + d)
  {
  }

  lemma RegroupWrite(a: string, b: string, c: string, d: string)
    ensures a + b + (c + d) == a + (b + c + d)
  {
  }

  /** The text a filter key contributes: `x.field op value`. */
  function Condition(loopVar: string, f: FilterKey): string
  {
    loopVar + "." + f.FieldName + " " + f.Operator + " " + Show(FormatValue(f))
  }

  /** The text a sort field contributes: `x.field DIR`. */
  function SortTerm(loopVar: string, sf: SortField): string
  {
    loopVar + "." + sf.Field + " " + sf.Direction
  }

  /** The sort terms of `fields`, in order. */
  function SortTerms(loopVar: string, fields: seq<SortField>): (terms: seq<string>)
    ensures |terms| == |fields|
  {
    if fields == [] then []
    else SortTerms(loopVar, fields[..|fields| - 1]) + [SortTerm(loopVar, fields[|fields| - 1])]
  }

  /** `", x.field DIR"` for every field, as the loop of `Sort` writes them. */
  function SortTail(loopVar: string, fields: seq<SortField>): string
  {
    if fields == [] then ""
    else SortTail(loopVar, fields[..|fields| - 1]) + ", " + SortTerm(loopVar, fields[|fields| - 1])
  }

  /** Everything `Sort(fields...)` appends. */
  function SortClause(loopVar: string, fields: seq<SortField>): string
  {
    if |fields| == 0 then ""
    else "\n\tSORT " + SortTerm(loopVar, fields[0]) + (if |fields| > 1 then SortTail(loopVar, fields) else "")
  }

  /** The SORT clause lists its terms joined by ", "; with two or more fields the list starts with field 0 twice. */
  lemma SortClauseLists(loopVar: string, fields: seq<SortField>)
    ensures |fields| == 0 ==> SortClause(loopVar, fields) == ""
    ensures |fields| == 1 ==> SortClause(loopVar, fields) == "\n\tSORT " + SortTerm(loopVar, fields[0])
    ensures |fields| > 1 ==>
      SortClause(loopVar, fields) == "\n\tSORT " + Join(SortTerms(loopVar, [fields[0]] + fields), ", ")
  {
    if |fields| > 1 {
      var first := SortTerm(loopVar, fields[0]);
      var tail := SortTail(loopVar, fields);
      var terms := SortTerms(loopVar, fields);
      TailJoins(loopVar, first, fields);
      assert [fields[0]][..0] == [];
      TermsAppend(loopVar, [fields[0]], fields);
      assert SortTerms(loopVar, [fields[0]] + fields) == [first] + terms;
      assert SortClause(loopVar, fields) == "\n\tSORT " + first + tail;
      Regroup("\n\tSORT ", first, tail);
    }
  }

  lemma {:induction false} TailJoins(loopVar: string, first: string, fields: seq<SortField>)
    ensures first + SortTail(loopVar, fields) == Join([first] + SortTerms(loopVar, fields), ", ")
  {
    if fields == [] {
      assert first + "" == first;
    } else {
      var init := fields[..|fields| - 1];
      var last := SortTerm(loopVar, fields[|fields| - 1]);
      TailJoins(loopVar, first, init);
      JoinSnoc([first] + SortTerms(loopVar, init), last, ", ");
      assert [first] + SortTerms(loopVar, fields) == [first] + SortTerms(loopVar, init) + [last];
    }
  }

  lemma {:induction false} TermsAppend(loopVar: string, xs: seq<SortField>, ys: seq<SortField>)
    ensures SortTerms(loopVar, xs + ys) == SortTerms(loopVar, xs) + SortTerms(loopVar, ys)
    decreases |ys|
  {
    if ys != [] {
      var init := ys[..|ys| - 1];
      assert (xs + ys)[..|xs + ys| - 1] == xs + init;
      TermsAppend(loopVar, xs, init);
    } else {
      assert xs + ys == xs;
    }
  }

  function LimitClause(limit: Int64): string
  {
    "\n\tLIMIT " + Itoa(limit)
  }

  function ReturnClause(loopVar: string): string
  {
    "\n\tRETURN " + loopVar
  }

  /** `NewArangoQueryBuilder(c)`: a fresh builder whose text is `FOR x IN c`. */
  method NewArangoQueryBuilder(collectionName: string) returns (aqb: ArangoQueryBuilder)
    ensures fresh(aqb.QueryString)
    ensures aqb.loopVar == "x"
    ensures aqb.QueryString.buf == "FOR x IN " + collectionName
  {
    var b := new Builder<char>();
    aqb := ArangoQueryBuilder(b, "x");
    var _ := aqb.QueryString.WriteString("FOR " + aqb.loopVar + " IN " + collectionName);
  }

  /** `Sort(fields...)`: appends the SORT clause (nothing for no fields) and returns the same builder. */
  method Sort(aqb: ArangoQueryBuilder, sortFields: seq<SortField>) returns (r: ArangoQueryBuilder)
    modifies aqb.QueryString
    ensures r == aqb
    ensures aqb.QueryString.buf == old(aqb.QueryString.buf) + SortClause(aqb.loopVar, sortFields)
  {
    var v := aqb.loopVar;
    ghost var start := aqb.QueryString.buf;
    if |sortFields| > 0 {
      var _ := aqb.QueryString.WriteString("\n\tSORT " + SortTerm(v, sortFields[0]));
    }
    ghost var head := aqb.QueryString.buf;
    if |sortFields| > 1 {
      for i := 0 to |sortFields|
        invariant aqb.QueryString.buf == head + SortTail(v, sortFields[..i])
      {
        var sortField := sortFields[i];
        var _ := aqb.QueryString.WriteString(", " + SortTerm(v, sortField));
        TailStep(v, sortFields, i);
        RegroupWrite(head, SortTail(v, sortFields[..i]), ", ", SortTerm(v, sortField));
      }
      assert sortFields[..|sortFields|] == sortFields;
      Regroup(start, "\n\tSORT " + SortTerm(v, sortFields[0]), SortTail(v, sortFields));
    } else if |sortFields| == 1 {
      assert "\n\tSORT " + SortTerm(v, sortFields[0]) + "" == "\n\tSORT " + SortTerm(v, sortFields[0]);
    } else {
      assert start + "" == start;
    }
    r := aqb;
  }

  /** The loop of `Sort` extends the tail by one term per field. */
  lemma TailStep(loopVar: string, fields: seq<SortField>, i: nat)
    requires i < |fields|
    ensures SortTail(loopVar, fields[..i + 1]) == SortTail(loopVar, fields[..i]) + ", " + SortTerm(loopVar, fields[i])
  {
    assert fields[..i + 1][..i] == fields[..i];
  }

  /** `Limit(n)`: appends `LIMIT n`. */
  method Limit(aqb: ArangoQueryBuilder, limit: Int64) returns (r: ArangoQueryBuilder)
    modifies aqb.QueryString
    ensures r == aqb
    ensures aqb.QueryString.buf == old(aqb.QueryString.buf) + LimitClause(limit)
  {
    var _ := aqb.QueryString.WriteString("\n\tLIMIT " + Itoa(limit));
    r := aqb;
  }

  /** `Paginate(p)`: `Sort(p.SortFields...)` followed by `Limit(p.Limit)`. */
  method Paginate(aqb: ArangoQueryBuilder, p: Pagination.Paginate) returns (r: ArangoQueryBuilder)
    modifies aqb.QueryString
    ensures r == aqb
    ensures aqb.QueryString.buf
      == old(aqb.QueryString.buf) + SortClause(aqb.loopVar, p.SortFields) + LimitClause(p.Limit)
  {
    r := Sort(aqb, p.SortFields);
    r := Limit(r, p.Limit);
  }

  /** `Filter(f)`: appends `FILTER x.field op value` and continues as a filter builder on the same text. */
  method Filter(aqb: ArangoQueryBuilder, filter: FilterKey) returns (fqb: FilterQueryBuilder)
    modifies aqb.QueryString
    ensures fqb.aqb == aqb
    ensures aqb.QueryString.buf == old(aqb.QueryString.buf) + "\n\tFILTER " + Condition(aqb.loopVar, filter)
  {
    var _ := aqb.QueryString.WriteString("\n\tFILTER " + Condition(aqb.loopVar, filter));
    fqb := FilterQueryBuilder(aqb);
  }

  /** `Done()`: appends `RETURN x`. */
  method Done(aqb: ArangoQueryBuilder) returns (r: ArangoQueryBuilder)
    modifies aqb.QueryString
    ensures r == aqb
    ensures aqb.QueryString.buf == old(aqb.QueryString.buf) + ReturnClause(aqb.loopVar)
  {
    var _ := aqb.QueryString.WriteString("\n\tRETURN " + aqb.loopVar);
    r := aqb;
  }

  /** `String()`: the query text written so far. */
  function String(aqb: ArangoQueryBuilder): string
    reads aqb.QueryString
  {
    aqb.QueryString.String()
  }

  /** `And(f)`: extends the filter with ` && x.field op value`. */
  method And(fqb: FilterQueryBuilder, filter: FilterKey) returns (r: FilterQueryBuilder)
    modifies fqb.aqb.QueryString
    ensures r == fqb
    ensures fqb.aqb.QueryString.buf == old(fqb.aqb.QueryString.buf) + " && " + Condition(fqb.aqb.loopVar, filter)
  {
    var _ := fqb.aqb.QueryString.WriteString(" && " + Condition(fqb.aqb.loopVar, filter));
    r := fqb;
  }

  /** `Or(f)`: extends the filter with ` || x.field op value`. */
  method Or(fqb: FilterQueryBuilder, filter: FilterKey) returns (r: FilterQueryBuilder)
    modifies fqb.aqb.QueryString
    ensures r == fqb
    ensures fqb.aqb.QueryString.buf == old(fqb.aqb.QueryString.buf) + " || " + Condition(fqb.aqb.loopVar, filter)
  {
    var _ := fqb.aqb.QueryString.WriteString(" || " + Condition(fqb.aqb.loopVar, filter));
    r := fqb;
  }

  /** `Not(f)`: extends the filter with ` NOT x.field op value`. */
  method Not(fqb: FilterQueryBuilder, filter: FilterKey) returns (r: FilterQueryBuilder)
    modifies fqb.aqb.QueryString
    ensures r == fqb
    ensures fqb.aqb.QueryString.buf == old(fqb.aqb.QueryString.buf) + " NOT " + Condition(fqb.aqb.loopVar, filter)
  {
    var _ := fqb.aqb.QueryString.WriteString(" NOT " + Condition(fqb.aqb.loopVar, filter));
    r := fqb;
  }

  /** The filter key built for a query parameter from its first value. */
  function ParamKey(query: Values, param: string): FilterKey
  {
    FilterKeyFromURLElement(param, Get(query, param))
  }

  /** The filter keys of the parameters that have a non-empty value, in parameter order. */
  function FilterKeys(query: Values, params: seq<string>): seq<FilterKey>
  {
    if params == [] then []
    else
      var last := params[|params| - 1];
      var init := FilterKeys(query, params[..|params| - 1]);
      if Get(query, last) != "" then init + [ParamKey(query, last)] else init
  }

  /** The conditions the keys contribute, in order. */
  function Conditions(loopVar: string, keys: seq<FilterKey>): (conds: seq<string>)
    ensures |conds| == |keys|
  {
    if keys == [] then []
    else Conditions(loopVar, keys[..|keys| - 1]) + [Condition(loopVar, keys[|keys| - 1])]
  }

  /** How the conditions are joined: `||` when the query says `inclusive=true`, `&&` otherwise. */
  function Junction(query: Values): string
  {
    if Get(query, "inclusive") == "true" then " || " else " && "
  }

  /** A FILTER clause over the given keys; none at all when there are no keys. */
  function FilterText(loopVar: string, keys: seq<FilterKey>, junction: string): string
  {
    if keys == [] then "" else "\n\tFILTER " + Join(Conditions(loopVar, keys), junction)
  }

  /** The FILTER clause: none when no parameter has a value, else every condition joined by the junction. */
  function FilterSection(loopVar: string, query: Values, params: seq<string>): string
  {
    FilterText(loopVar, FilterKeys(query, params), Junction(query))
  }

  /** The FILTER clause of a single key. */
  lemma FilterTextOne(loopVar: string, key: FilterKey, junction: string)
    ensures FilterText(loopVar, [key], junction) == "\n\tFILTER " + Condition(loopVar, key)
  {
  }

  /** One more key extends a FILTER clause by the junction and the key's condition. */
  lemma FilterTextSnoc(loopVar: string, keys: seq<FilterKey>, key: FilterKey, junction: string)
    requires keys != []
    ensures FilterText(loopVar, keys + [key], junction)
      == FilterText(loopVar, keys, junction) + junction + Condition(loopVar, key)
  {
    var conds := Conditions(loopVar, keys);
    var c := Condition(loopVar, key);
    assert (keys + [key])[..|keys|] == keys;
    assert Conditions(loopVar, keys + [key]) == conds + [c];
    JoinSnoc(conds, c, junction);
    Regroup4("\n\tFILTER ", Join(conds, junction), junction, c);
  }

  /** Parameters without values contribute no key. */
  lemma {:induction false} NoKeys(query: Values, params: seq<string>)
    requires forall j :: 0 <= j < |params| ==> Get(query, params[j]) == ""
    ensures FilterKeys(query, params) == []
  {
    if params != [] {
      NoKeys(query, params[..|params| - 1]);
    }
  }

  /** The keys of a longer prefix of the parameters: one more key when the next parameter has a value. */
  lemma KeysStep(query: Values, params: seq<string>, k: nat)
    requires k < |params|
    ensures FilterKeys(query, params[..k + 1])
      == FilterKeys(query, params[..k]) + (if Get(query, params[k]) != "" then [ParamKey(query, params[k])] else [])
  {
    assert params[..k + 1][..k] == params[..k];
  }

  /** The keys after one more parameter, in terms of that parameter's value and key. */
  lemma KeysNext(query: Values, params: seq<string>, k: nat, keys: seq<FilterKey>, val: string, key: FilterKey)
    requires k < |params|
    requires keys == FilterKeys(query, params[..k])
    requires val == Get(query, params[k]) && key == FilterKeyFromURLElement(params[k], val)
    ensures val != "" ==> FilterKeys(query, params[..k + 1]) == keys + [key]
    ensures val == "" ==> FilterKeys(query, params[..k + 1]) == keys
  {
    KeysStep(query, params, k);
  }

  /** Regrouping the text `BuildFilterQueryFromURLParams` appends after the filter. */
  lemma RegroupTail(a: string, f: string, s: string, l: string, r: string)
    ensures a + f + s + l + s + l + r == a + f + (s + l) + (s + l) + r
  {
  }

  /**
   * The first loop of `BuildFilterQueryFromURLParams`: the first parameter
   * with a value opens the FILTER clause with its condition. Returns the index
   * of that parameter (0 when there is none) and, as a ghost, whether there is one.
   */
  method OpenFilter(aqb: ArangoQueryBuilder, query: Values, queryParams: seq<string>)
    returns (fqb: FilterQueryBuilder, i: nat, ghost found: bool)
    modifies aqb.QueryString
    ensures fqb.aqb == aqb
    ensures i < |queryParams| || (i == 0 && !found)
    ensures found <==> exists j :: 0 <= j < |queryParams| && Get(query, queryParams[j]) != ""
    ensures found ==> FilterKeys(query, queryParams[..i + 1]) != []
    ensures !found ==> aqb.QueryString.buf == old(aqb.QueryString.buf)
    ensures found ==>
      aqb.QueryString.buf
      == old(aqb.QueryString.buf) + FilterText(aqb.loopVar, FilterKeys(query, queryParams[..i + 1]), Junction(query))
  {
    var v := aqb.loopVar;
    i := 0;
    found := false;
    fqb := FilterQueryBuilder(aqb);
    for idx := 0 to |queryParams|
      invariant !found && fqb.aqb == aqb && unchanged(aqb.QueryString)
      invariant forall j :: 0 <= j < idx ==> Get(query, queryParams[j]) == ""
    {
      var param := queryParams[idx];
      var val := Get(query, param);
      if val != "" {
        var key := FilterKeyFromURLElement(param, val);
        fqb := Filter(aqb, key);
        i := idx;
        found := true;
        NoKeys(query, queryParams[..idx]);
        KeysStep(query, queryParams, idx);
        FilterTextOne(v, key, Junction(query));
        Regroup(old(aqb.QueryString.buf), "\n\tFILTER ", Condition(v, key));
        return;
      }
    }
  }

  /**
   * The second loop of `BuildFilterQueryFromURLParams`: every later parameter
   * with a value extends the filter with the query's junction.
   */
  method ExtendFilter(fqb: FilterQueryBuilder, query: Values, queryParams: seq<string>, i: nat,
                      ghost found: bool, ghost start: string)
    returns (r: FilterQueryBuilder)
    requires i < |queryParams|
    requires found <==> FilterKeys(query, queryParams[..i + 1]) != []
    requires !found ==> forall j :: 0 <= j < |queryParams| ==> Get(query, queryParams[j]) == ""
    requires fqb.aqb.QueryString.buf
      == start + FilterText(fqb.aqb.loopVar, FilterKeys(query, queryParams[..i + 1]), Junction(query))
    modifies fqb.aqb.QueryString
    ensures r == fqb
    ensures fqb.aqb.QueryString.buf == start + FilterSection(fqb.aqb.loopVar, query, queryParams)
  {
    var v := fqb.aqb.loopVar;
    r := fqb;
    ghost var keys := FilterKeys(query, queryParams[..i + 1]);
    ghost var junction := Junction(query);
    for k := i + 1 to |queryParams|
      invariant r == fqb
      invariant keys == FilterKeys(query, queryParams[..k])
      invariant fqb.aqb.QueryString.buf == start + FilterText(v, keys, junction)
      invariant found <==> keys != []
    {
      var param := queryParams[k];
      var val := Get(query, param);
      KeysNext(query, queryParams, k, keys, val, FilterKeyFromURLElement(param, val));
      if val != "" {
        var key := FilterKeyFromURLElement(param, val);
        if Get(query, "inclusive") == "true" {
          r := Or(r, key);
        } else {
          r := And(r, key);
        }
        FilterTextSnoc(v, keys, key, junction);
        Regroup4(start, FilterText(v, keys, junction), junction, Condition(v, key));
        keys := keys + [key];
      }
    }
    assert queryParams[..|queryParams|] == queryParams;
  }

  /**
   * `BuildFilterQueryFromURLParams`. With no parameter names the builder is
   * returned untouched. Otherwise it appends the FILTER clause, then the SORT
   * and LIMIT clauses twice (both builder copies write to the same text), then
   * `RETURN x`. The error is always nil.
   */
  method BuildFilterQueryFromURLParams(aqb: ArangoQueryBuilder, query: Values, queryParams: seq<string>, paginate: Pagination.Paginate)
    returns (r: ArangoQueryBuilder, err: Option<string>)
    modifies aqb.QueryString
    ensures r == aqb && err == None
    ensures |queryParams| == 0 ==> aqb.QueryString.buf == old(aqb.QueryString.buf)
    ensures |queryParams| > 0 ==>
      var v := aqb.loopVar;
      var sortLimit := SortClause(v, paginate.SortFields) + LimitClause(paginate.Limit);
      aqb.QueryString.buf
        == old(aqb.QueryString.buf) + FilterSection(v, query, queryParams) + sortLimit + sortLimit + ReturnClause(v)
  {
    if |queryParams| < 1 {
      return aqb, None;
    }
    var v := aqb.loopVar;
    ghost var start := aqb.QueryString.buf;
    var fqb, i, found := OpenFilter(aqb, query, queryParams);
    if !found {
      NoKeys(query, queryParams[..i + 1]);
      NoKeys(query, queryParams);
      assert start + [] == start;
    }
    if i + 1 < |queryParams| {
      fqb := ExtendFilter(fqb, query, queryParams, i, found, start);
    } else {
      assert queryParams[..i + 1] == queryParams;
    }
    ghost var filtered := aqb.QueryString.buf;
    assert filtered == start + FilterSection(v, query, queryParams);

    var sorted := Sort(fqb.aqb, paginate.SortFields);
    var limited := Limit(sorted, paginate.Limit);
    sorted := Sort(fqb.aqb, paginate.SortFields);
    limited := Limit(sorted, paginate.Limit);
    r := Done(limited);
    err := None;
    RegroupTail(start, FilterSection(v, query, queryParams), SortClause(v, paginate.SortFields),
                LimitClause(paginate.Limit), ReturnClause(v));
  }
}
