/**
 * The sort directions of arango.go (`SORT_ASC`, `SORT_DESC`) and the rule the
 * `sort` query parameter parsers of request.go and paginate.go share for
 * choosing one. They sit in a module of their own because the query builder
 * and the paginator use each other's declarations.
 */
module Sorting {
  import opened GoStrings

  type SortDirection = string

  const SORT_ASC: SortDirection := "ASC"
  const SORT_DESC: SortDirection := "DESC"

  /** A `sort` piece, split on spaces, asks for descending order when its second word is "desc" in any case. */
  predicate AsksDescending(words: seq<string>)
  {
    |words| > 1 && ToLower(words[1]) == "desc"
  }

  function DirectionOf(words: seq<string>): SortDirection
  {
    if AsksDescending(words) then SORT_DESC else SORT_ASC
  }

  /** Which words count as "desc": exactly the four letters, each in either case. */
  lemma AsksDescendingCases(words: seq<string>)
    requires |words| > 1
    ensures AsksDescending(words) <==>
      |words[1]| == 4 && words[1][0] in "dD" && words[1][1] in "eE" && words[1][2] in "sS" && words[1][3] in "cC"
  {
    var w := words[1];
    if |w| == 4 && w[0] in "dD" && w[1] in "eE" && w[2] in "sS" && w[3] in "cC" {
      assert ToLower(w) == "desc";
    }
    if AsksDescending(words) {
      assert ToLower(w)[0] == 'd' && ToLower(w)[1] == 'e' && ToLower(w)[2] == 's' && ToLower(w)[3] == 'c';
    }
  }
}
