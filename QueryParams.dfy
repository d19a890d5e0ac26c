/** What the list handlers share: query parameters arrive as strings, a
    parameter sent empty (`?limit=`) is the empty string, and the sort, page-size and page-start
    arguments handed to the store fall back to fixed defaults. */
module QueryParams {
  import opened Common
  import opened Text

  /** The allowed sort directions; the first is the default. */
  const SortMethods: seq<string> := ["asc", "desc"]

  /** Empty or a number: the guard `Number.isNaN(Number(s)) && s.length !== 0`
      fails exactly when this does not hold. */
  predicate OptionalNumber(s: string) {
    s == "" || Number(s).Num?
  }

  /** Empty or one of `allowed`: the guard `!allowed.includes(s) && s.length !== 0`
      fails exactly when this does not hold. */
  predicate OptionalMember(s: string, allowed: seq<string>) {
    s == "" || s in allowed
  }

  /** The `{ where, orderBy: { [field]: direction }, take, skip }` argument of `findMany`. */
  datatype Query<+F> = Query(where: F, orderBy: string, direction: string, take: int, skip: int)

  /** The sort, page-size and page-start arguments: `sortBy` or "id", `sort`
      or "asc", `Number(limit)` or 5, `Number(offset)` or 0. */
  function Paged<F>(where: F, sortBy: string, sort: string, limit: string, offset: string): (q: Query<F>)
    requires OptionalNumber(limit) && OptionalNumber(offset)
    ensures q.where == where
    ensures (sortBy == "" ==> q.orderBy == "id") && (sortBy != "" ==> q.orderBy == sortBy)
    ensures (sort == "" ==> q.direction == "asc") && (sort != "" ==> q.direction == sort)
    ensures (limit == "" ==> q.take == 5) && (limit != "" ==> Number(limit) == Num(q.take))
    ensures (offset == "" ==> q.skip == 0) && (offset != "" ==> Number(offset) == Num(q.skip))
  {
    Query(where,
          if |sortBy| == 0 then "id" else sortBy,
          if |sort| == 0 then SortMethods[0] else sort,
          if |limit| == 0 then 5 else Number(limit).value,
          if |offset| == 0 then 0 else Number(offset).value)
  }

  /** The one-key object `{ [key]: rows }` a list handler sends as `data`. */
  datatype Keyed<+T> = Keyed(key: string, rows: seq<T>)

  /** The 200 envelope of a list handler: the rows under `key`, and
      `dataCount` the number of rows returned. */
  function Listing<T>(message: string, key: string, rows: seq<T>): (r: Reply<Keyed<T>>)
    ensures r.success && r.status == 200 && r.message == message
    ensures r.data == Keyed(key, rows) && r.dataCount == |rows|
  {
    Reply(true, 200, message, |rows|, Keyed(key, rows))
  }

  /** Only a parameter sent empty gets the default: a page size or page start of
      white space passes the guard and `Number` makes it 0. */
  lemma WhiteSpacePagingIsZero()
    ensures OptionalNumber(" ")
    ensures Paged(0, "", "", " ", " ") == Query(0, "id", "asc", 0, 0)
  {
    assert AllSpaces(" ");
    assert Number(" ") == Num(0);
  }

  /** A page size or page start that is not a number is refused ("abc" is NaN). */
  lemma LettersAreNotNumeric()
    ensures !OptionalNumber("abc")
  {
    var s := "abc";
    assert !IsSpace(s[0]) && !IsSpace(s[2]);
    TrimUnpadded(s);
    assert !IsDigit(s[0]);
    assert ParseDigits(s) == None;
  }
}
