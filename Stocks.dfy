/** `getStocks`: validate the query string, then build the quantity-range
    and product filters and the sort and paging arguments for the store. */
module Stocks {
  import opened Common
  import opened Text
  import opened QueryParams

  /** The query string of `GET /stocks`; "" is a parameter sent empty (`?limit=`). */
  datatype StockParams = StockParams(
    minQuantity: string, maxQuantity: string, productId: string,
    sortBy: string, sort: string, limit: string, offset: string)

  /** `{ gte?, lte? }` on the quantity column. */
  datatype QuantityRange = QuantityRange(gte: Option<int>, lte: Option<int>)

  /** The `where` object: `{ quantity?, productId? }`. */
  datatype StockFilter = StockFilter(quantity: Option<QuantityRange>, productId: Option<int>)

  /** The seven guards of the handler, in the order they run. */
  function StockChecks(fields: seq<string>, p: StockParams): seq<Check> {
    [ Check(!OptionalMember(p.sortBy, fields), Failure(400, "Stock doesn't have " + p.sortBy + " property")),
      Check(!OptionalMember(p.sort, SortMethods), Failure(400, "Sort method is invalid")),
      Check(!OptionalNumber(p.limit), Failure(400, "Limit value must be numeric")),
      Check(!OptionalNumber(p.offset), Failure(400, "Offset value must be numeric")),
      Check(!OptionalNumber(p.minQuantity), Failure(400, "Minimum quantity must be numeric")),
      Check(!OptionalNumber(p.maxQuantity), Failure(400, "Maximum quantity must be numeric")),
      Check(!OptionalNumber(p.productId), Failure(400, "Product ID must be numeric")) ]
  }

  /** Every parameter is either empty or well formed: `sortBy` a column of
      the Stock table, `sort` a direction, the rest numbers. */
  predicate Acceptable(fields: seq<string>, p: StockParams) {
    && OptionalMember(p.sortBy, fields)
    && OptionalMember(p.sort, SortMethods)
    && OptionalNumber(p.limit)
    && OptionalNumber(p.offset)
    && OptionalNumber(p.minQuantity)
    && OptionalNumber(p.maxQuantity)
    && OptionalNumber(p.productId)
  }

  /** The 400 the handler throws, if any: the first failing guard. */
  function StockQueryError(fields: seq<string>, p: StockParams): (r: Option<Failure>)
    ensures r.None? <==> Acceptable(fields, p)
    ensures r.Some? ==> r.value.status == 400
  {
    var cs := StockChecks(fields, p);
    assert forall i :: 0 <= i < |cs| ==> cs[i].failure.status == 400;
    NoneFailsUnrolled(cs);
    FirstFailing(cs)
  }

  /** Whatever else is wrong, a sort column that the Stock table lacks is what is reported. */
  lemma UnknownSortColumnReportedFirst(fields: seq<string>, p: StockParams)
    requires !OptionalMember(p.sortBy, fields)
    ensures StockQueryError(fields, p) == Some(Failure(400, "Stock doesn't have " + p.sortBy + " property"))
  {
  }

  /** A guard is reported exactly when every guard before it passed: the
      order of StockChecks is the order the handler tests in. */
  lemma {:induction false} StockFirstFailureReported(fields: seq<string>, p: StockParams, k: nat)
    requires k < |StockChecks(fields, p)|
    requires StockChecks(fields, p)[k].fails && NoneFails(StockChecks(fields, p)[..k])
    ensures StockQueryError(fields, p) == Some(StockChecks(fields, p)[k].failure)
  {
    FirstFailingAt(StockChecks(fields, p), k);
  }

  /** A minimum above the maximum is no error: the range is not checked. */
  lemma InvertedRangeAccepted(fields: seq<string>, lo: int, hi: int)
    requires lo > hi
    ensures StockQueryError(fields, StockParams(IntToString(lo), IntToString(hi), "", "", "", "", "")).None?
  {
    NumberRoundTrip(lo);
    NumberRoundTrip(hi);
  }

  /** The handler up to the store call: the 400 of the first failing guard,
      or the `findMany` argument built from the parameters. */
  method GetStocks(fields: seq<string>, p: StockParams) returns (r: Result<Query<StockFilter>>)
    ensures r.Err? <==> !Acceptable(fields, p)
    ensures r.Err? ==> StockQueryError(fields, p) == Some(r.error)
    // the quantity filter: `gte` from minQuantity, `lte` from maxQuantity, kept together
    ensures r.Ok? ==> (r.value.where.quantity.Some? <==> p.minQuantity != "" || p.maxQuantity != "")
    ensures r.Ok? && r.value.where.quantity.Some? ==>
              var range := r.value.where.quantity.value;
              && (range.gte.Some? <==> p.minQuantity != "")
              && (range.gte.Some? ==> Number(p.minQuantity) == Num(range.gte.value))
              && (range.lte.Some? <==> p.maxQuantity != "")
              && (range.lte.Some? ==> Number(p.maxQuantity) == Num(range.lte.value))
    ensures r.Ok? ==> (r.value.where.productId.Some? <==> p.productId != "")
    ensures r.Ok? && r.value.where.productId.Some? ==> Number(p.productId) == Num(r.value.where.productId.value)
    // the sort column is a Stock column or the default "id"; the direction is allowed
    ensures r.Ok? ==> r.value.orderBy == (if p.sortBy == "" then "id" else p.sortBy)
    ensures r.Ok? ==> r.value.orderBy in fields || r.value.orderBy == "id"
    ensures r.Ok? ==> r.value.direction in SortMethods && (p.sort != "" ==> r.value.direction == p.sort)
    ensures r.Ok? && p.sort == "" ==> r.value.direction == "asc"
    ensures r.Ok? ==> (p.limit == "" ==> r.value.take == 5) && (p.limit != "" ==> Number(p.limit) == Num(r.value.take))
    ensures r.Ok? ==> (p.offset == "" ==> r.value.skip == 0) && (p.offset != "" ==> Number(p.offset) == Num(r.value.skip))
  {
    var error := StockQueryError(fields, p);
    if error.Some? {
      return Err(error.value);
    }
    var filters := StockFilter(None, None);
    if p.minQuantity != "" {
      filters := filters.(quantity := Some(QuantityRange(Some(Number(p.minQuantity).value), None)));
    }
    if p.maxQuantity != "" {
      var gte := if filters.quantity.Some? then filters.quantity.value.gte else None;
      filters := filters.(quantity := Some(QuantityRange(gte, Some(Number(p.maxQuantity).value))));
    }
    if p.productId != "" {
      filters := filters.(productId := Some(Number(p.productId).value));
    }
    r := Ok(Paged(filters, p.sortBy, p.sort, p.limit, p.offset));
  }

  /** The 200 reply wrapped around the rows the store returned, as `data: { stocks }`. */
  function StocksReply<R>(rows: seq<R>): (r: Reply<Keyed<R>>)
    ensures r.success && r.status == 200 && r.dataCount == |rows| && r.data == Keyed("stocks", rows)
    ensures r.message == "Stocks retrieved successfully"
  {
    Listing("Stocks retrieved successfully", "stocks", rows)
  }
}
