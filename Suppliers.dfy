/** The supplier controller: listing suppliers (query validation, filters
    and defaults) and replenishing a product's stock from a supplier's
    stock in one transaction. */
module Suppliers {
  import opened Common
  import opened Text
  import opened QueryParams

  // ---------------------------------------------------------------------
  // getSuppliers
  // ---------------------------------------------------------------------

  /** The query string of the supplier listing; "" is a parameter sent empty (`?limit=`). */
  datatype SupplierParams = SupplierParams(
    supplierId: string, supplierName: string,
    sortBy: string, sort: string, limit: string, offset: string)

  /** The `where` object: `{ id?, name? }`. */
  datatype SupplierFilter = SupplierFilter(id: Option<int>, name: Option<string>)

  /** The five guards of the listing, in the order they run. */
  function SupplierChecks(fields: seq<string>, p: SupplierParams): seq<Check> {
    [ Check(!OptionalMember(p.sortBy, fields), Failure(400, "Supplier doesn't have " + p.sortBy + " property")),
      Check(!OptionalMember(p.sort, SortMethods), Failure(400, "Sort method is invalid")),
      Check(!OptionalNumber(p.limit), Failure(400, "Limit value must be numeric")),
      Check(!OptionalNumber(p.offset), Failure(400, "Offset value must be numeric")),
      Check(!OptionalNumber(p.supplierId), Failure(400, "Supplier ID must be numeric")) ]
  }

  /** Every parameter is empty or well formed: `sortBy` a column of the
      Supplier table, `sort` a direction, the rest numbers (the name is free text). */
  predicate Acceptable(fields: seq<string>, p: SupplierParams) {
    && OptionalMember(p.sortBy, fields)
    && OptionalMember(p.sort, SortMethods)
    && OptionalNumber(p.limit)
    && OptionalNumber(p.offset)
    && OptionalNumber(p.supplierId)
  }

  /** The 400 the listing throws, if any: the first failing guard. */
  function SupplierQueryError(fields: seq<string>, p: SupplierParams): (r: Option<Failure>)
    ensures r.None? <==> Acceptable(fields, p)
    ensures r.Some? ==> r.value.status == 400
  {
    var cs := SupplierChecks(fields, p);
    assert forall i :: 0 <= i < |cs| ==> cs[i].failure.status == 400;
    NoneFailsUnrolled(cs);
    FirstFailing(cs)
  }

  /** A guard is reported exactly when every guard before it passed. */
  lemma {:induction false} SupplierFirstFailureReported(fields: seq<string>, p: SupplierParams, k: nat)
    requires k < |SupplierChecks(fields, p)|
    requires SupplierChecks(fields, p)[k].fails && NoneFails(SupplierChecks(fields, p)[..k])
    ensures SupplierQueryError(fields, p) == Some(SupplierChecks(fields, p)[k].failure)
  {
    FirstFailingAt(SupplierChecks(fields, p), k);
  }

  /** Any sort column outside the Supplier table is refused, whatever the
      other parameters are; with every parameter empty nothing is refused. */
  lemma SortColumnWhitelisted(fields: seq<string>, p: SupplierParams)
    ensures p.sortBy !in fields && p.sortBy != "" ==>
              SupplierQueryError(fields, p) == Some(Failure(400, "Supplier doesn't have " + p.sortBy + " property"))
    ensures SupplierQueryError(fields, SupplierParams("", "", "", "", "", "")).None?
  {
  }

  /** The listing up to the store call: the 400 of the first failing guard,
      or the `findMany` argument built from the parameters. */
  method GetSuppliers(fields: seq<string>, p: SupplierParams) returns (r: Result<Query<SupplierFilter>>)
    ensures r.Err? <==> !Acceptable(fields, p)
    ensures r.Err? ==> SupplierQueryError(fields, p) == Some(r.error)
    ensures r.Ok? ==> (r.value.where.id.Some? <==> p.supplierId != "")
    ensures r.Ok? && r.value.where.id.Some? ==> Number(p.supplierId) == Num(r.value.where.id.value)
    ensures r.Ok? ==> r.value.where.name == (if p.supplierName == "" then None else Some(p.supplierName))
    ensures r.Ok? ==> r.value.orderBy == (if p.sortBy == "" then "id" else p.sortBy)
    ensures r.Ok? ==> r.value.orderBy in fields || r.value.orderBy == "id"
    ensures r.Ok? ==> r.value.direction in SortMethods && (p.sort != "" ==> r.value.direction == p.sort)
    ensures r.Ok? && p.sort == "" ==> r.value.direction == "asc"
    ensures r.Ok? ==> (p.limit == "" ==> r.value.take == 5) && (p.limit != "" ==> Number(p.limit) == Num(r.value.take))
    ensures r.Ok? ==> (p.offset == "" ==> r.value.skip == 0) && (p.offset != "" ==> Number(p.offset) == Num(r.value.skip))
  {
    var error := SupplierQueryError(fields, p);
    if error.Some? {
      return Err(error.value);
    }
    var filters := SupplierFilter(None, None);
    if p.supplierId != "" {
      filters := filters.(id := Some(Number(p.supplierId).value));
    }
    if p.supplierName != "" {
      filters := filters.(name := Some(p.supplierName));
    }
    r := Ok(Paged(filters, p.sortBy, p.sort, p.limit, p.offset));
  }

  /** The 200 reply wrapped around the rows the store returned, as `data: { suppliers }`. */
  function SuppliersReply<R>(rows: seq<R>): (r: Reply<Keyed<R>>)
    ensures r.success && r.status == 200 && r.dataCount == |rows| && r.data == Keyed("suppliers", rows)
    ensures r.message == "Suppliers retrieved successfully"
  {
    Listing("Suppliers retrieved successfully", "suppliers", rows)
  }

  // ---------------------------------------------------------------------
  // updateStockAndQuantity
  // ---------------------------------------------------------------------

  /** A replenishment that passed every guard: `amount` units move from
      supplier `supplierId` to the Stock row of product `productId`. */
  datatype Transfer = Transfer(supplierId: int, productId: int, amount: int)

  /** The updated rows the transaction returns. */
  datatype SupplierRow = SupplierRow(id: int, stock: int)
  datatype StockRow = StockRow(productId: int, quantity: int)
  datatype Replenishment = Replenishment(supplier: SupplierRow, stock: StockRow)

  /** All eight guards pass on the coerced body values: a positive numeric
      amount, numeric ids, an existing supplier, product and Stock row, and
      enough supplier stock. */
  predicate Admissible(supplierStock: map<int, int>, productName: map<int, string>, stockQty: map<int, int>,
                       amount: JsNumber, supplierId: JsNumber, productId: JsNumber)
  {
    && amount.Num? && amount.value > 0
    && supplierId.Num? && productId.Num?
    && supplierId.value in supplierStock
    && productId.value in productName
    && productId.value in stockQty
    && supplierStock[supplierId.value] >= amount.value
  }

  /** The guards of `updateStockAndQuantity` in the order they run, on
      `Number(amount)`, `Number(supplierId)` and `Number(productId)` (the
      not-found messages quote the ids as sent): the first failure is
      thrown; when none fails, the transfer to perform. */
  function ReplenishCheck(supplierStock: map<int, int>, productName: map<int, string>, stockQty: map<int, int>,
                          amount: JsNumber, supplierId: JsNumber, productId: JsNumber,
                          supplierText: string, productText: string): (r: Result<Transfer>)
    ensures r.Ok? <==> Admissible(supplierStock, productName, stockQty, amount, supplierId, productId)
    ensures r.Ok? ==> amount == Num(r.value.amount) && supplierId == Num(r.value.supplierId)
                      && productId == Num(r.value.productId)
    ensures r.Ok? ==> 0 < r.value.amount <= supplierStock[r.value.supplierId]
    // not-found is reported only for well-formed input
    ensures r.Err? ==> (r.error.status == 404 <==>
              && amount.Num? && amount.value > 0 && supplierId.Num? && productId.Num?
              && (|| supplierId.value !in supplierStock
                  || productId.value !in productName
                  || productId.value !in stockQty))
    ensures r.Err? ==> r.error.status == 400 || r.error.status == 404
  {
    if amount.NaN? then Err(Failure(400, "Amount must be numeric"))
    else if amount.value <= 0 then Err(Failure(400, "Amount must be greater than 0"))
    else if supplierId.NaN? then Err(Failure(400, "Supplier ID must be numeric"))
    else if productId.NaN? then Err(Failure(400, "Product ID must be numeric"))
    else if supplierId.value !in supplierStock then
      Err(Failure(404, "Supplier with ID: " + supplierText + " is not found"))
    else if productId.value !in productName then
      Err(Failure(404, "Product with ID: " + productText + " is not found"))
    else if productId.value !in stockQty then
      Err(Failure(404, "Stock with ID: " + productText + " is not found"))
    else if supplierStock[supplierId.value] < amount.value then
      Err(Failure(400, "Supplier stock is not sufficient"))
    else Ok(Transfer(supplierId.value, productId.value, amount.value))
  }

  /** Which guard is reported: each message appears exactly when the
      guards before it passed and its own failed. */
  lemma ReplenishFirstFailure(supplierStock: map<int, int>, productName: map<int, string>, stockQty: map<int, int>,
                              a: JsNumber, s: JsNumber, p: JsNumber, supplierText: string, productText: string)
    ensures var r := ReplenishCheck(supplierStock, productName, stockQty, a, s, p, supplierText, productText);
            && (a.NaN? ==> r == Err(Failure(400, "Amount must be numeric")))
            && (a.Num? && a.value <= 0 ==> r == Err(Failure(400, "Amount must be greater than 0")))
            && (a.Num? && a.value > 0 && s.NaN? ==> r == Err(Failure(400, "Supplier ID must be numeric")))
            && (a.Num? && a.value > 0 && s.Num? && p.NaN? ==> r == Err(Failure(400, "Product ID must be numeric")))
            && (a.Num? && a.value > 0 && s.Num? && p.Num? ==>
                  && (s.value !in supplierStock ==>
                        r == Err(Failure(404, "Supplier with ID: " + supplierText + " is not found")))
                  && (s.value in supplierStock && p.value !in productName ==>
                        r == Err(Failure(404, "Product with ID: " + productText + " is not found")))
                  && (s.value in supplierStock && p.value in productName && p.value !in stockQty ==>
                        r == Err(Failure(404, "Stock with ID: " + productText + " is not found")))
                  && (s.value in supplierStock && p.value in productName && p.value in stockQty
                      && supplierStock[s.value] < a.value ==>
                        r == Err(Failure(400, "Supplier stock is not sufficient"))))
  {
  }

  /** A blank amount is the number 0, so it is refused as not positive
      rather than as not numeric. */
  lemma BlankAmountIsNotPositive(supplierStock: map<int, int>, productName: map<int, string>, stockQty: map<int, int>,
                                 supplierId: string, productId: string)
    ensures ReplenishCheck(supplierStock, productName, stockQty, Number(""), Number(supplierId), Number(productId),
                           supplierId, productId)
            == Err(Failure(400, "Amount must be greater than 0"))
  {
    assert Number("") == Num(0);
  }

  /** The supplier table after the transfer's decrement. */
  function Debited(supplierStock: map<int, int>, t: Transfer): map<int, int>
    requires t.supplierId in supplierStock
  {
    supplierStock[t.supplierId := supplierStock[t.supplierId] - t.amount]
  }

  /** The Stock table after the transfer's increment. */
  function Credited(stockQty: map<int, int>, t: Transfer): map<int, int>
    requires t.productId in stockQty
  {
    stockQty[t.productId := stockQty[t.productId] + t.amount]
  }

  /** What an admitted transfer does to the two tables: the amount leaves
      the supplier and reaches the Stock row, the total is conserved, the
      supplier stays non-negative, and no other row moves. */
  lemma TransferEffect(supplierStock: map<int, int>, productName: map<int, string>, stockQty: map<int, int>,
                       a: JsNumber, s: JsNumber, p: JsNumber, supplierText: string, productText: string)
    requires ReplenishCheck(supplierStock, productName, stockQty, a, s, p, supplierText, productText).Ok?
    ensures var t := ReplenishCheck(supplierStock, productName, stockQty, a, s, p, supplierText, productText).value;
            var ss, sq := Debited(supplierStock, t), Credited(stockQty, t);
            && ss.Keys == supplierStock.Keys && sq.Keys == stockQty.Keys
            && ss[t.supplierId] == supplierStock[t.supplierId] - t.amount
            && sq[t.productId] == stockQty[t.productId] + t.amount
            && ss[t.supplierId] + sq[t.productId] == supplierStock[t.supplierId] + stockQty[t.productId]
            && ss[t.supplierId] >= 0
            && (forall k :: k in ss && k != t.supplierId ==> ss[k] == supplierStock[k])
            && (forall k :: k in sq && k != t.productId ==> sq[k] == stockQty[k])
  {
  }

  /** The three tables the replenishment reads and writes, keyed by
      supplier id, product id and product id respectively. */
  class SupplierStore {
    var supplierStock: map<int, int>
    var productName: map<int, string>
    var stockQty: map<int, int>

    constructor (supplierStock: map<int, int>, productName: map<int, string>, stockQty: map<int, int>)
      ensures this.supplierStock == supplierStock && this.productName == productName
      ensures this.stockQty == stockQty
    {
      this.supplierStock := supplierStock;
      this.productName := productName;
      this.stockQty := stockQty;
    }

    /** `updateStockAndQuantity`: the three body fields are coerced with
        `Number(...)`, then the guards and the transaction run on them. */
    method UpdateStockAndQuantity(amount: string, supplierId: string, productId: string)
      returns (r: Result<Reply<Replenishment>>)
      modifies this
      ensures productName == old(productName)
      ensures match ReplenishCheck(old(supplierStock), old(productName), old(stockQty),
                                   Number(amount), Number(supplierId), Number(productId), supplierId, productId)
              case Err(f) =>
                r == Err(f) && supplierStock == old(supplierStock) && stockQty == old(stockQty)
              case Ok(t) =>
                && supplierStock == Debited(old(supplierStock), t)
                && stockQty == Credited(old(stockQty), t)
                && r == Ok(Reply(true, 201, productName[t.productId] + " stock has been updated", 2,
                                 Replenishment(SupplierRow(t.supplierId, supplierStock[t.supplierId]),
                                               StockRow(t.productId, stockQty[t.productId]))))
    {
      r := Replenish(Number(amount), Number(supplierId), Number(productId), supplierId, productId);
    }

    /** Every guard runs before the store is touched; the supplier's
        decrement and the Stock row's increment are one atomic update. */
    method Replenish(amount: JsNumber, supplierId: JsNumber, productId: JsNumber,
                     supplierText: string, productText: string)
      returns (r: Result<Reply<Replenishment>>)
      modifies this
      ensures productName == old(productName)
      ensures match ReplenishCheck(old(supplierStock), old(productName), old(stockQty),
                                   amount, supplierId, productId, supplierText, productText)
              case Err(f) =>
                r == Err(f) && supplierStock == old(supplierStock) && stockQty == old(stockQty)
              case Ok(t) =>
                && supplierStock == Debited(old(supplierStock), t)
                && stockQty == Credited(old(stockQty), t)
                && r == Ok(Reply(true, 201, productName[t.productId] + " stock has been updated", 2,
                                 Replenishment(SupplierRow(t.supplierId, supplierStock[t.supplierId]),
                                               StockRow(t.productId, stockQty[t.productId]))))
    {
      if amount.NaN? { return Err(Failure(400, "Amount must be numeric")); }
      if amount.value <= 0 { return Err(Failure(400, "Amount must be greater than 0")); }
      if supplierId.NaN? { return Err(Failure(400, "Supplier ID must be numeric")); }
      if productId.NaN? { return Err(Failure(400, "Product ID must be numeric")); }
      var sid, pid, n := supplierId.value, productId.value, amount.value;

      if sid !in supplierStock {
        return Err(Failure(404, "Supplier with ID: " + supplierText + " is not found"));
      }
      if pid !in productName {
        return Err(Failure(404, "Product with ID: " + productText + " is not found"));
      }
      if pid !in stockQty {
        return Err(Failure(404, "Stock with ID: " + productText + " is not found"));
      }
      if supplierStock[sid] < n {
        return Err(Failure(400, "Supplier stock is not sufficient"));
      }

      supplierStock, stockQty := supplierStock[sid := supplierStock[sid] - n], stockQty[pid := stockQty[pid] + n];
      var rows := Replenishment(SupplierRow(sid, supplierStock[sid]), StockRow(pid, stockQty[pid]));
      r := Ok(Reply(true, 201, productName[pid] + " stock has been updated", 2, rows));
    }
  }
}
