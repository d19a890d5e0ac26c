/** The in-memory order book: a module-level array of orders that
    `createOrder` appends to, `updateOrder` edits in place and
    `deleteOrder` splices, each order carrying a DD/MM/YYYY date and a
    subtotal recomputed from its products. */
module Orders {
  import opened Common
  import opened Text

  /** A line of an order: the product, how many, and the unit price. */
  datatype Product = Product(id: int, name: string, quantity: int, price: int)

  datatype Order = Order(id: int, date: string, products: seq<Product>, subtotal: int)

  // ---------------------------------------------------------------------
  // Subtotal
  // ---------------------------------------------------------------------

  /** The sum of quantity × price over the lines, first line first. */
  function LineTotals(ps: seq<Product>): int {
    if |ps| == 0 then 0 else ps[0].quantity * ps[0].price + LineTotals(ps[1..])
  }

  /** `products.reduce((acc, p) => acc + p.quantity * p.price, acc)`. */
  function Reduce(ps: seq<Product>, acc: int): int {
    if |ps| == 0 then acc else Reduce(ps[1..], acc + ps[0].quantity * ps[0].price)
  }

  lemma {:induction false} ReduceIsSum(ps: seq<Product>, acc: int)
    ensures Reduce(ps, acc) == acc + LineTotals(ps)
  {
    if |ps| > 0 {
      ReduceIsSum(ps[1..], acc + ps[0].quantity * ps[0].price);
    }
  }

  /** An order's subtotal: the reduce started from 0. */
  function Subtotal(ps: seq<Product>): (r: int)
    ensures r == LineTotals(ps)
  {
    ReduceIsSum(ps, 0);
    Reduce(ps, 0)
  }

  /** Subtotals add up over concatenated product lists. */
  lemma {:induction false} SubtotalConcat(a: seq<Product>, b: seq<Product>)
    ensures Subtotal(a + b) == Subtotal(a) + Subtotal(b)
  {
    if |a| > 0 {
      assert (a + b)[1..] == a[1..] + b;
      SubtotalConcat(a[1..], b);
    } else {
      assert a + b == b;
    }
  }

  /** With no negative quantity or price the subtotal is not negative. */
  lemma {:induction false} SubtotalNonNegative(ps: seq<Product>)
    requires forall k :: 0 <= k < |ps| ==> ps[k].quantity >= 0 && ps[k].price >= 0
    ensures Subtotal(ps) >= 0
  {
    if |ps| > 0 {
      SubtotalNonNegative(ps[1..]);
    }
  }

  // ---------------------------------------------------------------------
  // Date
  // ---------------------------------------------------------------------

  /** `n < 10 ? `0${n}` : `${n}``. */
  function Pad2(n: nat): (r: string)
    ensures AllDigits(r) && |r| >= 2
    ensures n < 100 ==> |r| == 2
    ensures r[0] == '0' <==> n < 10
    ensures ParseDigits(r) == Some(n)
  {
    NatToStringRoundTrip(n);
    if n < 10 then
      var r := "0" + NatToString(n);
      assert r[..1] == "0";
      assert DigitsValue(r[..1]) == 0;
      r
    else NatToString(n)
  }

  /** `${formattedDay}/${formattedMonth}/${year}` for the day of the month,
      the 0-based month index `getMonth()` gives, and the full year. */
  function FormatDate(day: nat, monthIndex: nat, year: int): (r: string)
    ensures day < 100 && monthIndex < 99 ==> && |r| > 6 && r[2] == '/' && r[5] == '/'
                                             && (r[0] == '0' <==> day < 10)
                                             && (r[3] == '0' <==> monthIndex + 1 < 10)
    ensures day < 100 && monthIndex < 99 ==> r[6..] == IntToString(year)
  {
    Pad2(day) + "/" + Pad2(monthIndex + 1) + "/" + IntToString(year)
  }

  /** Reading a DD/MM/YYYY string back into the day, the 1-based month and the year. */
  function ParseDate(s: string): Option<(nat, nat, int)> {
    if |s| > 6 && s[2] == '/' && s[5] == '/' then
      match (ParseDigits(s[..2]), ParseDigits(s[3..5]), Number(s[6..]))
      case (Some(d), Some(m), Num(y)) => Some((d, m, y))
      case _ => None
    else None
  }

  /** The date string holds the day, the month counted from 1, and the year. */
  lemma DateRoundTrip(day: nat, monthIndex: nat, year: int)
    requires day < 100 && monthIndex < 99
    ensures ParseDate(FormatDate(day, monthIndex, year)) == Some((day, monthIndex + 1, year))
  {
    var r := FormatDate(day, monthIndex, year);
    var d, m, y := Pad2(day), Pad2(monthIndex + 1), IntToString(year);
    assert r == d + "/" + m + "/" + y;
    assert r[..2] == d;
    assert r[3..5] == m;
    assert r[6..] == y;
    NumberRoundTrip(year);
  }

  // ---------------------------------------------------------------------
  // The order array and its three edits
  // ---------------------------------------------------------------------

  /** `order.id === orderId`: a NaN id matches nothing. */
  predicate Matches(o: Order, id: JsNumber) {
    id.Num? && o.id == id.value
  }

  /** `orders.findIndex(order => order.id === id)`; `find` picks the same order. */
  function FindIndex(os: seq<Order>, id: JsNumber): (i: int)
    ensures -1 <= i < |os|
    ensures i == -1 <==> forall k :: 0 <= k < |os| ==> !Matches(os[k], id)
    ensures i >= 0 ==> Matches(os[i], id) && forall k :: 0 <= k < i ==> !Matches(os[k], id)
  {
    if |os| == 0 then -1
    else if Matches(os[0], id) then 0
    else
      var j := FindIndex(os[1..], id);
      assert forall k :: 1 <= k < |os| ==> os[k] == os[1..][k - 1];
      if j == -1 then -1 else j + 1
  }

  /** Along the array the ids strictly increase. */
  predicate IdsIncreasing(os: seq<Order>) {
    forall i, j :: 0 <= i < j < |os| ==> os[i].id < os[j].id
  }

  /** With increasing ids, the first order with an id is the only one. */
  lemma IncreasingIdsMatchOnce(os: seq<Order>, id: JsNumber, k: nat)
    requires IdsIncreasing(os)
    requires k < |os| && Matches(os[k], id)
    ensures FindIndex(os, id) == k
  {
  }

  /** The id of the next order: 1 on an empty array, else the last id + 1. */
  function NextId(os: seq<Order>): (r: int)
    ensures |os| == 0 ==> r == 1
    ensures |os| > 0 ==> r == os[|os| - 1].id + 1
    ensures IdsIncreasing(os) ==> forall k :: 0 <= k < |os| ==> os[k].id < r
  {
    if |os| > 0 then os[|os| - 1].id + 1 else 1
  }

  /** The order `createOrder` builds. */
  function NewOrder(os: seq<Order>, products: seq<Product>, day: nat, monthIndex: nat, year: int): (o: Order)
    ensures o.id == NextId(os) && o.products == products && o.subtotal == LineTotals(products)
    ensures o.date == FormatDate(day, monthIndex, year)
  {
    Order(NextId(os), FormatDate(day, monthIndex, year), products, Subtotal(products))
  }

  /** The array after `updateOrder`: the first order with the id gets the
      new products and their subtotal; nothing else changes. */
  function Revised(os: seq<Order>, id: JsNumber, products: seq<Product>): (r: seq<Order>)
    ensures |r| == |os|
    ensures forall k :: 0 <= k < |r| ==> r[k].id == os[k].id && r[k].date == os[k].date
    ensures FindIndex(os, id) == -1 ==> r == os
    ensures FindIndex(os, id) >= 0 ==>
              var i := FindIndex(os, id);
              && r[i].products == products && r[i].subtotal == LineTotals(products)
              && forall k :: 0 <= k < |r| && k != i ==> r[k] == os[k]
  {
    var i := FindIndex(os, id);
    if i == -1 then os else os[i := os[i].(products := products, subtotal := Subtotal(products))]
  }

  /** The array after `deleteOrder`: the first order with the id is gone
      and the others keep their relative order. */
  function Removed(os: seq<Order>, id: JsNumber): (r: seq<Order>)
    ensures FindIndex(os, id) == -1 ==> r == os
    ensures FindIndex(os, id) >= 0 ==>
              var i := FindIndex(os, id);
              && |r| == |os| - 1
              && (forall k :: 0 <= k < i ==> r[k] == os[k])
              && (forall k :: i <= k < |r| ==> r[k] == os[k + 1])
  {
    var i := FindIndex(os, id);
    if i == -1 then os else os[..i] + os[i + 1..]
  }

  /** Once deleted, an id is absent from an array with increasing ids. */
  lemma RemovedIdIsGone(os: seq<Order>, id: JsNumber)
    requires IdsIncreasing(os)
    ensures forall k :: 0 <= k < |Removed(os, id)| ==> !Matches(Removed(os, id)[k], id)
  {
    var r, i := Removed(os, id), FindIndex(os, id);
    if i >= 0 {
      forall k | 0 <= k < |r| ensures !Matches(r[k], id) {
        if k >= i { assert os[k + 1].id > os[i].id; }
      }
    }
  }

  lemma AppendKeepsIdsIncreasing(os: seq<Order>, products: seq<Product>, day: nat, monthIndex: nat, year: int)
    requires IdsIncreasing(os)
    ensures IdsIncreasing(os + [NewOrder(os, products, day, monthIndex, year)])
  {
    var o := NewOrder(os, products, day, monthIndex, year);
    var r := os + [o];
    forall i, j | 0 <= i < j < |r| ensures r[i].id < r[j].id {
      if j < |os| { assert r[i] == os[i] && r[j] == os[j]; }
      else { assert r[i] == os[i]; }
    }
  }

  lemma ReviseKeepsIdsIncreasing(os: seq<Order>, id: JsNumber, products: seq<Product>)
    requires IdsIncreasing(os)
    ensures IdsIncreasing(Revised(os, id, products))
  {
  }

  lemma RemoveKeepsIdsIncreasing(os: seq<Order>, id: JsNumber)
    requires IdsIncreasing(os)
    ensures IdsIncreasing(Removed(os, id))
  {
    var r, i := Removed(os, id), FindIndex(os, id);
    if i >= 0 {
      forall a, b | 0 <= a < b < |r| ensures r[a].id < r[b].id {
        var a', b' := if a < i then a else a + 1, if b < i then b else b + 1;
        assert r[a] == os[a'] && r[b] == os[b'];
      }
    }
  }

  /** Deleting the newest order hands its id to the next order created:
      ids are unique among the live orders, not over time. */
  lemma NewestIdReissued(os: seq<Order>, o: Order)
    requires IdsIncreasing(os + [o])
    ensures NextId(Removed(os + [o], Num(o.id))) == NextId(os)
    ensures o.id == NextId(os) ==> NextId(Removed(os + [o], Num(o.id))) == o.id
  {
    var s := os + [o];
    IncreasingIdsMatchOnce(s, Num(o.id), |os|);
    assert Removed(s, Num(o.id)) == os;
  }

  /** A request to the order routes; ids are the `Number(req.params.id)` values. */
  datatype Request =
    | Create(products: seq<Product>, day: nat, monthIndex: nat, year: int)
    | Update(id: JsNumber, newProducts: seq<Product>)
    | Delete(deleteId: JsNumber)

  function Apply(os: seq<Order>, req: Request): seq<Order> {
    match req
    case Create(ps, d, m, y) => os + [NewOrder(os, ps, d, m, y)]
    case Update(id, ps) => Revised(os, id, ps)
    case Delete(id) => Removed(os, id)
  }

  function Run(os: seq<Order>, reqs: seq<Request>): seq<Order>
    decreases |reqs|
  {
    if |reqs| == 0 then os else Run(Apply(os, reqs[0]), reqs[1..])
  }

  /** Any sequence of creates, updates and deletes keeps ids increasing. */
  lemma {:induction false} RunKeepsIdsIncreasing(os: seq<Order>, reqs: seq<Request>)
    requires IdsIncreasing(os)
    ensures IdsIncreasing(Run(os, reqs))
    decreases |reqs|
  {
    if |reqs| > 0 {
      match reqs[0] {
        case Create(ps, d, m, y) => AppendKeepsIdsIncreasing(os, ps, d, m, y);
        case Update(id, ps) => ReviseKeepsIdsIncreasing(os, id, ps);
        case Delete(id) => RemoveKeepsIdsIncreasing(os, id);
      }
      RunKeepsIdsIncreasing(Apply(os, reqs[0]), reqs[1..]);
    }
  }

  /** From the initial empty array, ids increase (and so are unique) after any requests. */
  lemma IdsIncreasingFromEmpty(reqs: seq<Request>)
    ensures IdsIncreasing(Run([], reqs))
  {
    RunKeepsIdsIncreasing([], reqs);
  }

  // ---------------------------------------------------------------------
  // The handlers over the shared array
  // ---------------------------------------------------------------------

  /** The `orders` array the handlers share. */
  class OrderBook {
    var orders: seq<Order>

    predicate Valid()
      reads this
    {
      IdsIncreasing(orders)
    }

    /** The array starts empty. */
    constructor ()
      ensures orders == [] && Valid()
    {
      orders := [];
    }

    /** `getOrders`: 200 with the whole array. */
    method GetOrders() returns (status: int, body: seq<Order>)
      ensures status == 200 && body == orders
    {
      return 200, orders;
    }

    /** `createOrder`: push one order built from the products and today's date. */
    method CreateOrder(products: seq<Product>, day: nat, monthIndex: nat, year: int)
      returns (status: int, order: Order)
      requires Valid()
      modifies this
      ensures Valid()
      ensures orders == old(orders) + [order]
      ensures order == NewOrder(old(orders), products, day, monthIndex, year)
      ensures status == 201
    {
      var month := monthIndex + 1;
      var formattedDay := Pad2(day);
      var formattedMonth := Pad2(month);
      var newOrderId := if |orders| > 0 then orders[|orders| - 1].id + 1 else 1;
      order := Order(newOrderId, formattedDay + "/" + formattedMonth + "/" + IntToString(year),
                     products, Subtotal(products));
      AppendKeepsIdsIncreasing(orders, products, day, monthIndex, year);
      orders := orders + [order];
      status := 201;
    }

    /** `updateOrder` on `orderId == Number(req.params.id)`: replace the
        products and subtotal of the first order with that id; the reply
        carries a message and the whole array. */
    method UpdateOrder(orderId: JsNumber, products: seq<Product>) returns (status: int, message: string, body: seq<Order>)
      requires Valid()
      modifies this
      ensures Valid()
      ensures orders == Revised(old(orders), orderId, products)
      ensures FindIndex(old(orders), orderId) == -1 ==> message == "Update order failed."
      ensures FindIndex(old(orders), orderId) >= 0 ==>
                message == "Update order with id: " + IntToString(orderId.value) + " successful."
      ensures status == 200 && body == orders
    {
      var i := FindIndex(orders, orderId);
      message := "Update order failed.";
      if i != -1 {
        orders := orders[i := orders[i].(products := products, subtotal := Subtotal(products))];
        message := "Update order with id: " + IntToString(orderId.value) + " successful.";
      }
      status, body := 200, orders;
    }

    /** `deleteOrder` on `orderId == Number(req.params.id)`: splice out the
        first order with that id; the reply carries a message and the whole
        array. */
    method DeleteOrder(orderId: JsNumber) returns (status: int, message: string, body: seq<Order>)
      requires Valid()
      modifies this
      ensures Valid()
      ensures orders == Removed(old(orders), orderId)
      ensures FindIndex(old(orders), orderId) == -1 ==> message == "Delete order failed."
      ensures FindIndex(old(orders), orderId) >= 0 ==>
                message == "Delete order with id: " + IntToString(orderId.value) + " successful."
      ensures status == 200 && body == orders
    {
      var i := FindIndex(orders, orderId);
      message := "Delete order failed.";
      if i != -1 {
        RemoveKeepsIdsIncreasing(orders, orderId);
        orders := orders[..i] + orders[i + 1..];
        message := "Delete order with id: " + IntToString(orderId.value) + " successful.";
      }
      status, body := 200, orders;
    }
  }
}
