/**
 * The in-memory order book of the cafe point-of-sale server: a module-level
 * list of orders that the order-creation handler appends to and the
 * order-deletion handler removes from, plus the id lookup helper.
 *
 * Money is counted in integer cents and quantities are whole numbers, so the
 * sums are exact and rounding the total to two decimals changes nothing.
 */
module OrderBook {
  import opened Wrappers

  /** One line of an order request. The client supplies the item name and the
      unit price itself; nothing is looked up. */
  datatype RequestLine = RequestLine(itemId: int, itemName: string, price: int, quantity: int)

  /** The `lines` field of an order request body. */
  datatype LinesField =
    | Absent                          // missing, null, or another falsy value
    | NotAnArray                      // present and truthy, but not an array
    | Lines(items: seq<RequestLine>)  // an array of request lines

  /** A stored order line: a snapshot of the request line plus its line total. */
  datatype OrderLine = OrderLine(itemId: int, itemName: string, price: int, quantity: int, lineTotal: int)

  /** A stored order. `seatId` is `None` where the server stores `null`. */
  datatype Order = Order(id: int, seatId: Option<int>, lines: seq<OrderLine>, total: int)

  /** The errors the order handlers answer with. */
  datatype Error = LinesRequired | OrderNotFound {
    /** The HTTP status code the handler sends. */
    function Status(): (r: int)
      ensures 400 <= r < 500
      ensures r == 400 <==> LinesRequired?
      ensures r == 404 <==> OrderNotFound?
    {
      match this
      case LinesRequired => 400
      case OrderNotFound => 404
    }

    /** The text of the `error` field of the response. */
    function Message(): (r: string)
      ensures r != []
      ensures r == "Order lines required." <==> LinesRequired?
      ensures r == "Order not found." <==> OrderNotFound?
    {
      match this
      case LinesRequired => "Order lines required."
      case OrderNotFound => "Order not found."
    }
  }

  // ---------------------------------------------------------------------------
  // Pricing

  /** What a request line adds to the order total. */
  function Cost(price: int, quantity: int): (r: int) {
    price * quantity
  }

  /** Sum of price * quantity over the request lines, accumulated from the left. */
  function Sum(lines: seq<RequestLine>): (r: int) {
    if lines == [] then 0 else Sum(lines[..|lines| - 1]) + Cost(lines[|lines| - 1].price, lines[|lines| - 1].quantity)
  }

  /** Sum of the line totals of stored order lines, accumulated from the left. */
  function SumLineTotals(lines: seq<OrderLine>): (r: int) {
    if lines == [] then 0 else SumLineTotals(lines[..|lines| - 1]) + lines[|lines| - 1].lineTotal
  }

  /** `line` is the processed form of the request line `ln`: the four request
      fields copied unchanged and the line total equal to price * quantity. */
  ghost predicate Snapshot(line: OrderLine, ln: RequestLine) {
    line.itemId == ln.itemId && line.itemName == ln.itemName &&
    line.price == ln.price && line.quantity == ln.quantity &&
    line.lineTotal == Cost(ln.price, ln.quantity)
  }

  /** `processed` is `lines` processed one by one, in the same order. */
  ghost predicate ProcessedFrom(processed: seq<OrderLine>, lines: seq<RequestLine>) {
    |processed| == |lines| &&
    forall i :: 0 <= i < |lines| ==> Snapshot(processed[i], lines[i])
  }

  /** The `lines.map` pass of order creation: builds each processed line and
      accumulates `total += price * quantity` as it goes. */
  method ProcessLines(lines: seq<RequestLine>) returns (processed: seq<OrderLine>, total: int)
    ensures ProcessedFrom(processed, lines)
    ensures total == Sum(lines)
  {
    processed, total := [], 0;
    var i := 0;
    while i < |lines|
      invariant 0 <= i <= |lines|
      invariant ProcessedFrom(processed, lines[..i])
      invariant total == Sum(lines[..i])
    {
      var ln := lines[i];
      assert lines[..i + 1][..i] == lines[..i];
      total := total + Cost(ln.price, ln.quantity);
      processed := processed + [OrderLine(ln.itemId, ln.itemName, ln.price, ln.quantity, Cost(ln.price, ln.quantity))];
      i := i + 1;
    }
    assert lines[..i] == lines;
  }

  /** The total the handler accumulates equals the sum of the line totals it
      stores, so every stored order's total agrees with its own lines. */
  lemma {:induction false} LineTotalsMatchTotal(processed: seq<OrderLine>, lines: seq<RequestLine>)
    requires ProcessedFrom(processed, lines)
    ensures SumLineTotals(processed) == Sum(lines)
  {
    if lines != [] {
      var n := |lines| - 1;
      assert ProcessedFrom(processed[..n], lines[..n]);
      LineTotalsMatchTotal(processed[..n], lines[..n]);
    }
  }

  // ---------------------------------------------------------------------------
  // Seat normalisation

  /** JavaScript falsiness of a seat id that is absent or a number. */
  predicate Falsy(seatId: Option<int>) {
    seatId == None || seatId == Some(0)
  }

  /** The seat id stored with a new order (server.js:165), for a supplied seat
      id that is absent or an integer: a falsy one becomes null, any other is
      kept as its integer value. */
  function NormalizeSeat(seatId: Option<int>): (r: Option<int>)
    ensures r.None? <==> Falsy(seatId)
    ensures r.Some? ==> r == seatId && r.value != 0
  {
    match seatId
    case None => None
    case Some(n) => if n == 0 then None else Some(n)
  }

  // ---------------------------------------------------------------------------
  // Lookup by id

  /** `k` is the position of the first order whose id is `id`. */
  ghost predicate IsFirstMatch(s: seq<Order>, id: int, k: int) {
    0 <= k < |s| && s[k].id == id && forall j :: 0 <= j < k ==> s[j].id != id
  }

  /** `findById`: the first order whose id equals `id`, or nothing. */
  function FindById(s: seq<Order>, id: int): (r: Option<Order>)
    ensures r.None? <==> forall i :: 0 <= i < |s| ==> s[i].id != id
    ensures forall k :: IsFirstMatch(s, id, k) ==> r == Some(s[k])
  {
    if s == [] then None
    else if s[0].id == id then Some(s[0])
    else
      assert forall k :: IsFirstMatch(s, id, k) ==> IsFirstMatch(s[1..], id, k - 1);
      FindById(s[1..], id)
  }

  /** The scan the deletion handler runs over the order list (server.js:174):
      the position of the first order with that id, or -1 when there is none. */
  method FindIndex(s: seq<Order>, id: int) returns (idx: int)
    ensures idx == -1 <==> forall i :: 0 <= i < |s| ==> s[i].id != id
    ensures idx != -1 ==> IsFirstMatch(s, id, idx) && FindById(s, id) == Some(s[idx])
  {
    idx := 0;
    while idx < |s|
      invariant 0 <= idx <= |s|
      invariant forall j :: 0 <= j < idx ==> s[j].id != id
    {
      if s[idx].id == id {
        return;
      }
      idx := idx + 1;
    }
    idx := -1;
  }

  /** Appending an order leaves every earlier lookup as it was; only an id
      that no earlier order carries can now find the new order. */
  lemma {:induction false} FindByIdAfterAppend(s: seq<Order>, o: Order, id: int)
    ensures FindById(s + [o], id) ==
      if FindById(s, id).Some? then FindById(s, id)
      else if o.id == id then Some(o)
      else None
  {
    if s != [] {
      assert (s + [o])[1..] == s[1..] + [o];
      FindByIdAfterAppend(s[1..], o, id);
    }
  }

  // ---------------------------------------------------------------------------
  // Removal of the first match

  /** The sequence with its first order of id `id` taken out, or unchanged
      when no order has that id. */
  function RemoveFirst(s: seq<Order>, id: int): (r: seq<Order>) {
    if s == [] then []
    else if s[0].id == id then s[1..]
    else [s[0]] + RemoveFirst(s[1..], id)
  }

  /** Removing the first match is splicing out that one position: the orders
      before and after it keep their values and their relative order. */
  lemma {:induction false} RemoveFirstAt(s: seq<Order>, id: int, k: int)
    requires IsFirstMatch(s, id, k)
    ensures RemoveFirst(s, id) == s[..k] + s[k + 1..]
    ensures |RemoveFirst(s, id)| == |s| - 1
  {
    if k > 0 {
      assert IsFirstMatch(s[1..], id, k - 1);
      RemoveFirstAt(s[1..], id, k - 1);
      assert s[1..][..k - 1] == s[1..k];
      assert s[1..][k..] == s[k + 1..];
      assert [s[0]] + s[1..k] == s[..k];
    }
  }

  /** With no order of that id, removal changes nothing. */
  lemma {:induction false} RemoveFirstAbsent(s: seq<Order>, id: int)
    requires forall i :: 0 <= i < |s| ==> s[i].id != id
    ensures RemoveFirst(s, id) == s
  {
    if s != [] {
      RemoveFirstAbsent(s[1..], id);
    }
  }

  /** Deleting by the id of an order just appended, when no earlier order has
      that id, finds exactly that order and restores the previous list. */
  lemma {:induction false} CreateThenDeleteRestores(s: seq<Order>, o: Order)
    requires forall i :: 0 <= i < |s| ==> s[i].id != o.id
    ensures FindById(s + [o], o.id) == Some(o)
    ensures RemoveFirst(s + [o], o.id) == s
  {
    assert IsFirstMatch(s + [o], o.id, |s|);
    RemoveFirstAt(s + [o], o.id, |s|);
    assert (s + [o])[..|s|] == s;
  }

  // ---------------------------------------------------------------------------
  // The store

  /** What every order the store holds satisfies: it has at least one line,
      its seat id is null or a non-zero integer, each line total is price *
      quantity, and the total is the sum of the line totals. */
  ghost predicate WellFormed(o: Order) {
    |o.lines| > 0 && o.seatId != Some(0) &&
    (forall i :: 0 <= i < |o.lines| ==> o.lines[i].lineTotal == Cost(o.lines[i].price, o.lines[i].quantity)) &&
    o.total == SumLineTotals(o.lines)
  }

  /** The module-level `orders` list and the two handlers that change it. */
  class OrderStore {
    var orders: seq<Order>

    ghost predicate Valid()
      reads this
    {
      forall i :: 0 <= i < |orders| ==> WellFormed(orders[i])
    }

    /** The store starts empty. */
    constructor ()
      ensures Valid() && orders == []
    {
      orders := [];
    }

    /** POST /api/orders. `now` is the clock reading used as the new id. */
    method Create(seatId: Option<int>, lines: LinesField, now: int) returns (r: Result<Order, Error>)
      requires Valid()
      modifies this
      ensures Valid()
      ensures !(lines.Lines? && lines.items != []) ==>
        r == Failure(LinesRequired) && orders == old(orders)
      ensures lines.Lines? && lines.items != [] ==>
        r.Success? && orders == old(orders) + [r.value] &&
        r.value.id == now &&
        r.value.seatId == NormalizeSeat(seatId) &&
        ProcessedFrom(r.value.lines, lines.items) &&
        r.value.total == Sum(lines.items)
    {
      if lines.Absent? || lines.NotAnArray? || |lines.items| == 0 {
        return Failure(LinesRequired);
      }
      var processed, total := ProcessLines(lines.items);
      LineTotalsMatchTotal(processed, lines.items);
      var order := Order(now, NormalizeSeat(seatId), processed, total);
      orders := orders + [order];
      r := Success(order);
    }

    /** DELETE /api/orders/:id, with the path id already parsed. */
    method Delete(id: int) returns (r: Result<Order, Error>)
      requires Valid()
      modifies this
      ensures Valid()
      ensures orders == RemoveFirst(old(orders), id)
      ensures FindById(old(orders), id) == None ==>
        r == Failure(OrderNotFound) && orders == old(orders)
      ensures forall k :: IsFirstMatch(old(orders), id, k) ==>
        r == Success(old(orders)[k]) &&
        orders == old(orders)[..k] + old(orders)[k + 1..] &&
        |orders| == |old(orders)| - 1
    {
      var idx := FindIndex(orders, id);
      if idx == -1 {
        RemoveFirstAbsent(orders, id);
        return Failure(OrderNotFound);
      }
      var removed := orders[idx];
      RemoveFirstAt(orders, id, idx);
      ghost var before := orders;
      orders := orders[..idx] + orders[idx + 1..];
      r := Success(removed);
      // The spliced list holds only orders of the old one, so each is well formed.
      forall i | 0 <= i < |orders|
        ensures WellFormed(orders[i])
      {
        if i < idx {
          assert orders[i] == before[i];
        } else {
          assert orders[i] == before[i + 1];
        }
      }
      // The first match is unique, so `idx` is the only position it can be.
      forall k | IsFirstMatch(before, id, k)
        ensures k == idx
      {
        assert before[k].id == id && before[idx].id == id;
      }
    }
  }
}
