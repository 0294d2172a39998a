/** Cafe orders (cafe_section.py): a working order built one menu item at a time,
    its running total, and completion, which writes one order row and one row per
    item and then clears the working order. */
module Cafe {
  import opened Base
  import opened Text
  import opened Tables

  /** One entry of the working order: the menu item's id, and its name and price as
      they were when it was added, with the entered quantity. */
  datatype OrderLine = OrderLine(menuItemId: nat, name: string, price: real, quantity: int)

  function LineTotal(l: OrderLine): real
  {
    l.price * l.quantity as real
  }

  /** `sum(item['price'] * item['quantity'] ...)`: the order's total. */
  function OrderTotal(lines: seq<OrderLine>): real
  {
    Sum(lines, LineTotal)
  }

  /** The `cafe_order_items` rows the completion loop writes, one per line, in order. */
  function OrderItemRows(orderId: int, lines: seq<OrderLine>): (rows: seq<OrderItem>)
    ensures |rows| == |lines|
    ensures forall i :: 0 <= i < |lines| ==>
              rows[i].orderId == orderId && rows[i].menuItemId == lines[i].menuItemId
              && rows[i].quantity == lines[i].quantity && rows[i].price == lines[i].price
    decreases |lines|
  {
    if |lines| == 0 then []
    else
      var l := lines[|lines| - 1];
      OrderItemRows(orderId, lines[..|lines| - 1]) + [OrderItem(orderId, l.menuItemId, l.quantity, l.price)]
  }

  function ItemRowTotal(r: OrderItem): real
  {
    r.price * r.quantity as real
  }

  /** The item rows written for an order add up to the total stored on the order. */
  lemma {:induction false} ItemRowsAddUpToTotal(orderId: int, lines: seq<OrderLine>)
    ensures Sum(OrderItemRows(orderId, lines), ItemRowTotal) == OrderTotal(lines)
    decreases |lines|
  {
    if |lines| > 0 {
      var init := lines[..|lines| - 1];
      var l := lines[|lines| - 1];
      var row := OrderItem(orderId, l.menuItemId, l.quantity, l.price);
      assert OrderItemRows(orderId, lines) == OrderItemRows(orderId, init) + [row];
      ItemRowsAddUpToTotal(orderId, init);
      SumAppend(OrderItemRows(orderId, init), row, ItemRowTotal);
      assert ItemRowTotal(row) == LineTotal(l);
      assert OrderTotal(lines) == OrderTotal(init) + LineTotal(l);
    }
  }

  /** Adding a line raises the total by exactly that line's price times quantity. */
  lemma AddedLineTotal(lines: seq<OrderLine>, l: OrderLine)
    ensures OrderTotal(lines + [l]) == OrderTotal(lines) + l.price * l.quantity as real
  {
    SumAppend(lines, l, LineTotal);
  }

  class CafeSection {
    var currentItems: seq<OrderLine>
    const db: Db

    constructor (db: Db)
      ensures this.db == db && currentItems == []
    {
      this.db := db;
      currentItems := [];
    }

    /** `add_to_order`. `quantity` is what `int()` makes of the quantity entry, None
        when it raises. Nothing is added when no item is selected, when either entry
        does not parse, or when the menu item does not exist (the lookup result is
        then indexed and raises); otherwise one line with the item's current name and
        price is appended. Availability of the item is not checked. */
    method AddToOrder(itemText: string, quantity: Option<int>)
      modifies this`currentItems
      ensures var sel := ParseSelection(itemText);
              if sel.Selected? && quantity.Some? && 1 <= sel.id <= |db.menu| then
                currentItems == old(currentItems)
                  + [OrderLine(sel.id, db.menu[sel.id - 1].name, db.menu[sel.id - 1].price, quantity.value)]
              else currentItems == old(currentItems)
    {
      var sel := ParseSelection(itemText);
      if !sel.Selected? || quantity.None? {
        return;
      }
      if !(1 <= sel.id <= |db.menu|) {
        return;
      }
      var item := db.menu[sel.id - 1];
      currentItems := currentItems + [OrderLine(sel.id, item.name, item.price, quantity.value)];
    }

    /** `refresh_current_order`: the running total shown while the order is built. */
    method RunningTotal() returns (total: real)
      ensures total == OrderTotal(currentItems)
    {
      total := 0.0;
      var i := 0;
      while i < |currentItems|
        invariant 0 <= i <= |currentItems|
        invariant total == Sum(currentItems[..i], LineTotal)
      {
        var item := currentItems[i];
        assert currentItems[..i + 1] == currentItems[..i] + [item];
        SumAppend(currentItems[..i], item, LineTotal);
        var subtotal := item.price * item.quantity as real;
        total := total + subtotal;
        i := i + 1;
      }
      assert currentItems[..i] == currentItems;
    }

    /** The loop of `complete_order` that writes one item row per line. */
    method InsertOrderItems(orderId: int, lines: seq<OrderLine>)
      modifies db`orderItems
      ensures db.orderItems == old(db.orderItems) + OrderItemRows(orderId, lines)
    {
      var k := 0;
      while k < |lines|
        invariant 0 <= k <= |lines|
        invariant db.orderItems == old(db.orderItems) + OrderItemRows(orderId, lines[..k])
      {
        var item := lines[k];
        assert lines[..k + 1][..k] == lines[..k];
        db.orderItems := db.orderItems + [OrderItem(orderId, item.menuItemId, item.quantity, item.price)];
        k := k + 1;
      }
      assert lines[..k] == lines;
    }

    /** `complete_order`. With no lines nothing happens. Otherwise the customer is got
        or created by phone; then a barista selection whose id does not parse, or a
        split count `int()` rejects (`splitCount` None), aborts with only the customer
        written. Otherwise one order row with the total is inserted, one item row per
        line follows, and the working order is cleared. */
    method CompleteOrder(phone: string, baristaText: string, splitCount: Option<int>, now: Instant)
      returns (orderId: Option<nat>)
      requires db.Valid()
      modifies this`currentItems, db`customers, db`cafeOrders, db`orderItems
      ensures db.Valid()
      ensures old(currentItems) == [] ==>
                orderId.None? && db.customers == old(db.customers)
      ensures old(currentItems) != [] && CustomerIndex(old(db.customers), phone).Some? ==>
                db.customers == old(db.customers)
      ensures old(currentItems) != [] && CustomerIndex(old(db.customers), phone).None? ==>
                db.customers == old(db.customers) + [WalkInCustomer(phone, now.date)]
      ensures var barista := ParseSelection(baristaText);
              if old(currentItems) != [] && !barista.Malformed? && splitCount.Some? then
                && orderId == Some(|old(db.cafeOrders)| + 1)
                && CustomerIndex(db.customers, phone).Some?
                && db.cafeOrders == old(db.cafeOrders)
                   + [CafeOrder(CustomerIndex(db.customers, phone).value + 1,
                                if barista.Selected? then Some(barista.id) else None,
                                now, OrderTotal(old(currentItems)), splitCount.value)]
                && db.orderItems == old(db.orderItems) + OrderItemRows(orderId.value, old(currentItems))
                && currentItems == []
              else
                orderId.None? && currentItems == old(currentItems)
                && db.cafeOrders == old(db.cafeOrders) && db.orderItems == old(db.orderItems)
    {
      if currentItems == [] {
        return None;
      }
      var customerId := db.GetOrCreateCustomer(phone, now.date);
      var barista := ParseSelection(baristaText);
      if barista.Malformed? || splitCount.None? {
        return None;
      }
      var baristaId := if barista.Selected? then Some(barista.id) else None;
      var lines := currentItems;
      var id := InsertOrder(customerId, baristaId, now, splitCount.value, lines);
      currentItems := [];
      orderId := Some(id);
      assert CustomerIndex(db.customers, phone).value + 1 == customerId;
    }

    /** The writes of a completed order: the order row with the lines' total, then
        its item rows. Returns the new order's id. */
    method InsertOrder(customerId: int, baristaId: Option<int>, now: Instant, splitCount: int,
                       lines: seq<OrderLine>)
      returns (id: nat)
      modifies db`cafeOrders, db`orderItems
      ensures id == |old(db.cafeOrders)| + 1
      ensures db.cafeOrders == old(db.cafeOrders) + [CafeOrder(customerId, baristaId, now, OrderTotal(lines), splitCount)]
      ensures db.orderItems == old(db.orderItems) + OrderItemRows(id, lines)
    {
      db.cafeOrders := db.cafeOrders + [CafeOrder(customerId, baristaId, now, OrderTotal(lines), splitCount)];
      id := |db.cafeOrders|;
      InsertOrderItems(id, lines);
    }
  }
}
