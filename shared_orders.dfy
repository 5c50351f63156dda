/** Batch as domain.py builds it when `orders` is left to its default: the
    default `set()` is evaluated once, so every such batch holds a reference to
    one and the same set object. Only the fields and operations the sharing
    affects are kept. */
module SharedOrders {
  import opened Domain

  /** A mutable set of lines, as a Python `set` object is. */
  class LineSet {
    var lines: set<OrderLine>

    constructor ()
      ensures lines == {}
    {
      lines := {};
    }
  }

  class SharingBatch {
    const sku: Sku
    var quantity: int
    const orders: LineSet

    constructor (sku: Sku, quantity: int, orders: LineSet)
      ensures this.sku == sku && this.quantity == quantity && this.orders == orders
    {
      this.sku := sku;
      this.quantity := quantity;
      this.orders := orders;
    }

    predicate CanAllocate(line: OrderLine)
      reads orders
    {
      Allocatable(sku, orders.lines, line)
    }

    predicate CanDeallocate(line: OrderLine)
      reads orders
    {
      Deallocatable(orders.lines, line)
    }

    method Allocate(line: OrderLine) returns (r: Outcome)
      modifies this, orders
      ensures (Stock(quantity, orders.lines), r) ==
        AllocateStep(sku, Stock(old(quantity), old(orders.lines)), line)
    {
      if !CanAllocate(line) {
        return Fail(AllocationError(Allocating));
      }
      if quantity >= line.quantity {
        orders.lines := orders.lines + {line};
        quantity := quantity - line.quantity;
      }
      r := Pass;
    }

    method Deallocate(line: OrderLine) returns (r: Outcome)
      modifies this, orders
      ensures (Stock(quantity, orders.lines), r) ==
        DeallocateStep(Stock(old(quantity), old(orders.lines)), line)
    {
      if !CanDeallocate(line) {
        return Fail(AllocationError(Deallocating));
      }
      orders.lines := orders.lines - {line};
      quantity := quantity + line.quantity;
      r := Pass;
    }
  }

  /** Two batches built with the default set: a line allocated to `a` is
      accepted for release by `b`, which gains stock it never gave out, and `b`
      refuses to take the line although it never had it. */
  method DefaultOrdersLeak() returns (released: Outcome, left: int, refused: bool)
    ensures released == Pass && left == 22 && refused
  {
    var default := new LineSet();
    var a := new SharingBatch("SMALL-TABLE", 20, default);
    var b := new SharingBatch("SMALL-TABLE", 20, default);
    var line := new OrderLine(10, "SMALL-TABLE", 2);
    var first := a.Allocate(line);
    refused := !b.CanAllocate(line);
    released := b.Deallocate(line);
    left := b.quantity;
  }
}
