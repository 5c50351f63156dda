/** Inventory allocation: order lines, stock batches, the batch priority order
    and the choice of the batch that receives an order line (domain.py). */
module Domain {

  datatype Option<+T> = None | Some(value: T)

  /** Product identifier. */
  type Sku = string

  /** A UUID, taken as an opaque number supplied by the caller. */
  type Reference = nat

  /** A date, kept only for its order (for instance yyyymmdd). */
  type Day = int

  /** The guard that refused a call on a batch. */
  datatype Operation = Allocating | Deallocating

  datatype Error =
    | AllocationError(op: Operation)  // a batch refuses to allocate or deallocate a line
    | OutOfStock(sku: Sku)            // no batch in the list accepts the line

  /** What a batch operation reports: it returned normally, or it raised. */
  datatype Outcome = Pass | Fail(error: Error)

  datatype Result<+T> = Success(value: T) | Failure(error: Error)

  /** A request for `quantity` units of `sku`. Lines are never changed after
      construction and are told apart by object identity. */
  class OrderLine {
    const reference: Reference
    const sku: Sku
    const quantity: nat

    constructor (reference: Reference, sku: Sku, quantity: nat)
      ensures this.reference == reference && this.sku == sku && this.quantity == quantity
    {
      this.reference := reference;
      this.sku := sku;
      this.quantity := quantity;
    }
  }

  // ---------------------------------------------------------------------------
  // The state a batch changes, and the two state transitions as values

  /** The mutable part of a batch: the stock that is left and the lines drawing on it. */
  datatype Stock = Stock(quantity: int, orders: set<OrderLine>)

  /** can_deallocate: the line is in the batch. */
  predicate Deallocatable(orders: set<OrderLine>, line: OrderLine) {
    line in orders
  }

  /** can_allocate: the line is for this product and not yet in the batch.
      A line the batch may take is never one it may give back. */
  predicate Allocatable(sku: Sku, orders: set<OrderLine>, line: OrderLine): (r: bool)
    ensures r ==> !Deallocatable(orders, line)
  {
    line.sku == sku && line !in orders
  }

  /** Batch.allocate: refuse an ineligible line; take the line when the stock
      covers it; otherwise do nothing and report nothing. */
  function AllocateStep(sku: Sku, st: Stock, line: OrderLine): (r: (Stock, Outcome))
    ensures r.1.Fail? ==> r.0 == st
    ensures r.0.quantity <= st.quantity && st.orders <= r.0.orders
  {
    if !Allocatable(sku, st.orders, line) then (st, Fail(AllocationError(Allocating)))
    else if st.quantity >= line.quantity then
      (Stock(st.quantity - line.quantity, st.orders + {line}), Pass)
    else (st, Pass)
  }

  /** Batch.deallocate: refuse a line that is not in the batch; otherwise
      release it and give its quantity back. */
  function DeallocateStep(st: Stock, line: OrderLine): (r: (Stock, Outcome))
    ensures r.1.Fail? ==> r.0 == st
    ensures r.0.quantity >= st.quantity && r.0.orders <= st.orders
  {
    if !Deallocatable(st.orders, line) then (st, Fail(AllocationError(Deallocating)))
    else (Stock(st.quantity + line.quantity, st.orders - {line}), Pass)
  }

  lemma AllocateTakesLine(sku: Sku, st: Stock, line: OrderLine)
    requires Allocatable(sku, st.orders, line) && st.quantity >= line.quantity
    ensures AllocateStep(sku, st, line).1 == Pass
    ensures AllocateStep(sku, st, line).0.quantity == st.quantity - line.quantity >= 0
    ensures AllocateStep(sku, st, line).0.orders == st.orders + {line}
  {
  }

  lemma AllocateAllStockLeavesZero(sku: Sku, st: Stock, line: OrderLine)
    requires Allocatable(sku, st.orders, line) && st.quantity == line.quantity
    ensures AllocateStep(sku, st, line) == (Stock(0, st.orders + {line}), Pass)
  {
  }

  lemma AllocateShortIsSilentNoOp(sku: Sku, st: Stock, line: OrderLine)
    requires Allocatable(sku, st.orders, line) && st.quantity < line.quantity
    ensures AllocateStep(sku, st, line) == (st, Pass)
  {
  }

  lemma AllocateGuard(sku: Sku, st: Stock, line: OrderLine)
    ensures AllocateStep(sku, st, line).1.Fail? <==> (line.sku != sku || line in st.orders)
    ensures AllocateStep(sku, st, line).1.Fail? ==>
      AllocateStep(sku, st, line) == (st, Fail(AllocationError(Allocating)))
  {
  }

  lemma AllocateTwiceFails(sku: Sku, st: Stock, line: OrderLine)
    requires Allocatable(sku, st.orders, line) && st.quantity >= line.quantity
    ensures var first := AllocateStep(sku, st, line).0;
      AllocateStep(sku, first, line) == (first, Fail(AllocationError(Allocating)))
      && first.quantity == st.quantity - line.quantity
  {
  }

  lemma DeallocateUndoesAllocate(sku: Sku, st: Stock, line: OrderLine)
    requires Allocatable(sku, st.orders, line) && st.quantity >= line.quantity
    ensures DeallocateStep(AllocateStep(sku, st, line).0, line) == (st, Pass)
  {
  }

  lemma AllocateUndoesDeallocate(sku: Sku, st: Stock, line: OrderLine)
    requires Deallocatable(st.orders, line) && line.sku == sku && st.quantity >= 0
    ensures AllocateStep(sku, DeallocateStep(st, line).0, line) == (st, Pass)
  {
    assert (st.orders - {line}) + {line} == st.orders;
  }

  lemma DeallocateGuard(st: Stock, line: OrderLine)
    ensures DeallocateStep(st, line).1.Fail? <==> line !in st.orders
    ensures line !in st.orders ==>
      DeallocateStep(st, line) == (st, Fail(AllocationError(Deallocating)))
  {
  }

  lemma StockStaysNonNegative(sku: Sku, st: Stock, line: OrderLine)
    requires st.quantity >= 0
    ensures AllocateStep(sku, st, line).0.quantity >= 0
    ensures DeallocateStep(st, line).0.quantity >= 0
  {
  }

  // ---------------------------------------------------------------------------
  // Batch

  /** A stock of one product, optionally arriving on day `eta` (absent: in stock now). */
  class Batch {
    const reference: Reference
    const sku: Sku
    const eta: Option<Day>
    var quantity: int
    var orders: set<OrderLine>

    /** Each batch gets a set of its own (see README on the shared default). */
    constructor (reference: Reference, sku: Sku, quantity: int, orders: set<OrderLine>, eta: Option<Day>)
      ensures this.reference == reference && this.sku == sku && this.eta == eta
      ensures this.quantity == quantity && this.orders == orders
    {
      this.reference := reference;
      this.sku := sku;
      this.quantity := quantity;
      this.orders := orders;
      this.eta := eta;
    }

    function State(): Stock
      reads this
    {
      Stock(quantity, orders)
    }

    predicate CanAllocate(line: OrderLine)
      reads this
    {
      Allocatable(sku, orders, line)
    }

    predicate CanDeallocate(line: OrderLine): (r: bool)
      reads this
      ensures r ==> !CanAllocate(line)
    {
      Deallocatable(orders, line)
    }

    method Allocate(line: OrderLine) returns (r: Outcome)
      modifies this
      ensures (State(), r) == AllocateStep(sku, old(State()), line)
      ensures r.Fail? <==> !old(CanAllocate(line))
    {
      if !CanAllocate(line) {
        return Fail(AllocationError(Allocating));
      }
      if quantity >= line.quantity {
        orders := orders + {line};
        quantity := quantity - line.quantity;
      }
      r := Pass;
    }

    method Deallocate(line: OrderLine) returns (r: Outcome)
      modifies this
      ensures (State(), r) == DeallocateStep(old(State()), line)
      ensures r.Fail? <==> !old(CanDeallocate(line))
    {
      if !CanDeallocate(line) {
        return Fail(AllocationError(Deallocating));
      }
      orders := orders - {line};
      quantity := quantity + line.quantity;
      r := Pass;
    }

    /** __gt__: this batch ranks after `other`. Never true of a non-batch,
        nor of a batch without eta. */
    predicate Gt(other: object): (r: bool)
      ensures r ==> other is Batch && eta.Some?
    {
      other is Batch && EtaAfter(eta, (other as Batch).eta)
    }
  }

  // ---------------------------------------------------------------------------
  // Priority order

  /** The eta comparison inside __gt__: no eta never ranks after anything,
      any eta ranks after no eta, two etas compare as days. */
  predicate EtaAfter(mine: Option<Day>, theirs: Option<Day>) {
    if mine.None? then false
    else if theirs.None? then true
    else mine.value > theirs.value
  }

  /** `a < b` as `sorted` asks it: Batch has no __lt__, so Python answers
      with the reflected `b.__gt__(a)`. */
  predicate Before(a: Batch, b: Batch): (r: bool)
    ensures r ==> b.eta.Some?
    ensures a.eta.None? && b.eta.Some? ==> r
  {
    b.Gt(a)
  }

  lemma BeforeIff(a: Batch, b: Batch)
    ensures Before(a, b) <==> b.eta.Some? && (a.eta.None? || a.eta.value < b.eta.value)
  {
  }

  lemma BeforeIrreflexive(a: Batch)
    ensures !Before(a, a)
  {
  }

  lemma BeforeTransitive(a: Batch, b: Batch, c: Batch)
    requires Before(a, b) && Before(b, c)
    ensures Before(a, c)
  {
  }

  lemma UndatedUnordered(a: Batch, b: Batch)
    requires a.eta.None? && b.eta.None?
    ensures !Before(a, b) && !Before(b, a)
  {
  }

  /** Ties are exactly equal etas, so `Before` is a strict weak order. */
  lemma TieIffSameEta(a: Batch, b: Batch)
    ensures !Before(a, b) && !Before(b, a) <==> a.eta == b.eta
  {
  }

  lemma GtNonBatch(b: Batch, other: object)
    requires !(other is Batch)
    ensures !b.Gt(other)
  {
  }

  // ---------------------------------------------------------------------------
  // sorted(batches): a stable sort by `Before`

  /** Puts `x` in front of the first element it is strictly before, so after
      every element it ties with. */
  function Insert(r: seq<Batch>, x: Batch): (t: seq<Batch>)
    ensures |t| == |r| + 1
  {
    if r == [] then [x]
    else if Before(x, r[0]) then [x] + r
    else [r[0]] + Insert(r[1..], x)
  }

  /** Python's `sorted`: insertion sort, which is stable. */
  function SortByPriority(s: seq<Batch>): (r: seq<Batch>)
    ensures |r| == |s|
  {
    if s == [] then []
    else Insert(SortByPriority(s[..|s| - 1]), s[|s| - 1])
  }

  /** No element is strictly before an element on its left. */
  ghost predicate Ordered(r: seq<Batch>) {
    forall i, j :: 0 <= i < j < |r| ==> !Before(r[j], r[i])
  }

  /** The elements of `s` with eta `e`, in their order in `s`. */
  function WithEta(s: seq<Batch>, e: Option<Day>): seq<Batch> {
    if s == [] then []
    else (if s[0].eta == e then [s[0]] else []) + WithEta(s[1..], e)
  }

  lemma {:induction false} InsertPermutes(r: seq<Batch>, x: Batch)
    ensures multiset(Insert(r, x)) == multiset(r) + multiset{x}
  {
    if r != [] && !Before(x, r[0]) {
      InsertPermutes(r[1..], x);
      assert r == [r[0]] + r[1..];
    }
  }

  lemma OrderedTail(r: seq<Batch>)
    requires Ordered(r) && r != []
    ensures Ordered(r[1..])
  {
  }

  lemma OrderedCons(y: Batch, t: seq<Batch>)
    requires Ordered(t) && forall z :: z in t ==> !Before(z, y)
    ensures Ordered([y] + t)
  {
  }

  lemma {:induction false} InsertOrdered(r: seq<Batch>, x: Batch)
    requires Ordered(r)
    ensures Ordered(Insert(r, x))
  {
    if r == [] {
      assert Insert(r, x) == [x] + [];
      OrderedCons(x, []);
    } else {
      var y, rest := r[0], r[1..];
      if Before(x, y) {
        forall z | z in r
          ensures !Before(z, x)
        {
          var i :| 0 <= i < |r| && r[i] == z;
          assert i == 0 || !Before(r[i], r[0]);
          StrictlyBeforeTied(x, y, z);
        }
        assert Insert(r, x) == [x] + r;
        OrderedCons(x, r);
      } else {
        OrderedTail(r);
        InsertOrdered(rest, x);
        InsertPermutes(rest, x);
        var t := Insert(rest, x);
        forall z | z in t
          ensures !Before(z, y)
        {
          assert z in multiset(t);
          if z != x {
            assert z in multiset(rest);
            var m :| 0 <= m < |rest| && rest[m] == z;
            assert r[m + 1] == z;
          }
        }
        assert Insert(r, x) == [y] + t;
        OrderedCons(y, t);
      }
    }
  }

  lemma {:induction false} SortedPermutes(s: seq<Batch>)
    ensures multiset(SortByPriority(s)) == multiset(s)
  {
    if s != [] {
      var init := s[..|s| - 1];
      SortedPermutes(init);
      InsertPermutes(SortByPriority(init), s[|s| - 1]);
      assert s == init + [s[|s| - 1]];
    }
  }

  lemma {:induction false} SortedIsOrdered(s: seq<Batch>)
    ensures Ordered(SortByPriority(s))
  {
    if s != [] {
      SortedIsOrdered(s[..|s| - 1]);
      InsertOrdered(SortByPriority(s[..|s| - 1]), s[|s| - 1]);
    }
  }

  lemma {:induction false} WithEtaAppend(s: seq<Batch>, x: Batch, e: Option<Day>)
    ensures WithEta(s + [x], e) == WithEta(s, e) + (if x.eta == e then [x] else [])
  {
    if s != [] {
      assert (s + [x])[1..] == s[1..] + [x];
      WithEtaAppend(s[1..], x, e);
    }
  }

  lemma {:induction false} WithEtaNone(s: seq<Batch>, e: Option<Day>)
    requires forall i :: 0 <= i < |s| ==> s[i].eta != e
    ensures WithEta(s, e) == []
  {
    if s != [] {
      WithEtaNone(s[1..], e);
    }
  }

  /** A batch strictly before `y` is strictly before, and not tied with,
      anything that is not strictly before `y`. */
  lemma StrictlyBeforeTied(x: Batch, y: Batch, z: Batch)
    requires Before(x, y) && !Before(z, y)
    ensures Before(x, z) && x.eta != z.eta
  {
  }

  lemma WithEtaCons(y: Batch, t: seq<Batch>, e: Option<Day>)
    ensures WithEta([y] + t, e) == (if y.eta == e then [y] else []) + WithEta(t, e)
  {
  }

  lemma {:induction false} InsertWithEta(r: seq<Batch>, x: Batch, e: Option<Day>)
    requires Ordered(r)
    ensures WithEta(Insert(r, x), e) == WithEta(r, e) + (if x.eta == e then [x] else [])
  {
    if r == [] {
      assert Insert(r, x) == [x] + [];
      WithEtaCons(x, [], e);
    } else {
      var y, rest := r[0], r[1..];
      assert r == [y] + rest;
      WithEtaCons(y, rest, e);
      if Before(x, y) {
        assert Insert(r, x) == [x] + r;
        WithEtaCons(x, r, e);
        if x.eta == e {
          forall i | 0 <= i < |r|
            ensures r[i].eta != e
          {
            assert i == 0 || !Before(r[i], r[0]);
            StrictlyBeforeTied(x, y, r[i]);
          }
          WithEtaNone(r, e);
        }
      } else {
        var t := Insert(rest, x);
        assert Insert(r, x) == [y] + t;
        WithEtaCons(y, t, e);
        OrderedTail(r);
        InsertWithEta(rest, x, e);
      }
    }
  }

  /** Stability: among batches with the same eta, the sort keeps input order. */
  lemma {:induction false} SortedIsStable(s: seq<Batch>, e: Option<Day>)
    ensures WithEta(SortByPriority(s), e) == WithEta(s, e)
  {
    if s != [] {
      var init, x := s[..|s| - 1], s[|s| - 1];
      SortedIsStable(init, e);
      SortedIsOrdered(init);
      InsertWithEta(SortByPriority(init), x, e);
      assert s == init + [x];
      WithEtaAppend(init, x, e);
    }
  }

  lemma {:induction false} WithEtaHas(s: seq<Batch>, x: Batch)
    requires x in s
    ensures x in WithEta(s, x.eta)
  {
    assert s == [s[0]] + s[1..];
    WithEtaCons(s[0], s[1..], x.eta);
    if s[0] != x {
      WithEtaHas(s[1..], x);
    }
  }

  lemma {:induction false} WithEtaFrom(s: seq<Batch>, e: Option<Day>, z: Batch)
    requires z in WithEta(s, e)
    ensures z in s && z.eta == e
  {
    assert s == [s[0]] + s[1..];
    WithEtaCons(s[0], s[1..], e);
    if z !in WithEta(s[1..], e) {
    } else {
      WithEtaFrom(s[1..], e, z);
    }
  }

  /** Two ordered lists that agree, eta by eta, on which batches they hold and
      in what order, are the same list. */
  lemma {:induction false} OrderedByEtaClassesIsUnique(t: seq<Batch>, u: seq<Batch>)
    requires Ordered(t) && Ordered(u)
    requires forall e :: WithEta(t, e) == WithEta(u, e)
    ensures t == u
    decreases |t|
  {
    if t != [] {
      WithEtaHas(t, t[0]);
      WithEtaFrom(u, t[0].eta, t[0]);
    }
    if u != [] {
      WithEtaHas(u, u[0]);
      WithEtaFrom(t, u[0].eta, u[0]);
    }
    if t != [] && u != [] {
      var x, y := t[0], u[0];
      var t', u' := t[1..], u[1..];
      assert t == [x] + t' && u == [y] + u';
      var i :| 0 <= i < |t| && t[i] == y;
      assert i == 0 || !Before(t[i], t[0]);
      var j :| 0 <= j < |u| && u[j] == x;
      assert j == 0 || !Before(u[j], u[0]);
      TieIffSameEta(x, y);
      WithEtaCons(x, t', x.eta);
      WithEtaCons(y, u', x.eta);
      assert x == WithEta(t, x.eta)[0] == WithEta(u, x.eta)[0] == y;
      forall e
        ensures WithEta(t', e) == WithEta(u', e)
      {
        assert WithEta(t, e) == WithEta(u, e);
        WithEtaCons(x, t', e);
        WithEtaCons(y, u', e);
        var a, b := WithEta(t', e), WithEta(u', e);
        if x.eta == e {
          assert ([x] + a)[1..] == a && ([y] + b)[1..] == b;
        } else {
          assert [] + a == a && [] + b == b;
        }
      }
      OrderedTail(t);
      OrderedTail(u);
      OrderedByEtaClassesIsUnique(t', u');
    }
  }

  /** The three properties above fix the sorted list: any ordered list that
      keeps, for every eta, the input's batches in input order is it. So every
      stable sort by `Before` returns this list. */
  lemma SortedIsUnique(s: seq<Batch>, t: seq<Batch>)
    requires Ordered(t)
    requires forall e :: WithEta(t, e) == WithEta(s, e)
    ensures t == SortByPriority(s)
  {
    SortedIsOrdered(s);
    forall e
      ensures WithEta(SortByPriority(s), e) == WithEta(s, e)
    {
      SortedIsStable(s, e);
    }
    OrderedByEtaClassesIsUnique(t, SortByPriority(s));
  }

  // ---------------------------------------------------------------------------
  // Selecting the batch

  /** The batches of `s` that accept `line` in the current state. */
  ghost function Eligible(line: OrderLine, s: seq<Batch>): set<Batch>
    reads s
  {
    set b | b in s && b.CanAllocate(line)
  }

  /** Position of the first element of `r` in `E`: what the generator with
      `next` finds. */
  function FirstIn(r: seq<Batch>, E: set<Batch>): (k: Option<nat>)
    ensures k.None? <==> forall i :: 0 <= i < |r| ==> r[i] !in E
    ensures k.Some? ==>
      && k.value < |r| && r[k.value] in E
      && forall i :: 0 <= i < k.value ==> r[i] !in E
  {
    if r == [] then None
    else if r[0] in E then Some(0)
    else match FirstIn(r[1..], E)
      case None => None
      case Some(i) => Some(i + 1)
  }

  /** The element at an optional position. */
  function At(s: seq<Batch>, k: Option<nat>): Option<Batch>
    requires k.Some? ==> k.value < |s|
  {
    if k.None? then None else Some(s[k.value])
  }

  /** The intended choice stated directly: a position of `s` in `E` such that
      no batch in `E` comes strictly before it, and every earlier batch in `E`
      comes strictly after it (ties go to the earliest position). */
  function PickBest(s: seq<Batch>, E: set<Batch>): (k: Option<nat>)
    ensures k.None? <==> forall i :: 0 <= i < |s| ==> s[i] !in E
    ensures k.Some? ==>
      && k.value < |s| && s[k.value] in E
      && (forall j :: 0 <= j < |s| && s[j] in E ==> !Before(s[j], s[k.value]))
      && (forall j :: 0 <= j < k.value && s[j] in E ==> Before(s[k.value], s[j]))
  {
    if s == [] then None
    else
      var rest := PickBest(s[..|s| - 1], E);
      var x := s[|s| - 1];
      if x !in E then rest
      else if rest.None? || Before(x, s[rest.value]) then Some(|s| - 1)
      else rest
  }

  /** The two properties of PickBest fix the position: there is no other. */
  lemma BestIsUnique(s: seq<Batch>, E: set<Batch>, k: nat)
    requires k < |s| && s[k] in E
    requires forall j :: 0 <= j < |s| && s[j] in E ==> !Before(s[j], s[k])
    requires forall j :: 0 <= j < k && s[j] in E ==> Before(s[k], s[j])
    ensures PickBest(s, E) == Some(k)
  {
  }

  /** The first element of `r` in `E`, if any. */
  ghost function FirstMember(r: seq<Batch>, E: set<Batch>): Option<Batch> {
    At(r, FirstIn(r, E))
  }

  lemma FirstMemberCons(y: Batch, r: seq<Batch>, E: set<Batch>)
    ensures FirstMember([y] + r, E) == if y in E then Some(y) else FirstMember(r, E)
  {
  }

  lemma {:induction false} InsertFirstIn(r: seq<Batch>, x: Batch, E: set<Batch>)
    requires Ordered(r)
    ensures var f := FirstMember(r, E);
      FirstMember(Insert(r, x), E) ==
        if x in E && (f.None? || Before(x, f.value)) then Some(x) else f
  {
    if r == [] {
      assert Insert(r, x) == [x] + [];
      FirstMemberCons(x, [], E);
    } else {
      var y, rest := r[0], r[1..];
      assert r == [y] + rest;
      FirstMemberCons(y, rest, E);
      if Before(x, y) {
        assert Insert(r, x) == [x] + r;
        FirstMemberCons(x, r, E);
        var k := FirstIn(r, E);
        if k.Some? {
          assert k.value == 0 || !Before(r[k.value], r[0]);
          StrictlyBeforeTied(x, y, r[k.value]);
        }
      } else {
        var t := Insert(rest, x);
        assert Insert(r, x) == [y] + t;
        FirstMemberCons(y, t, E);
        if y !in E {
          OrderedTail(r);
          InsertFirstIn(rest, x, E);
        }
      }
    }
  }

  /** The first eligible batch of the stably sorted list is the PickBest one. */
  lemma {:induction false} FirstOfSortedIsBest(s: seq<Batch>, E: set<Batch>)
    ensures FirstMember(SortByPriority(s), E) == At(s, PickBest(s, E))
  {
    if s != [] {
      var init, x := s[..|s| - 1], s[|s| - 1];
      FirstOfSortedIsBest(init, E);
      SortedIsOrdered(init);
      InsertFirstIn(SortByPriority(init), x, E);
      var p := PickBest(init, E);
      if p.Some? {
        assert s[p.value] == init[p.value];
      }
    }
  }

  /** The generator `b for b in ordered if b.can_allocate(line)` and `next`. */
  method FirstEligible(line: OrderLine, ordered: seq<Batch>) returns (k: Option<nat>)
    ensures k == FirstIn(ordered, Eligible(line, ordered))
  {
    var i := 0;
    while i < |ordered|
      invariant 0 <= i <= |ordered|
      invariant forall j :: 0 <= j < i ==> !ordered[j].CanAllocate(line)
    {
      if ordered[i].CanAllocate(line) {
        return Some(i);
      }
      i := i + 1;
    }
    return None;
  }

  /** Module-level allocate(line, batches): give the line to the first batch
      of the sorted list that accepts it and return that batch's reference. */
  method Allocate(line: OrderLine, batches: seq<Batch>) returns (result: Result<Reference>)
    modifies batches
    ensures match PickBest(batches, old(Eligible(line, batches)))
      case None =>
        && result == Failure(OutOfStock(line.sku))
        && forall b :: b in batches ==> b.State() == old(b.State())
      case Some(k) =>
        && result == Success(batches[k].reference)
        && batches[k].State() == AllocateStep(batches[k].sku, old(batches[k].State()), line).0
        && forall b :: b in batches && b != batches[k] ==> b.State() == old(b.State())
  {
    ghost var E := Eligible(line, batches);
    var ordered := SortByPriority(batches);
    SortedPermutes(batches);
    assert forall b :: b in ordered <==> b in batches by {
      forall b ensures b in ordered <==> b in batches {
        assert b in ordered <==> b in multiset(ordered);
        assert b in batches <==> b in multiset(batches);
      }
    }
    assert Eligible(line, ordered) == E;
    FirstOfSortedIsBest(batches, E);
    var k := FirstEligible(line, ordered);
    match k {
      case None =>
        result := Failure(OutOfStock(line.sku));
      case Some(i) =>
        var chosen := ordered[i];
        var outcome := chosen.Allocate(line);
        result := Success(chosen.reference);
    }
  }
}
