/** Concrete situations replayed on the model: each method builds fresh
    batches and lines, runs the operations and states the outcome and
    quantities it ends with. Most replay a test of test_domain.py. The last
    three have no test behind them: they show the typed `OutOfStock` failure
    that replaces the code's `StopIteration`, and the per-batch `orders` set. */
module DomainScenarios {
  import opened Domain

  /** A calendar date as a day number that keeps the order of dates. */
  function Date(year: int, month: int, day: int): Day {
    year * 10000 + month * 100 + day
  }

  method AllocateLeavesRemainder() returns (left: int)
    ensures left == 18
  {
    var batch := new Batch(1, "SMALL-TABLE", 20, {}, None);
    var line := new OrderLine(10, "SMALL-TABLE", 2);
    var outcome := batch.Allocate(line);
    left := batch.quantity;
  }

  method AllocateAllStock() returns (left: int)
    ensures left == 0
  {
    var batch := new Batch(1, "SMALL-TABLE", 20, {}, None);
    var line := new OrderLine(10, "SMALL-TABLE", 20);
    var outcome := batch.Allocate(line);
    left := batch.quantity;
  }

  method AllocateMoreThanStock() returns (outcome: Outcome, left: int, taken: bool)
    ensures outcome == Pass && left == 20 && !taken
  {
    var batch := new Batch(1, "SMALL-TABLE", 20, {}, None);
    var line := new OrderLine(10, "SMALL-TABLE", 40);
    outcome := batch.Allocate(line);
    left, taken := batch.quantity, line in batch.orders;
  }

  method AllocateTwice() returns (second: Outcome, left: int)
    ensures second == Fail(AllocationError(Allocating)) && left == 18
  {
    var batch := new Batch(1, "SMALL-TABLE", 20, {}, None);
    var line := new OrderLine(10, "SMALL-TABLE", 2);
    var first := batch.Allocate(line);
    second := batch.Allocate(line);
    left := batch.quantity;
  }

  method AllocateOtherSku() returns (outcome: Outcome, left: int)
    ensures outcome == Fail(AllocationError(Allocating)) && left == 20
  {
    var batch := new Batch(1, "SMALL-TABLE", 20, {}, None);
    var line := new OrderLine(10, "LARGE-TABLE", 2);
    outcome := batch.Allocate(line);
    left := batch.quantity;
  }

  method DeallocateRestores() returns (outcome: Outcome, left: int, held: bool)
    ensures outcome == Pass && left == 20 && !held
  {
    var batch := new Batch(1, "SMALL-TABLE", 20, {}, None);
    var line := new OrderLine(10, "SMALL-TABLE", 2);
    var first := batch.Allocate(line);
    outcome := batch.Deallocate(line);
    left, held := batch.quantity, line in batch.orders;
  }

  method DeallocateUnknownLine() returns (outcome: Outcome, left: int)
    ensures outcome == Fail(AllocationError(Deallocating)) && left == 18
  {
    var batch := new Batch(1, "SMALL-TABLE", 20, {}, None);
    var line := new OrderLine(10, "SMALL-TABLE", 2);
    var first := batch.Allocate(line);
    var stranger := new OrderLine(11, "LARGE-TABLE", 2);
    outcome := batch.Deallocate(stranger);
    left := batch.quantity;
  }

  method UndatedSortsFirst() returns (less: bool)
    ensures less
  {
    var undated := new Batch(1, "SMALL-TABLE", 20, {}, None);
    var dated := new Batch(2, "SMALL-TABLE", 20, {}, Some(Date(2026, 11, 5)));
    less := Before(undated, dated);
  }

  method EarlierEtaSortsFirst() returns (less: bool)
    ensures less
  {
    var earlier := new Batch(1, "SMALL-TABLE", 20, {}, Some(Date(2026, 11, 5)));
    var later := new Batch(2, "SMALL-TABLE", 20, {}, Some(Date(2027, 11, 5)));
    less := Before(earlier, later);
  }

  method AllocateSkipsOtherSku() returns (result: Result<Reference>, earlier: int, later: int)
    ensures result == Success(1) && earlier == 18 && later == 20
  {
    var batchEarlier := new Batch(1, "SMALL-TABLE", 20, {}, Some(Date(2026, 11, 5)));
    var batchLater := new Batch(2, "BIG-TABLE", 20, {}, Some(Date(2027, 11, 5)));
    var line := new OrderLine(10, "SMALL-TABLE", 2);
    var batches := [batchEarlier, batchLater];
    assert Eligible(line, batches) == {batchEarlier};
    BestIsUnique(batches, {batchEarlier}, 0);
    result := Allocate(line, batches);
    assert batchLater in batches && batchLater != batchEarlier;
    earlier, later := batchEarlier.quantity, batchLater.quantity;
  }

  method AllocatePrefersUndated() returns (result: Result<Reference>, dated: int, undated: int)
    ensures result == Success(2) && dated == 20 && undated == 18
  {
    var batchDate := new Batch(1, "SMALL-TABLE", 20, {}, Some(Date(2026, 11, 5)));
    var batchNone := new Batch(2, "SMALL-TABLE", 20, {}, None);
    var line := new OrderLine(10, "SMALL-TABLE", 2);
    var batches := [batchDate, batchNone];
    assert Eligible(line, batches) == {batchDate, batchNone};
    BestIsUnique(batches, {batchDate, batchNone}, 1);
    result := Allocate(line, batches);
    assert batchDate in batches && batchDate != batchNone;
    dated, undated := batchDate.quantity, batchNone.quantity;
  }

  method AllocatePrefersMatchingSku() returns (result: Result<Reference>, other: int, matching: int)
    ensures result == Success(2) && other == 20 && matching == 18
  {
    var otherSku := new Batch(1, "LARGE-TABLE", 20, {}, Some(Date(2024, 11, 5)));
    var sameSku := new Batch(2, "SMALL-TABLE", 20, {}, Some(Date(2026, 11, 5)));
    var line := new OrderLine(10, "SMALL-TABLE", 2);
    var batches := [otherSku, sameSku];
    assert Eligible(line, batches) == {sameSku};
    BestIsUnique(batches, {sameSku}, 1);
    result := Allocate(line, batches);
    assert otherSku in batches && otherSku != sameSku;
    other, matching := otherSku.quantity, sameSku.quantity;
  }

  method AllocateNothingEligible() returns (result: Result<Reference>, left: int)
    ensures result == Failure(OutOfStock("SMALL-TABLE")) && left == 20
  {
    var batch := new Batch(1, "LARGE-TABLE", 20, {}, None);
    var line := new OrderLine(10, "SMALL-TABLE", 2);
    var batches := [batch];
    assert Eligible(line, batches) == {};
    result := Allocate(line, batches);
    left := batch.quantity;
  }

  method AllocateFromNoBatches() returns (result: Result<Reference>)
    ensures result == Failure(OutOfStock("SMALL-TABLE"))
  {
    var line := new OrderLine(10, "SMALL-TABLE", 2);
    result := Allocate(line, []);
  }

  /** With a set of its own per batch, allocating a line to one batch does
      not let another batch release it. */
  method OrdersAreNotShared() returns (outcome: Outcome, left: int)
    ensures outcome == Fail(AllocationError(Deallocating)) && left == 20
  {
    var a := new Batch(1, "SMALL-TABLE", 20, {}, None);
    var b := new Batch(2, "SMALL-TABLE", 20, {}, None);
    var line := new OrderLine(10, "SMALL-TABLE", 2);
    var first := a.Allocate(line);
    outcome := b.Deallocate(line);
    left := b.quantity;
  }
}
