/** The stock-allocation domain model: batches of stock that order lines are
    allocated to, and the selector that picks the batch for a line. */
module Model {
  import opened Wrappers
  import opened OrderLines

  /** Total quantity ordered by a set of lines. */
  ghost function SumQty(lines: set<OrderLine>): int
  {
    if lines == {} then 0
    else
      var l :| l in lines;
      l.qty + SumQty(lines - {l})
  }

  /** Any element may be taken out first: the sum does not depend on the
      order in which the set is visited. */
  lemma {:induction false} SumQtyRemove(lines: set<OrderLine>, l: OrderLine)
    requires l in lines
    ensures SumQty(lines) == l.qty + SumQty(lines - {l})
    decreases |lines|
  {
    var m :| m in lines && SumQty(lines) == m.qty + SumQty(lines - {m});
    if m != l {
      SumQtyRemove(lines - {m}, l);
      SumQtyRemove(lines - {l}, m);
      assert lines - {m} - {l} == lines - {l} - {m};
    }
  }

  /** Adding a line that is not yet present adds its quantity. */
  lemma SumQtyAdd(lines: set<OrderLine>, l: OrderLine)
    requires l !in lines
    ensures SumQty(lines + {l}) == SumQty(lines) + l.qty
  {
    SumQtyRemove(lines + {l}, l);
    assert lines + {l} - {l} == lines;
  }

  /** Ranking key for an arrival date: a batch without an eta (stock on hand)
      comes before every batch with one; batches with an eta rank by date. */
  function EtaKey(eta: Option<int>): (int, int)
  {
    match eta
    case None => (0, 0)
    case Some(d) => (1, d)
  }

  /** Lexicographic "strictly before" on ranking keys. */
  predicate KeyBefore(k1: (int, int), k2: (int, int))
  {
    k1.0 < k2.0 || (k1.0 == k2.0 && k1.1 < k2.1)
  }

  /** The failure of the selector: no batch could take the line. */
  datatype OutOfStock = OutOfStock(orderid: string, sku: string, qty: int)

  class Batch {
    const ref: string
    const sku: string
    const purchasedQuantity: int
    /** Expected arrival day; `None` means the stock is already here. */
    const eta: Option<int>
    var allocations: set<OrderLine>

    constructor (ref: string, sku: string, qty: int, eta: Option<int>)
      ensures this.ref == ref && this.sku == sku && this.eta == eta
      ensures purchasedQuantity == qty && allocations == {}
      ensures Available() == qty
    {
      this.ref := ref;
      this.sku := sku;
      this.purchasedQuantity := qty;
      this.eta := eta;
      this.allocations := {};
    }

    /** What is left to allocate: the purchase minus what is allocated. */
    ghost function Available(): int
      reads this
    {
      purchasedQuantity - SumQty(allocations)
    }

    /** The three conditions under which the batch accepts a line. */
    ghost predicate Allocatable(line: OrderLine)
      reads this
    {
      sku == line.sku && Available() >= line.qty && line !in allocations
    }

    /** A line is accepted exactly when it is a new line of this product and
        adding it does not overdraw the batch. */
    lemma AllocatableMeansFits(line: OrderLine)
      ensures Allocatable(line) <==>
                sku == line.sku && line !in allocations
                && purchasedQuantity - SumQty(allocations + {line}) >= 0
    {
      if line !in allocations {
        SumQtyAdd(allocations, line);
      }
    }

    /** The available quantity, summed over the allocated lines; reading it
        changes nothing. */
    method AvailableQuantity() returns (q: int)
      ensures q == Available()
    {
      var rest := allocations;
      var total := 0;
      while rest != {}
        invariant total + SumQty(rest) == SumQty(allocations)
        decreases |rest|
      {
        var l :| l in rest;
        SumQtyRemove(rest, l);
        total := total + l.qty;
        rest := rest - {l};
      }
      q := purchasedQuantity - total;
    }

    method CanAllocate(line: OrderLine) returns (ok: bool)
      ensures ok <==> Allocatable(line)
    {
      ok := sku == line.sku;
      if ok {
        var available := AvailableQuantity();
        ok := available >= line.qty && line !in allocations;
      }
    }

    /** Adds the line when the batch accepts it, and otherwise does nothing. */
    method Allocate(line: OrderLine)
      modifies this`allocations
      ensures allocations == if old(Allocatable(line)) then old(allocations) + {line}
                             else old(allocations)
      ensures old(Allocatable(line)) ==>
                Available() == old(Available()) - line.qty && Available() >= 0
      ensures !old(Allocatable(line)) ==> Available() == old(Available())
      ensures line in allocations <==> old(line in allocations) || old(Allocatable(line))
    {
      var ok := CanAllocate(line);
      if ok {
        SumQtyAdd(allocations, line);
        allocations := allocations + {line};
      }
    }

    predicate CanDeallocate(line: OrderLine)
      reads this
    {
      line in allocations
    }

    /** Removes the line when it is allocated, and otherwise does nothing. */
    method Deallocate(line: OrderLine)
      modifies this`allocations
      ensures allocations == if old(CanDeallocate(line)) then old(allocations) - {line}
                             else old(allocations)
      ensures line !in allocations
      ensures Available() == if old(CanDeallocate(line)) then old(Available()) + line.qty
                             else old(Available())
    {
      if CanDeallocate(line) {
        SumQtyRemove(allocations, line);
        allocations := allocations - {line};
      }
    }

    /** This batch ranks after `other`: a batch without an eta never does, a
        batch with one ranks after any batch without, otherwise the later
        date ranks after. */
    predicate Gt(other: Batch)
      ensures Gt(other) <==> KeyBefore(EtaKey(other.eta), EtaKey(eta))
    {
      if eta.None? then false
      else if other.eta.None? then true
      else eta.value > other.eta.value
    }
  }

  /** The ranking is a strict weak order: irreflexive, transitive, and
      "not after" is transitive too. */
  lemma GtStrictWeakOrder(a: Batch, b: Batch, c: Batch)
    ensures !a.Gt(a)
    ensures a.Gt(b) ==> !b.Gt(a)
    ensures a.Gt(b) && b.Gt(c) ==> a.Gt(c)
    ensures a.Gt(c) ==> a.Gt(b) || b.Gt(c)
  {
  }

  /** The batches that accept the line, in input order. */
  ghost function Eligible(line: OrderLine, batches: seq<Batch>): (r: seq<Batch>)
    reads batches
    ensures forall j :: 0 <= j < |r| ==> r[j] in batches && r[j].Allocatable(line)
    ensures forall j :: 0 <= j < |batches| && batches[j].Allocatable(line) ==> batches[j] in r
  {
    if batches == [] then []
    else
      var last := batches[|batches| - 1];
      Eligible(line, batches[..|batches| - 1]) + (if last.Allocatable(line) then [last] else [])
  }

  /** Index `i` holds the batch the selector must pick: it accepts the line,
      no accepting batch ranks before it, and every accepting batch earlier
      in the list ranks after it. */
  ghost predicate FirstEarliest(line: OrderLine, batches: seq<Batch>, i: int)
    reads batches
  {
    && 0 <= i < |batches|
    && batches[i].Allocatable(line)
    && (forall j :: 0 <= j < |batches| && batches[j].Allocatable(line) ==> !batches[i].Gt(batches[j]))
    && (forall j :: 0 <= j < i && batches[j].Allocatable(line) ==> batches[j].Gt(batches[i]))
  }

  /** The pick is deterministic: at most one index is first-earliest. */
  lemma FirstEarliestUnique(line: OrderLine, batches: seq<Batch>, i: int, k: int)
    requires FirstEarliest(line, batches, i) && FirstEarliest(line, batches, k)
    ensures i == k
  {
  }

  /** Stock on hand wins over a shipment, and among shipments the earliest
      date wins. */
  lemma FirstEarliestPrefersEarliest(line: OrderLine, batches: seq<Batch>, i: int, j: int)
    requires FirstEarliest(line, batches, i)
    requires 0 <= j < |batches| && batches[j].Allocatable(line)
    ensures batches[j].eta.None? ==> batches[i].eta.None?
    ensures batches[i].eta.Some? ==> batches[j].eta.Some? && batches[i].eta.value <= batches[j].eta.value
  {
  }

  /** The leftmost minimum of a list under the ranking: the batch that
      `min` returns, which replaces its pick only when a later item ranks
      strictly before it. */
  method Earliest(candidates: seq<Batch>) returns (k: nat)
    requires candidates != []
    ensures k < |candidates|
    ensures forall j :: 0 <= j < |candidates| ==> !candidates[k].Gt(candidates[j])
    ensures forall j :: 0 <= j < k ==> candidates[j].Gt(candidates[k])
  {
    k := 0;
    var n := 1;
    while n < |candidates|
      invariant k < n <= |candidates|
      invariant forall j :: 0 <= j < n ==> !candidates[k].Gt(candidates[j])
      invariant forall j :: 0 <= j < k ==> candidates[j].Gt(candidates[k])
    {
      if candidates[k].Gt(candidates[n]) {
        k := n;
      }
      n := n + 1;
    }
  }

  /** The batches that accept the line, collected in input order. */
  method AvailableBatches(line: OrderLine, batches: seq<Batch>) returns (available: seq<Batch>)
    ensures available == Eligible(line, batches)
  {
    available := [];
    var n := 0;
    while n < |batches|
      invariant n <= |batches|
      invariant available == Eligible(line, batches[..n])
    {
      var ok := batches[n].CanAllocate(line);
      assert batches[..n + 1][..n] == batches[..n];
      if ok {
        available := available + [batches[n]];
      }
      n := n + 1;
    }
    assert batches[..n] == batches;
  }

  /** The leftmost minimum of the eligible batches is the first-earliest
      batch of the whole list, at the index returned. */
  lemma {:induction false} EligiblePick(line: OrderLine, batches: seq<Batch>, k: int) returns (i: int)
    requires 0 <= k < |Eligible(line, batches)|
    requires forall j :: 0 <= j < |Eligible(line, batches)| ==>
               !Eligible(line, batches)[k].Gt(Eligible(line, batches)[j])
    requires forall j :: 0 <= j < k ==> Eligible(line, batches)[j].Gt(Eligible(line, batches)[k])
    ensures FirstEarliest(line, batches, i)
    ensures batches[i] == Eligible(line, batches)[k]
  {
    var init := batches[..|batches| - 1];
    var last := batches[|batches| - 1];
    var e, ei := Eligible(line, batches), Eligible(line, init);
    assert e == ei + (if last.Allocatable(line) then [last] else []);
    if k < |ei| {
      assert forall j :: 0 <= j < |ei| ==> e[j] == ei[j];
      var i' := EligiblePick(line, init, k);
      i := i';
      forall j | 0 <= j < |batches| && batches[j].Allocatable(line)
        ensures !batches[i].Gt(batches[j])
      {
        if j < |init| {
          assert init[j] == batches[j];
        } else {
          assert e[|e| - 1] == batches[j];
        }
      }
      assert init[i] == batches[i];
      forall j | 0 <= j < i && batches[j].Allocatable(line)
        ensures batches[j].Gt(batches[i])
      {
        assert init[j] == batches[j];
      }
    } else {
      i := |batches| - 1;
      forall j | 0 <= j < i && batches[j].Allocatable(line)
        ensures batches[j].Gt(batches[i])
      {
        assert init[j] == batches[j];
        assert batches[j] in ei;
        var m :| 0 <= m < |ei| && ei[m] == batches[j];
        assert e[m] == batches[j];
      }
      forall j | 0 <= j < |batches| && batches[j].Allocatable(line)
        ensures !batches[i].Gt(batches[j])
      {
        assert batches[j] in e;
      }
    }
  }

  /** Allocates the line to the first-earliest batch that accepts it and
      returns that batch's reference, or fails with `OutOfStock` (changing
      nothing) when no batch accepts it. */
  method Allocate(line: OrderLine, batches: seq<Batch>) returns (r: Result<string, OutOfStock>)
    modifies batches
    ensures r.Failure? <==> forall j :: 0 <= j < |batches| ==> !old(batches[j].Allocatable(line))
    ensures r.Failure? ==>
              && r.error == OutOfStock(line.orderid, line.sku, line.qty)
              && forall j :: 0 <= j < |batches| ==> batches[j].allocations == old(batches[j].allocations)
    ensures r.Success? ==>
              exists i ::
                && old(FirstEarliest(line, batches, i))
                && r.value == batches[i].ref
                && batches[i].allocations == old(batches[i].allocations) + {line}
                && forall j :: 0 <= j < |batches| && batches[j] != batches[i] ==>
                     batches[j].allocations == old(batches[j].allocations)
  {
    var available := AvailableBatches(line, batches);
    if available == [] {
      forall j | 0 <= j < |batches|
        ensures !batches[j].Allocatable(line)
      {
        assert batches[j] in batches;
      }
      return Failure(OutOfStock(line.orderid, line.sku, line.qty));
    }
    var k := Earliest(available);
    ghost var i := EligiblePick(line, batches, k);
    var earliest := available[k];
    earliest.Allocate(line);
    r := Success(earliest.ref);
  }

  /** Allocating a line twice has the effect of allocating it once. */
  method AllocateTwice(batch: Batch, line: OrderLine)
    modifies batch
    ensures batch.allocations == if old(batch.Allocatable(line)) then old(batch.allocations) + {line}
                                 else old(batch.allocations)
  {
    batch.Allocate(line);
    batch.Allocate(line);
  }

  /** Deallocating a line just allocated restores the batch. */
  method AllocateThenDeallocate(batch: Batch, line: OrderLine)
    requires line !in batch.allocations
    modifies batch
    ensures batch.allocations == old(batch.allocations)
    ensures batch.Available() == old(batch.Available())
  {
    batch.Allocate(line);
    batch.Deallocate(line);
  }
}
