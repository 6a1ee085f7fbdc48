/** The earlier, simpler domain model: a batch keeps its available quantity
    as a plain counter that every allocation decrements. */
module EarlyModel {
  import opened OrderLines

  class Batch {
    const ref: string
    const sku: string
    var availableQuantity: int

    constructor (ref: string, sku: string, qty: int)
      ensures this.ref == ref && this.sku == sku && availableQuantity == qty
    {
      this.ref := ref;
      this.sku := sku;
      this.availableQuantity := qty;
    }

    /** Subtracts the line's quantity without any check: neither the product
        nor the remaining quantity is looked at, so the counter may go
        negative. After a successful check it stays non-negative. */
    method Allocate(line: OrderLine)
      modifies this`availableQuantity
      ensures availableQuantity == old(availableQuantity) - line.qty
      ensures old(CanAllocate(line)) ==> availableQuantity >= 0
    {
      availableQuantity := availableQuantity - line.qty;
    }

    /** The product matches and enough is left; a read-only check. */
    predicate CanAllocate(line: OrderLine)
      reads this
    {
      sku == line.sku && availableQuantity >= line.qty
    }
  }

  /** Two successive allocations remove both quantities, whichever goes first. */
  method AllocateBoth(batch: Batch, first: OrderLine, second: OrderLine)
    modifies batch
    ensures batch.availableQuantity == old(batch.availableQuantity) - (second.qty + first.qty)
  {
    batch.Allocate(first);
    batch.Allocate(second);
  }
}
