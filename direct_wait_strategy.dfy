/**
 * The direct wait strategy: take and offer ask the probe once and hand back
 * whatever it answered.  A probe is a callback with effects, so here it is an
 * object that follows a script of answers and counts how often it is called.
 */
module DirectWaitStrategy {
  import opened Wrappers

  /** What one call of a take probe does: return an element (None for null), or throw InterruptedException. */
  datatype Taken<T> = Took(element: Option<T>) | TakeInterrupted

  /** What one call of an offer probe does: return a boolean, or throw InterruptedException. */
  datatype Offered = OfferReturned(accepted: bool) | OfferInterrupted

  /** A Takeable probe: its n-th call (counting from 0) answers script(n). */
  class Takeable<T> {
    const script: nat -> Taken<T>
    var calls: nat

    constructor (script: nat -> Taken<T>)
      ensures this.script == script && calls == 0
    {
      this.script := script;
      calls := 0;
    }

    method Take() returns (r: Taken<T>)
      modifies this
      ensures calls == old(calls) + 1
      ensures r == script(old(calls))
    {
      r := script(calls);
      calls := calls + 1;
    }
  }

  /** An Offerable probe: its n-th call (counting from 0) answers script(n). */
  class Offerable {
    const script: nat -> Offered
    var calls: nat

    constructor (script: nat -> Offered)
      ensures this.script == script && calls == 0
    {
      this.script := script;
      calls := 0;
    }

    method Offer() returns (r: Offered)
      modifies this
      ensures calls == old(calls) + 1
      ensures r == script(old(calls))
    {
      r := script(calls);
      calls := calls + 1;
    }
  }

  /**
   * take: one call of the probe; its element (null included) is the result,
   * and an interruption leaves with no result.
   */
  method Take<T>(t: Takeable<T>) returns (r: Taken<T>)
    modifies t
    ensures t.calls == old(t.calls) + 1
    ensures r == t.script(old(t.calls))
  {
    r := t.Take();
  }

  /**
   * offer: one call of the probe; its boolean (false included) is the result,
   * and an interruption leaves with no result.
   */
  method Offer(o: Offerable) returns (r: Offered)
    modifies o
    ensures o.calls == old(o.calls) + 1
    ensures r == o.script(old(o.calls))
  {
    r := o.Offer();
  }
}
