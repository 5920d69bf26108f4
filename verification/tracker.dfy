/**
 * The transaction cache tracker, as the transaction-aware objects use it:
 * it answers whether the current thread is inside a transaction, and it is
 * told about every object that acquires per-thread state.
 */
module Tracking {

  class TransactionCacheTracker {
    /** Whether the current thread is inside a transaction; the enclosing
        transaction boundary sets it. */
    var inTransaction: bool
    /** Every object handed to addToTracker, in call order. */
    ghost var registrations: seq<object>

    constructor (inTransaction: bool)
      ensures this.inTransaction == inTransaction
      ensures registrations == []
    {
      this.inTransaction := inTransaction;
      registrations := [];
    }

    function IsInTransaction(): bool
      reads this
    {
      inTransaction
    }

    /** Record that `obj` now holds per-thread state. */
    method AddToTracker(obj: object)
      modifies this`registrations
      ensures registrations == old(registrations) + [obj]
    {
      registrations := registrations + [obj];
    }

    /** The transaction boundary entering or leaving a transaction. */
    method SetInTransaction(inTransaction: bool)
      modifies this`inTransaction
      ensures this.inTransaction == inTransaction
    {
      this.inTransaction := inTransaction;
    }
  }
}
