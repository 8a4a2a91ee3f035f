/** The SimpleStorage contract: one stored unsigned integer that can be set,
    read, and stepped up or down, never below zero. */
module SimpleStorage {

  /** An account (an EVM address). */
  type Address = nat

  /** The event `set` emits: the value stored and who stored it. */
  datatype DataStored = DataStored(value: nat, setter: Address)

  /** The outcome of `decrement`: done, or reverted with a reason. */
  datatype Outcome = Pass | Revert(reason: string)

  const BelowZero: string := "Cannot decrement below zero"

  class Store {
    /** The stored value. */
    var value: nat
    /** The DataStored events emitted so far, oldest first. */
    var events: seq<DataStored>

    /** A freshly deployed store holds 0. */
    constructor ()
      ensures value == 0 && events == []
    {
      value := 0;
      events := [];
    }

    /** The stored value. */
    method Get() returns (v: nat)
      ensures v == value
    {
      v := value;
    }

    /** Stores `v`, emitting DataStored(v, caller). */
    method Set(v: nat, caller: Address)
      modifies this
      ensures value == v
      ensures events == old(events) + [DataStored(v, caller)]
    {
      value := v;
      events := events + [DataStored(v, caller)];
    }

    /** Adds one to the stored value. */
    method Increment()
      modifies this
      ensures value == old(value) + 1 && events == old(events)
    {
      value := value + 1;
    }

    /** Subtracts one from a positive stored value; at 0 it reverts and the
        value stays 0. */
    method Decrement() returns (r: Outcome)
      modifies this
      ensures old(value) == 0 ==> r == Revert(BelowZero) && value == 0
      ensures old(value) > 0 ==> r == Pass && value == old(value) - 1
      ensures events == old(events)
    {
      if value == 0 {
        return Revert(BelowZero);
      }
      value := value - 1;
      r := Pass;
    }
  }

  /** Storing a value and reading it back gives that value, and the store
      has emitted exactly one more event. */
  method SetThenGet(s: Store, v: nat, caller: Address) returns (got: nat)
    modifies s
    ensures got == v && s.value == v
    ensures s.events == old(s.events) + [DataStored(v, caller)]
  {
    s.Set(v, caller);
    got := s.Get();
  }

  /** A decrement after an increment restores the value it started from. */
  method IncrementThenDecrement(s: Store) returns (r: Outcome)
    modifies s
    ensures r == Pass && s.value == old(s.value) && s.events == old(s.events)
  {
    s.Increment();
    r := s.Decrement();
  }
}
