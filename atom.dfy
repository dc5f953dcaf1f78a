/**
 * The atom itself: a class holding one mutable value and a validator fixed
 * at construction.  The locks are not modelled.  The effect of every public
 * operation is tied to `AtomSpec.Apply`, so the lemmas about `Apply` and
 * `Run` are lemmas about these methods.
 */
module Atoms {
  import opened AtomSpec

  class Atom<T(==)> {
    /** The current value (mValue). */
    var value: T
    /** The validator given at construction (mValidator). */
    const validator: T -> bool

    /** The held value satisfies the validator. */
    ghost predicate HoldsValidValue()
      reads this
    {
      validator(value)
    }

    /** Stores the initial value without consulting the validator. */
    constructor (initialValue: T, validator: T -> bool := AcceptAll)
      ensures value == initialValue
      ensures this.validator == validator
    {
      this.value := initialValue;
      this.validator := validator;
    }

    /** operator=: overwrites the value; the validator is not consulted. */
    method Assign(newValue: T)
      modifies this
      ensures value == newValue
      ensures Apply(old(value), validator, Op.Assign(newValue)) == Some(Outcome(value, Nothing))
    {
      value := newValue;
    }

    /** operator==. */
    method Equals(otherValue: T) returns (eq: bool)
      ensures eq <==> value == otherValue
      ensures Apply(value, validator, Op.Equals(otherValue)) == Some(Outcome(value, Flag(eq)))
    {
      eq := value == otherValue;
    }

    /** operator!=. */
    method NotEquals(otherValue: T) returns (ne: bool)
      ensures ne <==> value != otherValue
      ensures Apply(value, validator, Op.NotEquals(otherValue)) == Some(Outcome(value, Flag(ne)))
    {
      ne := value != otherValue;
    }

    /** A copy of the current value. */
    method Value() returns (v: T)
      ensures v == value
      ensures Apply(value, validator, Op.Get) == Some(Outcome(value, Copy(v)))
    {
      v := value;
    }

    /** Evaluates a caller's predicate on the current value. */
    method Compare(func: T -> bool) returns (r: bool)
      ensures r == func(value)
      ensures Apply(value, validator, Op.Compare(func)) == Some(Outcome(value, Flag(r)))
    {
      r := func(value);
    }

    /** isValid: asks the validator about a proposed value. */
    method IsValid(newValue: T) returns (r: bool)
      ensures r == validator(newValue)
    {
      r := validator(newValue);
    }

    /**
     * Stores `newValue` iff the held value equals `oldValue` and the
     * validator accepts `newValue`; reports whether it stored.
     */
    method CompareAndSet(oldValue: T, newValue: T) returns (ok: bool)
      modifies this
      ensures ok <==> old(value) == oldValue && validator(newValue)
      ensures value == if ok then newValue else old(value)
      ensures ok ==> HoldsValidValue()
      ensures old(HoldsValidValue()) ==> HoldsValidValue()
      ensures Apply(old(value), validator, Op.CompareAndSet(oldValue, newValue))
              == Some(Outcome(value, Flag(ok)))
    {
      ok := false;
      if value == oldValue {
        var valid := IsValid(newValue);
        if valid {
          value := newValue;
          ok := true;
        }
      }
    }

    /**
     * Reset(const T&): stores `newValue` iff the validator accepts it and
     * returns the value held afterwards; a rejection shows only as a return
     * value that differs from `newValue`.
     */
    method Reset(newValue: T) returns (r: T)
      modifies this
      ensures value == if validator(newValue) then newValue else old(value)
      ensures r == value
      ensures r == newValue <==> validator(newValue) || old(value) == newValue
      ensures old(HoldsValidValue()) ==> HoldsValidValue()
      ensures Apply(old(value), validator, Op.Reset(newValue)) == Some(Outcome(value, Copy(r)))
    {
      var valid := IsValid(newValue);
      if valid {
        value := newValue;
      }
      r := value;
    }

    /**
     * Reset(UpdateFunc): the pessimistic update.  Applies `func` to the held
     * value, stores the result iff the validator accepts it, and returns the
     * value held afterwards.
     */
    method ResetWith(func: T -> T) returns (r: T)
      modifies this
      ensures value == if validator(func(old(value))) then func(old(value)) else old(value)
      ensures r == value
      ensures old(HoldsValidValue()) ==> HoldsValidValue()
      ensures Apply(old(value), validator, Op.ResetWith(func)) == Some(Outcome(value, Copy(r)))
    {
      var newValue := func(value);
      var valid := IsValid(newValue);
      if valid {
        value := newValue;
      }
      r := value;
    }

    /**
     * Swap: the optimistic update, a retry loop around Value() and
     * CompareAndSet().  `attempts` counts the iterations, each of which calls
     * `func` once.  With no positive bound the loop only stops once a
     * candidate is accepted, so that case requires the first candidate to be
     * valid (nothing else writes while it runs).
     */
    method Swap(func: T -> T, maxAttempts: int32 := 0) returns (r: T, ghost attempts: int32)
      requires maxAttempts > 0 || validator(func(value))
      modifies this
      ensures r == func(old(value))
      ensures value == if validator(r) then r else old(value)
      ensures attempts == if validator(r) then 1 else maxAttempts
      ensures maxAttempts > 0 ==> 1 <= attempts <= maxAttempts
      ensures old(HoldsValidValue()) ==> HoldsValidValue()
      ensures SwapSteps(old(value), validator, func, maxAttempts, 0, SwapBound(maxAttempts))
              == Some(SwapRun(value, r, attempts as nat))
      ensures Apply(old(value), validator, Op.Swap(func, maxAttempts)) == Some(Outcome(value, Copy(r)))
    {
      var oldValue: T, newValue: T;
      var count: int32 := 0;
      while true
        invariant 0 <= count
        invariant if maxAttempts > 0 then count < maxAttempts else count == 0
        invariant value == old(value)
        invariant count > 0 ==> !validator(func(value))
        decreases if maxAttempts > 0 then maxAttempts as int - count as int else 1
      {
        oldValue := Value();
        newValue := func(oldValue);
        count := count + 1;

        var committed := CompareAndSet(oldValue, newValue);
        if committed || (maxAttempts > 0 && count >= maxAttempts) {
          r := newValue;
          break;
        }
      }
      attempts := count;
      SwapStepsOutcome(old(value), validator, func, maxAttempts, 0, SwapBound(maxAttempts));
    }
  }
}
