# Atom: a Clojure-style atom, modelled in Dafny

`Atom<T>` (include/Atom.h) holds one value of type `T` and a validator
`T -> bool` fixed at construction (by default it accepts every value). It
offers:

- unvalidated writes: the constructor and `operator=`;
- read-only queries: `Value`, `==`, `!=` and `Compare(pred)`;
- validated writes: `CompareAndSet(old, new)`, `Reset(newValue)`, the
  pessimistic update `Reset(func)` and the optimistic retry loop
  `Swap(func, maxAttempts)`.

Every public operation except `Swap` takes the atom's lock for its whole
run. (`isValid` and the constructor take none; `isValid` runs only inside
locked callers.) The model drops the locks and treats each of these calls as
one atomic step. `Swap` takes no lock of its own. It is a loop of locked calls:
`Value()`, then `func` outside any lock, then `CompareAndSet()`. The model
runs that loop with no other writer acting between those calls.

The project has three modules:

- `AtomSpec` (atom_spec.dfy) gives the sequential semantics as values.
  - `Op` lists the operations.
  - `Apply` says what one call does to the held value and what it returns.
    `None` means the call never returns.
  - `Run` chains calls.
  - `SwapSteps` follows Swap's `for(;;)` loop one iteration at a time, for at
    most a given number of iterations (its fuel). It needs no termination
    precondition, so the unbounded loop whose candidate is always rejected is
    modelled too: it never breaks out, whatever the fuel.
  - The lemmas prove the validity invariant, the closed form of Swap, and how
    Swap relates to `Reset(func)`.
- `Atoms` (atom.dfy) is the class `Atom<T(==)>`.
  - It has a mutable field `value` and a constant `validator`.
  - Every method states its exact effect and its return value.
  - Every public operation also ties its effect to `Apply`. `IsValid` is the
    protected helper `isValid` and has no `Op`. So what is proved about
    `Apply` and `Run` also holds for the public methods.
  - `Swap` is a `while` loop with invariants that calls `Value()` and
    `CompareAndSet()` just as the source does.
- `AtomTests` (atom_tests.dfy) restates the scenarios of tests/AtomTest.cpp
  as client code. Its assertions follow from the contracts alone.

Names: `operator=` is `Assign`, `operator==` is `Equals`, `operator!=` is
`NotEquals`, `isValid` is `IsValid`. Dafny has no overloading, so the
`Reset(UpdateFunc)` overload is `ResetWith`. `maxAttempts` and the attempt
counter are C++ `int`, modelled by the newtype `int32`. The tests' `uint64_t`
values stay small, so `int` stands in for them.

Where the documentation and the code disagree, the model follows the code.
The doc comment of `Swap` (include/Atom.h:293-294) says it returns "the
current value after the update has occurred (or been rejected)". The code
(include/Atom.h:314) returns the last candidate `func(oldValue)` even when
that candidate was never stored. `Atoms.Atom.Swap` returns the candidate.

## Model

| member | source | states |
|---|---|---|
| Atoms.Atom.constructor | include/Atom.h:71-75 | stores the initial value without consulting the validator; the validator defaults to accept-all |
| Atoms.Atom.Assign | include/Atom.h:86-96 | operator= overwrites the value unconditionally, with no validation |
| Atoms.Atom.Equals | include/Atom.h:104-113 | returns true iff the held value equals the argument; state unchanged |
| Atoms.Atom.NotEquals | include/Atom.h:121-130 | returns true iff the held value differs from the argument; state unchanged |
| Atoms.Atom.Value | include/Atom.h:137-146 | returns a copy of the held value; state unchanged |
| Atoms.Atom.Compare | include/Atom.h:158-167 | returns the caller's predicate applied to the held value; state unchanged |
| Atoms.Atom.IsValid | include/Atom.h:325-328 | answers the construction-time validator's verdict on a proposed value |
| Atoms.Atom.CompareAndSet | include/Atom.h:180-198 | true iff the old value equals the expected one and the new value validates; on true the new value is stored, on false nothing changes; validity is preserved |
| Atoms.Atom.Reset | include/Atom.h:210-225 | stores the new value iff it validates; returns the post-state value, which equals the argument iff it was accepted or already held; validity is preserved |
| Atoms.Atom.ResetWith | include/Atom.h:246-263 | stores func(old value) iff it validates, else keeps the old value; returns the post-state value; validity is preserved |
| Atoms.Atom.Swap | include/Atom.h:284-315 | returns func(old value) even if it was not committed; commits it iff it validates; takes 1 attempt on success, else exactly maxAttempts; validity is preserved |
| AtomSpec.SwapStepsOutcome | include/Atom.h:296-315 | closed form of the uncontended retry loop, given at least as many iterations as it can run: the candidate is computed from the unchanged value, committed iff valid after one attempt, and otherwise every remaining attempt is used up |
| AtomSpec.SwapStepsDiverge | include/Atom.h:284-288 | with no positive bound and a rejected candidate, the loop never breaks out, however many iterations it is given |
| AtomSpec.ApplyDivergesIff | include/Atom.h:284-315 | a call fails to return exactly when it is a Swap whose loop breaks out for no number of iterations, and that is exactly an unbounded Swap (maxAttempts <= 0) whose candidate the validator rejects |
| AtomSpec.QueryLeavesValue | include/Atom.h:104-167 | Value, ==, != and Compare always return and never change the held value, whatever predicate is supplied |
| AtomSpec.ApplyValueOrigin | include/Atom.h:22-26 | after any call the value is the previous one, a value the validator accepts, or the operand of operator= |
| AtomSpec.SwapMatchesResetWith | include/Atom.h:233-282 | sequentially, Swap and Reset(func) leave the same value behind; their results agree iff the candidate validates or equals the held value |
| AtomSpec.RunValueOrigin | include/Atom.h:22-26 | over any sequence of calls, the final value is the initial one, a valid one, or one stored by some operator= in the sequence |
| AtomSpec.RunPreservesValidity | include/Atom.h:22-26 | starting from a valid value, any sequence of calls without operator= ends on a valid value |
| AtomSpec.RunOfQueries | include/Atom.h:98-167 | any sequence of queries returns and leaves the value as it was |

## Left out

- Locking: the `shared_mutex` and two-mutex schemes and the `CPP17` switch (include/Atom.h:3-12, 88-93, 336-341). Each locked call is one atomic step.
- Multi-threaded guarantees: ordering between threads, visibility, and "no lost update" among concurrent Swaps. These cannot be stated in a sequential model.
- Swap under contention: `SwapSteps` and `Atoms.Atom.Swap` cover only the case where no other writer acts between `Value()` and `CompareAndSet()`. So a failed attempt always means a rejected candidate.
- Atoms.Atom.Swap: requires a positive `maxAttempts` or a first candidate that validates. In the remaining case the source loops forever. Dafny methods must terminate, so this case is modelled only by `AtomSpec.SwapSteps`, which never breaks out there (`AtomSpec.SwapStepsDiverge`), and by `AtomSpec.Apply`, which answers `None`.
- Atoms.Atom.ResetWith: does not state that `func` runs exactly once. Dafny function values are pure, so the number of calls cannot be observed. For Swap, the ghost result `attempts` counts the calls of `func`.
- Overflow of Swap's signed `int` attempt counter (undefined behaviour in C++): it can happen only in the case that never returns. `SwapSteps` counts with an unbounded `nat`.
- Equality of `T` is Dafny's built-in equality. A user-defined C++ `operator==` that is coarser than structural equality is not modelled.
- `std::function` type erasure, the default-argument lambda and the virtual destructor: function values are plain Dafny arrows, and destruction holds no resources.
- `With` and `Modify`: no shown source file defines them.
