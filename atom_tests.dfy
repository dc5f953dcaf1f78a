/**
 * The scenarios of the atom's unit tests (tests/AtomTest.cpp), restated as
 * client code whose assertions follow from the methods' contracts alone.
 * The tests use `uint64_t`; the constants stay far below 2^64, so `int`
 * stands in for it here.
 */
module AtomTests {
  import opened AtomSpec
  import opened Atoms

  method Initialization() {
    var subject := new Atom<int>(0);
    var actual := subject.Value();
    assert actual == 0;
  }

  method Assignment() {
    var subject := new Atom<int>(0);
    subject.Assign(100);
    var actual := subject.Value();
    assert actual == 100;
  }

  method EqualsAndNotEquals() {
    var subject := new Atom<int>(0);
    var expected := subject.Value();
    var eq := subject.Equals(expected);
    assert eq;
    expected := subject.Value();
    var ne := subject.NotEquals(expected + 100);
    assert ne;
  }

  method CompareWithPredicate() {
    var subject := new Atom<int>(0);
    var expected := subject.Value();
    var actual := subject.Compare(x => x == expected);
    assert actual;
    var other := subject.Value();
    other := other + 100;
    actual := subject.Compare(x => x == other);
    assert !actual;
  }

  method CompareAndSetWithoutValidation() {
    var subject := new Atom<int>(0);
    var ok := subject.CompareAndSet(0, 100);
    assert ok;
    var actual := subject.Value();
    assert actual == 100;
    var expected := subject.Value();
    ok := subject.CompareAndSet(expected + 1, expected);
    assert !ok;
    actual := subject.Value();
    assert actual == expected;
  }

  method ResetWithValueWithoutValidation() {
    var subject := new Atom<int>(0);
    var actual := subject.Reset(100);
    assert actual == 100;
    actual := subject.Value();
    assert actual == 100;
  }

  method ResetWithLambdaWithoutValidation() {
    var subject := new Atom<int>(0);
    var incrementer := 200;
    var actual := subject.ResetWith(x => x + incrementer);
    assert actual == 200;
    actual := subject.Value();
    assert actual == 200;
  }

  method SwapWithoutValidation() {
    var subject := new Atom<int>(0);
    var incrementer := 200;
    var actual, _ := subject.Swap(x => x + incrementer);
    assert actual == 200;
    actual := subject.Value();
    assert actual == 200;
  }

  /** A validator only ever rejects: the value stays put and Swap gives up after its bound. */
  method RejectedUpdates() {
    var subject := new Atom<int>(10, x => x >= 10);
    var ok := subject.CompareAndSet(10, 5);
    assert !ok;
    var actual := subject.Reset(3);
    assert actual == 10;
    actual := subject.ResetWith(x => x - 1);
    assert actual == 10;
    var candidate, attempts := subject.Swap(x => x - 1, 3);
    assert candidate == 9 && attempts == 3;
    actual := subject.Value();
    assert actual == 10;
  }
}
