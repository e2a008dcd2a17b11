/** `TestVariable`: a mutable holder of one byte array. */
module Variables {

  /** Java's signed `byte`. */
  newtype int8 = x: int | -128 <= x < 128

  class TestVariable {
    var bytes: array<int8>

    /** A fresh variable holds an empty array. */
    constructor ()
      ensures fresh(bytes) && bytes.Length == 0
    {
      bytes := new int8[0];
    }

    /** `value()`: the array currently held (the same array, not a copy). */
    method Value() returns (r: array<int8>)
      ensures r == bytes
    {
      r := bytes;
    }

    /** `mutate(value)`: hold `value` from now on, and return this same variable. */
    method Mutate(value: array<int8>) returns (v: TestVariable)
      modifies this
      ensures v == this && bytes == value
    {
      bytes := value;
      v := this;
    }
  }

  /** A fresh variable reads back as an empty array. */
  method FreshValueIsEmpty() returns (r: array<int8>)
    ensures r.Length == 0
  {
    var variable := new TestVariable();
    r := variable.Value();
  }

  /** After `mutate(b)`, which returns the variable itself, `value()` gives back `b`. */
  method MutateThenValue(b: array<int8>) returns (same: bool, r: array<int8>)
    ensures same && r == b
  {
    var variable := new TestVariable();
    var returned := variable.Mutate(b);
    same := returned == variable;
    r := variable.Value();
  }
}
