/** Shared vocabulary of the model: bytes, the dynamic values that flow
    through the pack/unpack pipeline, the exceptions the library raises,
    and a failure-compatible result type. */
module Values {

  /** One element of a Python `bytes` object. */
  type Byte = b: int | 0 <= b < 0x100

  /** The Python objects the engine handles. `Record` stands for both the
      caller's dict (pack) and the generated record object (unpack); a
      missing key is an unset slot. */
  datatype Value =
    | Bytes(bytes: seq<Byte>)
    | Int(i: int)
    | NoneV
    | List(items: seq<Value>)
    | Record(slots: map<string, Value>)

  /** The exception classes that can leave the core. `Diverges` and
      `RecursionError` stand for a call the source never finishes
      (an endless loop, unbounded recursion). */
  datatype Error =
    | ParseError
    | ValueError
    | TypeError
    | KeyError
    | RecursionError
    | Diverges

  datatype Option<+T> = None | Some(value: T)

  datatype Result<+T> = Ok(value: T) | Err(error: Error) {
    predicate IsFailure() { Err? }
    function PropagateFailure<U>(): Result<U>
      requires Err?
    {
      Err(error)
    }
    function Extract(): T
      requires Ok?
    {
      value
    }
  }

  /** A step that either completes or raises. */
  datatype Outcome = Pass | Fail(error: Error) {
    predicate IsFailure() { Fail? }
    function PropagateFailure(): Outcome
      requires Fail?
    {
      this
    }
  }

  /** `n` copies of byte `b` (Python's `b * n`). */
  function Repeat(b: Byte, n: nat): (r: seq<Byte>)
    ensures |r| == n
    ensures forall k :: 0 <= k < n ==> r[k] == b
  {
    if n == 0 then [] else Repeat(b, n - 1) + [b]
  }

  /** `bytearray(n)`: `n` zero bytes. */
  function Zeros(n: nat): (r: seq<Byte>)
    ensures |r| == n
    ensures forall k :: 0 <= k < n ==> r[k] == 0
  {
    Repeat(0, n)
  }
}
