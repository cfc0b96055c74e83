/** Shared vocabulary: the exceptions the C# code throws, modelled as values,
    and the 32-bit integer arithmetic of C#. */
module Common {

  /** The exceptions of the source that the model makes explicit. */
  datatype Fault =
    | NullReference             // a member called on a null reference
    | ArgumentNull              // a null dictionary key
    | InvalidOperation(message: string)
    | FormatTypeIncorrect       // FilterBuilder: connected format is not VideoInfo
    | NativeFailure(hr: int)    // DsError.ThrowExceptionForHR on a failing HRESULT

  /** A value that may be missing: a C# null. */
  datatype Option<T> = None | Some(value: T)

  /** Completion of an operation that returns nothing: normal return or a thrown fault. */
  datatype Outcome = Pass | Fail(fault: Fault)

  /** Completion of an operation that returns a value. */
  datatype Result<T> = Ok(value: T) | Err(fault: Fault)

  /** An HRESULT signals failure exactly when it is negative. */
  predicate Failed(hr: int) { hr < 0 }

  const Int32Min: int := -0x8000_0000
  const Int32Max: int := 0x7FFF_FFFF

  predicate IsInt32(x: int) { Int32Min <= x <= Int32Max }

  /** Unchecked C# `int` arithmetic: the mathematical value reduced into 32 bits. */
  function Wrap32(x: int): (r: int)
    ensures IsInt32(r)
    ensures (x - r) % 0x1_0000_0000 == 0
    ensures IsInt32(x) ==> r == x
  {
    (x + 0x8000_0000) % 0x1_0000_0000 - 0x8000_0000
  }

  function Abs(x: int): nat { if x < 0 then -x else x }

  /** C# integer division, which truncates toward zero (Dafny's `/` is Euclidean):
      the quotient of the magnitudes, with the sign of the dividend. */
  function TruncDiv(a: int, b: int): (q: int)
    requires b > 0
    ensures Abs(q) == Abs(a) / b
    ensures a >= 0 ==> q >= 0
    ensures a < 0 ==> q <= 0
  {
    if a >= 0 then a / b else -((-a) / b)
  }
}
