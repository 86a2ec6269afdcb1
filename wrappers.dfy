/** Failure-carrying wrappers shared by every module of the gateway model. */
module Wrappers {

  datatype Option<+T> = None | Some(value: T)

  datatype Result<+T, +E> = Success(value: T) | Failure(error: E)

  /** A raised Python exception: the name of its class and its `str()` text. */
  datatype Fault = Fault(kind: string, message: string)

  /** The text `f"{type(e).__name__}: {str(e)}"` that the gateway builds from a caught exception. */
  function Describe(f: Fault): (s: string)
    ensures |s| == |f.kind| + 2 + |f.message|
    ensures s[..|f.kind|] == f.kind && s[|f.kind|..|f.kind| + 2] == ": "
    ensures s[|f.kind| + 2..] == f.message
  {
    f.kind + ": " + f.message
  }
}
