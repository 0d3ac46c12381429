/**
  Failure-carrying values shared by every module of the model.

  The modelled program is Python on top of pandas and numpy. Two kinds of
  "something went wrong" appear in it and are kept apart here:
  - a series entry that pandas marks as NaN (a leading entry of `diff()`, a
    rolling window with too few observations, a division by zero inside a
    vectorised expression) is an `Option` that is `None`;
  - a raised exception is a `Result` that is `Raise(fault)`, with the
    exception class recorded as a `Fault`.
 */
module Outcomes {

  /** An optional value. As a series entry, `None` stands for pandas' NaN. */
  datatype Option<+T> = None | Some(value: T)

  /** The Python exception classes the modelled code can raise. */
  datatype Fault =
    | KeyFault           // KeyError: missing dictionary or DataFrame key
    | ValueFault         // ValueError: list.index miss, numpy shape mismatch, min() of []
    | TypeFault          // TypeError: wrong call arity, len(None), list arithmetic
    | IndexFault         // IndexError: subscript past the end
    | AttributeFault     // AttributeError: a dict used as a DataFrame
    | NameFault          // NameError: a module that was never imported
    | RuntimeFault       // RuntimeError raised by the program itself
    | ConnectionFault    // ConnectionError raised by the program itself
    | ZeroDivisionFault  // ZeroDivisionError on plain Python floats

  /** The value a Python call returns, or the exception it raises. */
  datatype Result<+T> = Ok(value: T) | Raise(fault: Fault)

  /** Position of the first occurrence of `x` in `s`, as Python's `list.index`. */
  function IndexOf<T(==)>(s: seq<T>, x: T): (i: nat)
    requires x in s
    ensures i < |s| && s[i] == x
    ensures forall j :: 0 <= j < i ==> s[j] != x
  {
    if s[0] == x then 0 else 1 + IndexOf(s[1..], x)
  }
}
