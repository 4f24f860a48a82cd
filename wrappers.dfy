/** Small result types, and a helper on pairs, shared by every module of the model. */
module Wrappers {

  /** Python's `None` or a value. */
  datatype Option<+T> = None | Some(value: T)

  /** The Python exception kinds the modelled code raises or lets escape. */
  datatype PyError =
    | ValueError
    | KeyError
    | IndexError
    | TypeError
    | ZeroDivisionError
    | NameError
    | AttributeError
    | Exception   // a bare `raise Exception(...)`

  /** A value or the exception that replaced it. */
  datatype Result<+T> = Ok(value: T) | Err(error: PyError)

  /** The first components of a list of pairs: the keys of a dict's items, the names of a list of (name, values). */
  function Firsts<K, V>(s: seq<(K, V)>): (r: seq<K>)
    ensures |r| == |s| && forall i :: 0 <= i < |s| ==> r[i] == s[i].0
  {
    seq(|s|, i requires 0 <= i < |s| => s[i].0)
  }
}
