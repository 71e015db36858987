/** Python run-time notions the modelled code depends on: None, the
    exceptions it can raise, and Python's list indexing. */
module Py {

  /** `None` or a value. */
  datatype Option<+T> = None | Some(value: T)

  /** The exceptions the modelled code raises. None of the modelled code
      catches them, so each one aborts the call that raised it and every
      caller above it; the model returns it as a value instead. */
  datatype Exc =
    | KeyError           // a dictionary lookup of an absent key
    | IndexError         // a list index out of range, or a pop from an empty list
    | ValueError         // int() of text that is not an integer literal
    | TypeError          // an operator applied to None or to mismatched types
    | AttributeError     // a reference to an attribute the object does not have
    | UnboundLocalError  // a local variable read before it was assigned
    | Raised(message: string)  // `raise Exception(message)`
    | TclError           // the Tk console refusing an `insert` that carries no text

  /** How an f-string or `str()` shows an optional string. */
  function PyStr(o: Option<string>): string { if o.None? then "None" else o.value }

  /** Python's `xs[k]`: a negative `k` counts from the end; anything else
      out of range is an IndexError (None here). */
  function At<T>(xs: seq<T>, k: int): (r: Option<T>)
    ensures r.Some? <==> -|xs| <= k < |xs|
    ensures r.Some? ==> r.value in xs
    ensures 0 <= k < |xs| ==> r == Some(xs[k])
    ensures -|xs| <= k < 0 ==> r == Some(xs[|xs| + k])
  {
    if 0 <= k < |xs| then Some(xs[k])
    else if -|xs| <= k < 0 then Some(xs[|xs| + k])
    else None
  }
}
