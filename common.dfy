/** Option, Result and the faults that the modelled code lets escape. */
module Common {

  datatype Option<+T> = None | Some(value: T)

  /** The kinds of exception that leave a modelled operation. */
  datatype Fault =
    | RequestFailed     // requests.get raised, or raise_for_status rejected the reply
    | MalformedPayload  // int(), a key lookup or .json() raised on a reply
    | ClientFailed      // the trends client could not be constructed
    | NotAnInteger      // int() of the `limit` query parameter raised
    | NegativeSlice     // a queryset was sliced with a negative bound
    | StorageFailed     // the database refused a write

  /** A value or the exception that replaced it; usable with `:-`. */
  datatype Result<+T> = Ok(value: T) | Err(fault: Fault) {
    predicate IsFailure() { Err? }

    function PropagateFailure<U>(): Result<U>
      requires Err?
    {
      Err(fault)
    }

    function Extract(): T
      requires Ok?
    {
      value
    }
  }

  /** The outcome of one HTTP call whose reply body is already decoded. */
  datatype Fetch<+T> = Failed | Fetched(body: T)

  function Min(a: int, b: int): (m: int) { if a <= b then a else b }

  function Max(a: int, b: int): (m: int) { if a <= b then b else a }

  /** `acc` followed by the records of `r`, or the fault of `r`. */
  function Chain<T>(acc: seq<T>, r: Result<seq<T>>): (chained: Result<seq<T>>)
  {
    match r
    case Ok(rest) => Ok(acc + rest)
    case Err(f) => Err(f)
  }

  lemma ChainNothing<T>(r: Result<seq<T>>)
    ensures Chain([], r) == r
  {
    if r.Ok? {
      assert [] + r.value == r.value;
    }
  }

  /** Chaining onto `acc + xs` is chaining `xs` first, then `acc`. */
  lemma ChainAssociates<T>(acc: seq<T>, xs: seq<T>, r: Result<seq<T>>)
    ensures Chain(acc + xs, r) == Chain(acc, Chain(xs, r))
  {
    if r.Ok? {
      assert (acc + xs) + r.value == acc + (xs + r.value);
    }
  }
}
