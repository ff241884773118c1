/** A Go pointer receiver, and the record of what an `UnmarshalJSON`
    did through it. */
module Pointers {
  import opened Wrappers

  /** The variable a `*T` receiver points at. */
  class Ref<T> {
    var value: T

    constructor (v: T)
      ensures value == v
    {
      value := v;
    }
  }

  /** What an `UnmarshalJSON` does: return an error or nil without writing
      the receiver (Keep), or write a value and return nil (Assign). */
  datatype Effect<T> = Keep(err: Option<string>) | Assign(value: T) {

    function Error(): (e: Option<string>)
      ensures Assign? ==> e.None?
    {
      if Keep? then err else None
    }

    /** The receiver after the call, given its value before. */
    function Apply(current: T): (v: T)
      ensures Keep? ==> v == current
    {
      if Assign? then value else current
    }
  }

  /** Carry out an effect on the receiver and return its error. */
  method Perform<T>(target: Ref<T>, e: Effect<T>) returns (err: Option<string>)
    modifies target
    ensures err == e.Error()
    ensures target.value == e.Apply(old(target.value))
  {
    match e
    case Keep(x) =>
      err := x;
    case Assign(v) =>
      target.value := v;
      err := None;
  }
}
