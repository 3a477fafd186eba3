/** Optional values, calls that may throw, and the size of a subset. */
module Prelude {
  datatype Option<+T> = None | Some(value: T) {
    function Or(default: T): T {
      if Some? then value else default
    }

    predicate IsFailure() {
      None?
    }

    function PropagateFailure<U>(): Option<U>
      requires None?
    {
      None
    }

    function Extract(): T
      requires Some?
    {
      value
    }
  }

  /** What an awaited call gives back: a value, or an exception that ends the caller unless caught. */
  datatype Awaited<+T> = Threw | Got(value: T) {
    predicate IsFailure() {
      Threw?
    }

    function PropagateFailure<U>(): Awaited<U>
      requires Threw?
    {
      Threw
    }

    function Extract(): T
      requires Got?
    {
      value
    }
  }

  lemma {:induction false} SubsetIsSmaller(a: set<string>, b: set<string>)
    requires a <= b
    ensures |a| <= |b|
  {
    if a != {} {
      var x :| x in a;
      SubsetIsSmaller(a - {x}, b - {x});
    }
  }
}
