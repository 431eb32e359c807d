/** Wrappers and set counting shared by the components. */
module Basics {
  datatype Option<+T> = None | Some(value: T)

  /** Puts `x` in front of a text, if there is one. */
  function Prepend(x: string, rest: Option<string>): Option<string> {
    if rest.Some? then Some(x + rest.value) else None
  }

  /** Fewer elements in a smaller set. */
  lemma {:induction false} SubsetSize<T>(a: set<T>, b: set<T>)
    requires a <= b
    ensures |a| <= |b|
  {
    assert b == a + (b - a);
    assert a !! b - a;
  }
}
