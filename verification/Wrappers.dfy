/** What the modules share: the optional value for a missing map entry, a failed read or a nil result, and Go's
    integer division. */
module Wrappers {
  datatype Option<+T> = None | Some(value: T)

  function Min(a: int, b: int): int {
    if a < b then a else b
  }

  function Max(a: int, b: int): int {
    if a < b then b else a
  }

  /** Division that drops the fraction, whatever the sign. */
  function Quotient(a: int, b: int): int
    requires b > 0
  {
    if a >= 0 then a / b else -((-a) / b)
  }

  /** For loops over the keys of a map, in any order. */
  lemma SomeMember<T>(s: set<T>)
    requires s != {}
    ensures exists x: T :: x in s
  {
    if forall x: T :: x !in s {
    }
  }

  lemma SomeInt(s: set<int>)
    requires s != {}
    ensures exists x :: x in s
  {
    if forall x: int :: x !in s {
    }
  }
}
