/** SQL's three truth values. A CHECK constraint accepts a row unless it is False;
    a WHERE clause selects a row only when it is True. */
module Kleene {

  datatype Truth = False | Unknown | True {
    function And(that: Truth): Truth {
      if False? || that.False? then False else if Unknown? || that.Unknown? then Unknown else True
    }

    function Or(that: Truth): Truth {
      if True? || that.True? then True else if Unknown? || that.Unknown? then Unknown else False
    }

    /** A CHECK constraint is violated only by False. */
    predicate Accepts() {
      !False?
    }

    /** A WHERE clause matches only on True. */
    predicate Matches() {
      True?
    }
  }

  datatype Column<T> = Null | Of(value: T)

  function Is(b: bool): Truth {
    if b then True else False
  }

  function IsNull<T>(c: Column<T>): Truth {
    Is(c.Null?)
  }

  function NotNull<T>(c: Column<T>): Truth {
    Is(c.Of?)
  }

  /** Comparison with a NULL is Unknown. */
  function Equal<T(==)>(a: Column<T>, b: Column<T>): Truth {
    if a.Null? || b.Null? then Unknown else Is(a.value == b.value)
  }

  function AtLeast(a: Column<int>, b: Column<int>): Truth {
    if a.Null? || b.Null? then Unknown else Is(a.value >= b.value)
  }
}
