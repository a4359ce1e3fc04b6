/** The checked `Maybe` cell: every operation says what it does to the occupancy, and
    using a cell in the wrong occupancy (where the source panics in debug builds and is
    undefined otherwise) leaves the cell `Broken` for ever. */
module Cells {
  datatype Option<+T> = None | Some(value: T)

  datatype Maybe<+T> = Empty | Full(value: T) | Broken {
    function Store<U>(u: U): Maybe<U> {
      if Empty? then Maybe<U>.Full(u) else Maybe<U>.Broken
    }

    function Take(): Maybe<T> {
      if Full? then Empty else Broken
    }
  }
}
