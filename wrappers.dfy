/** Optional values: the tracker's zero-or-one level line and the
    possibly-absent prior marker are tagged variants rather than null. */
module Wrappers {

  datatype Option<+T> = None | Some(value: T)

  /** The objects held by an optional reference, for reads and modifies frames. */
  function Elements<T>(o: Option<T>): set<T>
  {
    if o.Some? then {o.value} else {}
  }
}
