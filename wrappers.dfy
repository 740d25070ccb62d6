/** Optional values, standing in for the source's nullable pointers. */
module Wrappers {

  datatype Option<+T> = None | Some(value: T)

  /** Shifts an optional table index by `n` positions. */
  function Shift(o: Option<nat>, n: nat): (r: Option<nat>)
    ensures r.None? <==> o.None?
    ensures r.Some? ==> r.value == o.value + n
  {
    match o
    case None => None
    case Some(i) => Some(i + n)
  }

  /** The table entry an optional index designates (a pointer into a table, or NULL). */
  function At<T>(s: seq<T>, o: Option<nat>): (r: Option<T>)
    ensures r.Some? <==> o.Some? && o.value < |s|
    ensures r.Some? ==> r.value == s[o.value]
  {
    if o.Some? && o.value < |s| then Some(s[o.value]) else None
  }
}
