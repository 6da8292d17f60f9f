/** The optional value used for the dashboard's nullable state (`null` in the page's React state). */
module Wrappers {
  datatype Option<+T> = None | Some(value: T)
}
