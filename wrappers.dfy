/** The optional value used wherever the component holds "nothing yet" (`null`
    in the component, a missing storage entry, a failed lookup). */
module Wrappers {

  datatype Option<+T> = None | Some(value: T)
}
