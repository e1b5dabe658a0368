/** Missing values. The source's NaN / None cells are modelled as `None`. */
module Wrappers {

  datatype Option<+T> = None | Some(value: T)
}
