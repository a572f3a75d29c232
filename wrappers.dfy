/** Optional values. In the ROI model `None` stands for JavaScript's NaN. */
module Wrappers {
  datatype Option<+T> = None | Some(value: T)
}
