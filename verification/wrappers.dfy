/** Optional values: the model's stand-in for the dashboards' `np.nan` sentinel. */
module Wrappers {

  /** `None` plays the role of an undefined ratio; `Some(v)` a defined one. */
  datatype Option<+T> = None | Some(value: T)
}
