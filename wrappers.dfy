/** Optional values: `None` stands for the plugin's `null` / `undefined`. */
module Wrappers {

  datatype Option<+T> = None | Some(value: T)
}
