/** Optional values shared by the capture session and the hotkey store. */
module Wrappers {

  datatype Option<+T> = None | Some(value: T)

}
