/** Ruby's `nil`-or-value, as the command sees its optional values
    (an extracted version, a platform, an API key). */
module Wrappers {

  datatype Option<+T> = None | Some(value: T)

}
