/** An object-or-FALSE result, as the PHP code returns from its collaborators. */
module Wrappers {

  datatype Option<+T> = None | Some(value: T)
}
