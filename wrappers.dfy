/** The conventional optional value, used for JavaScript's `undefined` and for absent inputs. */
module Wrappers {

  datatype Option<+T> = None | Some(value: T)
}
