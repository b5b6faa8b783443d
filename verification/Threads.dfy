/** What the models of several threads share. */
module Threads {

  type Thread = nat

  datatype Option<+T> = None | Some(value: T)
}
