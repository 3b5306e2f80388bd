/** The optional value the registry returns where the dashboard script
    yields `None`. */
module Wrappers {

  datatype Option<+T> = None | Some(value: T)
}
