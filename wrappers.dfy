/** Optional values, standing for the ledger's nullable columns. */
module Wrappers {

  datatype Option<+T> = None | Some(value: T)
}
