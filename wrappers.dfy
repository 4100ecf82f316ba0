/** Optional values: a TypeScript `T | null` or `T | undefined`, or the outcome
    of an expression that throws (None) instead of producing a value. */
module Wrappers {

  datatype Option<+T> = None | Some(value: T)
}
