/** Small generic pieces shared by the modules. */
module Basics {

  /** The conventional Some/None datatype, used for "at most one log line". */
  datatype Option<+T> = None | Some(value: T)

  /** `t` is a suffix of `s`. */
  predicate IsSuffix<T(==)>(t: seq<T>, s: seq<T>) {
    |t| <= |s| && s[|s| - |t|..] == t
  }
}
