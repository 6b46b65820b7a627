/** Prefix tests on strings (Rust's `str::starts_with`). */
module Strings {
  predicate StartsWith<T(==)>(s: seq<T>, p: seq<T>)
  {
    |p| <= |s| && s[..|p|] == p
  }
}
