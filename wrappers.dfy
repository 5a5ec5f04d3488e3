/**
 * Option and Result, the two sum types the Rust source uses for optional
 * slots and fallible calls, Rust's `u8`, the NUL character and two sequence
 * helpers.
 */
module Wrappers {

  /** Rust's `u8`. */
  type byte = x: int | 0 <= x < 256

  /** The character `'\0'`, which C strings cannot hold. */
  const NUL: char := '\0'

  datatype Option<+T> = None | Some(value: T)

  /** Rust's `Result<T, E>`. */
  datatype Result<+T, +E> = Ok(value: T) | Err(error: E)

  function Min(a: nat, b: nat): nat
  {
    if a <= b then a else b
  }

  /**
   * `trim_end_matches(x)`: drops every trailing `x` and nothing else. The
   * result is the longest prefix of `s` that does not end in `x`.
   */
  function TrimEnd<T(==)>(s: seq<T>, x: T): (r: seq<T>)
    ensures r <= s
    ensures |r| == 0 || r[|r| - 1] != x
    ensures forall i :: |r| <= i < |s| ==> s[i] == x
  {
    if |s| > 0 && s[|s| - 1] == x then TrimEnd(s[..|s| - 1], x) else s
  }
}
