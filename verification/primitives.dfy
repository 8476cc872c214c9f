/**
 The primitive payload types a storable value can carry, and the optional
 type used both for "no value this call" and for "accessor found nothing".
 */
module Primitives {

  /** Rust's `u64`: no arithmetic happens on it, so only its range matters. */
  type uint64 = x: int | 0 <= x < 0x1_0000_0000_0000_0000

  /** Rust's `i64`. */
  type int64 = x: int | -0x8000_0000_0000_0000 <= x < 0x8000_0000_0000_0000

  /** An `f64`, carried as its IEEE 754 bit pattern. Values are only moved
      from one place to another, never computed with, so the bit pattern is
      all the model needs and bit-identity is what "no precision loss" means. */
  type float64 = bv64

  /** An `f32`, carried as its IEEE 754 bit pattern. */
  type float32 = bv32

  /** Rust's `Option<T>`. */
  datatype Option<+T> = None | Some(value: T)
}
