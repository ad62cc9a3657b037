/** Small shared vocabulary: optional values, results, and Go's fixed-width unsigned integers. */
module Prelude {

  datatype Option<+T> = None | Some(value: T)

  datatype Result<+T, +E> = Success(value: T) | Failure(error: E)

  /** The value stored under `key`, if any. */
  function Get<K, V>(m: map<K, V>, key: K): (r: Option<V>)
    ensures r.Some? <==> key in m
    ensures r.Some? ==> r.value == m[key]
  {
    if key in m then Some(m[key]) else None
  }

  const TWO_32: nat := 0x1_0000_0000
  const TWO_64: nat := 0x1_0000_0000_0000_0000

  /** Go's `uint32`. */
  type u32 = x: nat | x < TWO_32

  /** Go's `uint64`. */
  type u64 = x: nat | x < TWO_64

  /** Go's `uint32` increment: wraps to 0 after 2^32 - 1, with no overflow check. */
  function Inc32(x: u32): (r: u32)
    ensures x < TWO_32 - 1 ==> r == x + 1
    ensures x == TWO_32 - 1 ==> r == 0
  {
    if x == TWO_32 - 1 then 0 else x + 1
  }

  /** Go's `uint64` multiplication: the product is reduced modulo 2^64. */
  function Mul64(x: u64, y: nat): (r: u64)
    ensures x * y < TWO_64 ==> r == x * y
  {
    (x * y) % TWO_64
  }
}
