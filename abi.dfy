/**
 * The pieces of the VST3 C ABI that the plugin factory exchanges with a host:
 * 32-bit integers, result codes, 16-byte identifiers and caller-owned memory
 * reached through an out pointer.
 */
module Abi {
  /** A signed 32-bit integer (`int32`). */
  newtype int32 = x: int | -0x8000_0000 <= x < 0x8000_0000

  const MaxInt32: int := 0x7fff_ffff

  /**
   * The result code of a factory call (`tresult`). The two codes the factory
   * itself returns take the values of the SDK's non-COM build; the model only
   * relies on their being distinct.
   */
  type TResult = int32

  const kResultOk: TResult := 0
  const kInvalidArgument: TResult := 2

  /** A 16-byte class or interface identifier (`TUID`). */
  type Tuid = s: seq<bv8> | |s| == 16
    witness [0, 0, 0, 0, 0, 0, 0, 0, 0, 0, 0, 0, 0, 0, 0, 0]

  /**
   * Rust's `n as i32` on a `usize`: the low 32 bits of `n`, read as a two's
   * complement number.
   */
  function AsInt32(n: nat): (r: int32)
    ensures (n - r as int) % 0x1_0000_0000 == 0
    ensures r as int <= n
    ensures n <= MaxInt32 ==> r as int == n
  {
    var low := n % 0x1_0000_0000;
    if low < 0x8000_0000 then low as int32 else (low - 0x1_0000_0000) as int32
  }

  /**
   * Memory owned by the caller and written through an out pointer. A null
   * pointer is a null `Cell?`.
   */
  class Cell<T> {
    var value: T

    constructor (v: T)
      ensures value == v
    {
      value := v;
    }
  }
}
