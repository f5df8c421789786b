/**
  The 32-bit integers of the record's `version` and `capacity` fields, and the
  version number the uploader stages a new asset bundle under.
 */
module Versioning {

  /** C#'s `int`. */
  newtype int32 = x: int | -0x8000_0000 <= x < 0x8000_0000

  const MinInt32: int32 := -0x8000_0000
  const MaxInt32: int32 := 0x7FFF_FFFF

  /** `v + 1` in an unchecked C# context: the sum taken modulo 2^32, read back
      as a two's-complement 32-bit value. */
  function Increment(v: int32): (r: int32)
    ensures r as int == (v as int + 1 + 0x8000_0000) % 0x1_0000_0000 - 0x8000_0000
  {
    if v == MaxInt32 then MinInt32 else v + 1
  }

  /** `Mathf.Max(1, version + 1)`: the version the next asset bundle is staged under. */
  function NextVersion(v: int32): (r: int32)
    ensures 1 <= r
    ensures v < MaxInt32 ==> v < r
    ensures 0 <= v < MaxInt32 ==> r as int == v as int + 1
    ensures v <= 0 || v == MaxInt32 ==> r == 1
  {
    var next := Increment(v);
    if next < 1 then 1 else next
  }
}
