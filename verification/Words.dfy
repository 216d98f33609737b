/** Fixed-width integer conversions used at the C and Go boundary. */
module Words {
  const U32 := 0x1_0000_0000
  const U64 := 0x1_0000_0000_0000_0000

  // `x << 9` on a 32-bit unsigned word.
  function Shl9U32(x: nat): nat { (x * 512) % U32 }

  // `x << 9` on a 64-bit unsigned word.
  function Shl9U64(x: nat): nat { (x * 512) % U64 }

  // Conversion of a 32-bit word to a signed 32-bit integer.
  function ToI32(x: nat): int
    requires x < U32
  {
    if x < 0x8000_0000 then x else x - U32
  }

  // Conversion of a 64-bit word to a signed 64-bit integer.
  function ToI64(x: nat): int
    requires x < U64
  {
    if x < 0x8000_0000_0000_0000 then x else x - U64
  }

  // A signed integer converted to a 64-bit unsigned word.
  function AsU64(x: int): nat { x % U64 }
}
