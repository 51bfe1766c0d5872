/** Machine arithmetic shared by the components. */
module Numbers {
  const U64_MAX: nat := 0xFFFF_FFFF_FFFF_FFFF

  function Min(a: nat, b: nat): nat { if a <= b then a else b }

  function Max(a: nat, b: nat): nat { if a <= b then b else a }

  /** 64-bit addition that stays at the maximum instead of wrapping around. */
  function SaturatingAdd(a: nat, b: nat): nat { Min(a + b, U64_MAX) }
}
