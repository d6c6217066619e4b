/** Constants of the kernel build: FreeRTOSConfig.h and portmacro.h. */
module Config {
  const MAX_PRIORITIES: nat := 5
  const MAX_DELAY: nat := 0xFFFF_FFFF   // portMAX_DELAY
  const TWO_32: nat := 0x1_0000_0000
  const TWO_64: nat := 0x1_0000_0000_0000_0000

  // TickType_t arithmetic is unsigned 32-bit and wraps.
  function Add32(a: nat, b: nat): nat { (a + b) % TWO_32 }
  function Sub32(a: nat, b: nat): nat { (a - b) % TWO_32 }
}
