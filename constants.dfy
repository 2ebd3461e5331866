/** Sizes, addresses and the built-in font of the CHIP-8 machine
    (Chip8.hpp lines 4-10 and Chip8.cpp lines 8-30). */
module Constants {

  /** `uint8_t`, `uint16_t` and `uint32_t` as ranges of integers. */
  type u8 = x: int | 0 <= x < 0x100
  type u16 = x: int | 0 <= x < 0x1_0000
  type u32 = x: int | 0 <= x < 0x1_0000_0000

  const MEM_SIZE: nat := 4096
  const NUM_REGS: nat := 16
  const NUM_KEYS: nat := 16
  const VID_H: nat := 32
  const VID_W: nat := 64
  const FRAME_BUFF: nat := VID_H * VID_W
  const STACK_LEVELS: nat := 16

  const FONTSET_SIZE: nat := 80
  const FONTSET_START_ADDRESS: nat := 0x50
  const START_ADDRESS: nat := 0x200

  /** The sixteen hexadecimal digit sprites, five rows of one byte each. */
  const Fontset: seq<u8> := [
    0xF0, 0x90, 0x90, 0x90, 0xF0, // 0
    0x20, 0x60, 0x20, 0x20, 0x70, // 1
    0xF0, 0x10, 0xF0, 0x80, 0xF0, // 2
    0xF0, 0x10, 0xF0, 0x10, 0xF0, // 3
    0x90, 0x90, 0xF0, 0x10, 0x10, // 4
    0xF0, 0x80, 0xF0, 0x10, 0xF0, // 5
    0xF0, 0x80, 0xF0, 0x90, 0xF0, // 6
    0xF0, 0x10, 0x20, 0x40, 0x40, // 7
    0xF0, 0x90, 0xF0, 0x90, 0xF0, // 8
    0xF0, 0x90, 0xF0, 0x10, 0xF0, // 9
    0xF0, 0x90, 0xF0, 0x90, 0x90, // A
    0xE0, 0x90, 0xE0, 0x90, 0xE0, // B
    0xF0, 0x80, 0x80, 0x80, 0xF0, // C
    0xE0, 0x90, 0x90, 0x90, 0xE0, // D
    0xF0, 0x80, 0xF0, 0x80, 0xF0, // E
    0xF0, 0x80, 0xF0, 0x80, 0x80  // F
  ]

  /** The frame buffer holds one cell per pixel of the 64x32 screen. */
  lemma FrameBufferSize()
    ensures FRAME_BUFF == VID_W * VID_H == 2048
  {
  }

  /** The font table is sixteen glyphs of five bytes; placed at its start
      address it ends at 0xA0, below the program start address, which is
      itself inside memory. */
  lemma FontLayout()
    ensures |Fontset| == FONTSET_SIZE == 16 * 5
    ensures FONTSET_START_ADDRESS + FONTSET_SIZE == 0xA0 < START_ADDRESS < MEM_SIZE
  {
  }
}
