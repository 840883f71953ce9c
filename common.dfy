/**
 * Shared vocabulary of the Apple I memory-mapped I/O model: byte and address
 * types, result wrappers, the faults that replace the emulator's panics, and
 * the one-shot "enable" latch that both PIA control registers implement.
 */
module Common {

  /** An unsigned 8-bit value (Rust `u8`). */
  type Byte = b: int | 0 <= b < 0x100

  /** A 16-bit CPU address. */
  type Addr = a: int | 0 <= a < 0x1_0000

  datatype Option<T> = None | Some(value: T)

  /** Every way a bus access can fail; each one stands for a `panic!` or `todo!` of the emulator. */
  datatype Fault =
    | UnmappedAddress(addr: Addr)    // no address window holds the address
    | ReadOnlyViolation(addr: Addr)  // a store into the ROM window
    | Unimplemented(addr: Addr)      // a handler arm that is `todo!()` (the keyboard data register)
    | CursorUnderflow                // screen backspace at column 0 of row 0: `y -= 1` underflows
    | UnsupportedCharacter(c: Byte)  // a screen byte other than 0x5F and 0x7F
    | NewLineUnimplemented           // the screen's `new_line` is `todo!()`

  datatype Result<T> = Ok(value: T) | Err(fault: Fault)

  datatype Outcome = Pass | Fail(fault: Fault)

  /** The control bit that both control registers test: `v >= 0x80`. */
  predicate HighBit(v: Byte)
  {
    v >= 0x80
  }

  /**
   * One write to a PIA control register guarded by a one-shot enable latch:
   * the first byte with bit 7 set that arrives while the latch is off only
   * switches the latch on and is not stored; every other byte is stored
   * verbatim. Result: (latch after, register after).
   */
  function LatchWrite(enabled: bool, reg: Byte, v: Byte): (r: (bool, Byte))
    ensures r.0 == (enabled || HighBit(v))
    ensures r.1 == v || (r.1 == reg && !enabled && r.0)
    ensures !enabled && HighBit(v) ==> r.1 == reg
    ensures enabled || !HighBit(v) ==> r.1 == v
  {
    if !enabled && HighBit(v) then (true, reg) else (enabled, v)
  }
}
