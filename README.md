# Apple I memory-mapped I/O, modelled in Dafny

This project models the part of an Apple I emulator that sits between the 6502
CPU and everything it can address. It covers three pieces:

- **The keyboard port** (`keyboard.dfy`, module `KeyboardPort`). This is the
  keyboard half of the Motorola 6821 PIA. It has a data register KBD and a
  control register KBDCR. A one-shot latch turns interrupt mode on. A "key
  ready" strobe is consumed by the first KBDCR read that sees it.
- **The display port** (`screen.dfy`, module `ScreenPort`). It is a 40 x 24
  character grid with a cursor. Its data register erases one cell to the left
  on 0x5F and ignores 0x7F. Its control register has the same one-shot latch as
  the keyboard's.
- **The address map** (`memory.dfy`, module `AddressMap`). It has five fixed
  address windows:
  - low RAM, 0x0000-0x0FFF;
  - high RAM, 0xE000-0xEFFF;
  - ROM, 0xFF00-0xFFFF;
  - keyboard, 0xD010-0xD011;
  - display, 0xD012-0xD013.

  The two RAM windows share one 8192-byte bank. The high window starts at bank
  index 0x1000. The ROM bank holds 256 bytes. The module also has the read and
  write handlers of every window, and the loaders that copy the monitor image
  into ROM and the BASIC image into the bank.

`common.dfy` (module `Common`) holds what the three share:
- the byte and address types;
- the `Result`/`Outcome` wrappers;
- the faults that stand for the emulator's `panic!` and `todo!` arms;
- the one-shot latch, `LatchWrite`, which both control registers use.

Each stateful Rust struct is a Dafny class:
- `KeyboardPort.Keyboard`, with the fields `cr`, `kbd` and `kbdInterrupts`;
- `ScreenPort.Screen`, with a 960-byte `chars` array updated in place, plus
  `x`, `y`, `cr` and `output`;
- `AddressMap.Bus`, which owns the `ram` and `rom` arrays and refers to the
  keyboard and the screen.

Every method is specified by a pure step function on a state value
(`KbdState`, `ScreenState`, `BusState`). Its `ensures` ties the new state to
that function applied to the old state. The properties are proved about these
functions: single-step contracts, and lemmas over arbitrary sequences of
operations.

Two facts about the banks:

- The RAM is a single 8192-byte bank that both RAM windows share.
- The BASIC image is copied to bank indices 0x1000 and up (memory.rs:155),
  behind the high window at 0xE000.

## Model

| member | source | states |
|---|---|---|
| Common.LatchWrite | src/keyboard.rs:30-36 | The latch ends on exactly when it was on or the byte has bit 7. The register keeps its value only on the enabling write, and otherwise holds the byte verbatim. |
| KeyboardPort.Initial | src/keyboard.rs:14-20 | A new keyboard has cr = 0, kbd = 0 and interrupt mode off. |
| KeyboardPort.WriteData | src/keyboard.rs:22-24 | A data write sets kbd to the byte and leaves cr and interrupt mode alone. |
| KeyboardPort.WriteControl | src/keyboard.rs:30-36 | Interrupt mode afterwards is old mode OR bit 7. The first bit-7 write while the mode is off stores nothing. Every other write stores the byte. kbd never changes. |
| KeyboardPort.ReadControl | src/keyboard.rs:38-46 | The state changes iff a key is ready (mode on and cr bit 7). Then the read returns 0xA7 and clears cr. Otherwise it returns cr. kbd and the mode never change. |
| KeyboardPort.DataRoundTrip | src/keyboard.rs:22-28 | A data write followed by a data read gives back the byte, and the read changes nothing. |
| KeyboardPort.StrobeConsumedOnce | src/keyboard.rs:38-42 | After a strobing read, an immediate second KBDCR read returns 0 and changes nothing. |
| KeyboardPort.InterruptsMonotone | src/keyboard.rs:30-46 | Once interrupt mode is on, it stays on through any sequence of keyboard operations. |
| KeyboardPort.ControlLeavesData | src/keyboard.rs:30-46 | Any sequence of operations without a data write leaves kbd unchanged. |
| KeyboardPort.DataLeavesControl | src/keyboard.rs:22-28 | Any sequence of data reads and writes leaves cr and interrupt mode unchanged. |
| KeyboardPort.StrobeAtMostOnce | src/keyboard.rs:38-46 | With no control write in between, at most one KBDCR read strobes, and none strobes if no key is ready at the start. |
| KeyboardPort.LatchOffMeansLowRegister | src/keyboard.rs:30-46 | "Mode off implies cr bit 7 clear" holds after any sequence of operations if it held before. |
| KeyboardPort.ReadyCodeOnlyFromStrobe | src/keyboard.rs:30-46 | In every state reachable from a new keyboard, a KBDCR read returns 0xA7 iff it strobes. |
| KeyboardPort.Keyboard.constructor | src/keyboard.rs:14-20 | The object starts in the initial state. |
| KeyboardPort.Keyboard.WriteKbd | src/keyboard.rs:22-24 | The new state is WriteData of the old state. |
| KeyboardPort.Keyboard.ReadKbd | src/keyboard.rs:26-28 | Returns kbd and modifies nothing. |
| KeyboardPort.Keyboard.WriteCr | src/keyboard.rs:30-36 | The new state is WriteControl of the old state. |
| KeyboardPort.Keyboard.ReadCr | src/keyboard.rs:38-46 | The value returned and the new state are ReadControl of the old state. |
| ScreenPort.CellIndex | src/screen.rs:42 | Every on-grid cursor maps to a cell index y*40+x below 960, and distinct cursors map to distinct cells. |
| ScreenPort.Initial | src/screen.rs:13-21 | A new screen has a blank grid, the cursor at (0,0), cr = 0 and output off. |
| ScreenPort.Put | src/screen.rs:32-59 | A data write succeeds iff the byte is 0x7F, or it is 0x5F and the cursor is not at (0,0). 0x7F changes nothing. 0x5F moves the cursor one cell back in reading order and zeroes that cell and no other. cr and output are kept. The cursor stays on the grid. Failures are CursorUnderflow or UnsupportedCharacter, so the wrap checks never reach new_line. |
| ScreenPort.WriteControl | src/screen.rs:61-67 | Output afterwards is old output OR bit 7. The first bit-7 write while output is off stores nothing, and every other write stores the byte. The grid and cursor are kept. |
| ScreenPort.Cleared | src/screen.rs:69-73 | All 960 cells are 0 and the cursor is (0,0). cr and output are kept. |
| ScreenPort.RunKeepsInvariant | src/screen.rs:32-73 | Through any sequence of data writes, control writes and clears, the cursor stays on the grid and output never reverts to off. |
| ScreenPort.Screen.constructor | src/screen.rs:13-21 | The object starts in the initial state with a fresh 960-cell array. |
| ScreenPort.Screen.Write | src/screen.rs:32-59 | On success the new state is Put of the old state. On failure the same fault is returned and the state is unchanged. The cursor stays on the grid. |
| ScreenPort.Screen.WriteCr | src/screen.rs:61-67 | The new state is WriteControl of the old state. |
| ScreenPort.Screen.Clear | src/screen.rs:69-73 | The grid is zeroed in place, and the new state is Cleared of the old state. |
| AddressMap.RegistrationDisjoint | src/memory.rs:36-51 | The five windows, in registration order, are pairwise disjoint. |
| AddressMap.WindowsDisjoint | src/memory.rs:36-51 | No address lies in two windows. |
| AddressMap.Lookup | src/memory.rs:59-127 | First-match search over the registered windows. It finds a window that holds the address, or proves that none does. |
| AddressMap.Decode | src/memory.rs:36-51 | Returns the window holding the address and offset = address - start, below the window size. It returns none iff no window holds the address. |
| AddressMap.DecodeExact | src/memory.rs:36-51 | Decode picks window w iff w holds the address, so the first match is the only match. |
| AddressMap.DecodeStartPlusOffset | src/memory.rs:36-51 | Decoding start(w) + offset gives back (w, offset) for every in-range offset. |
| AddressMap.BankIndex | src/memory.rs:62-75 | A RAM offset lands inside the 8192-byte bank: below 0x1000 exactly for the low window, with the offset preserved modulo 0x1000. |
| AddressMap.RamIndex | src/memory.rs:62-75 | Every RAM address has a bank index below 8192. |
| AddressMap.RamNoAlias | src/memory.rs:62-75 | Distinct RAM addresses, in either window, use distinct bank bytes. |
| AddressMap.ReadAt | src/memory.rs:59-125 | A read fails, with UnmappedAddress, iff no window holds the address. A read never changes RAM, ROM or the screen. Only a KBDCR read changes any state. |
| AddressMap.WriteAt | src/memory.rs:59-125 | A failed write changes nothing, and an unmapped write fails. ROM never changes. RAM changes only through a RAM address, the keyboard only through KBDCR, and the screen only through DSP/DSPCR. |
| AddressMap.RamWriteThenRead | src/memory.rs:62-75 | A RAM write succeeds and changes exactly its own bank byte. A read of the same address then returns the value. |
| AddressMap.RamWriteIsolated | src/memory.rs:62-75 | After a RAM write, a read of any other address returns what it returned before. |
| AddressMap.RomIsReadOnly | src/memory.rs:81-88 | A ROM write fails with ReadOnlyViolation and changes nothing. A ROM read returns the stored byte at offset address - 0xFF00. |
| AddressMap.KeyboardDispatch | src/memory.rs:92-111 | A KBD read returns kbd without side effect. A KBDCR read is the strobing control read. A KBDCR write is the latch write. A KBD write fails as unimplemented. |
| AddressMap.DisplayDispatch | src/memory.rs:115-125 | Display reads return 0 and change nothing. A DSP write is the screen's data write, including its faults. A DSPCR write is the screen's latch write. |
| AddressMap.Run | src/memory.rs:59-125 | Any sequence of bus cycles keeps both banks at full size and the cursor on the grid. |
| AddressMap.RomNeverChanges | src/memory.rs:81-88 | No sequence of bus cycles changes the ROM. |
| AddressMap.LatchesNeverRevert | src/memory.rs:92-125 | Through any sequence of bus cycles, keyboard interrupt mode and display output, once on, stay on. |
| AddressMap.Loaded | src/memory.rs:144 | The copy has the bank's length. Image byte i is at at+i, and every byte outside the copied range is unchanged. |
| AddressMap.MonitorVisible | src/memory.rs:141-144 | After the monitor image is loaded, the CPU reads image byte i at 0xFF00 + i. |
| AddressMap.BasicVisible | src/memory.rs:152-156 | After the BASIC image is loaded, the CPU reads image byte i at 0xE000 + i, and the low RAM window reads as before. |
| AddressMap.CopyInto | src/memory.rs:144 | The in-place copy leaves the array equal to Loaded of its old contents. |
| AddressMap.Bus.constructor | src/memory.rs:53-57 | Both banks are fresh and zeroed, and the bus refers to the given keyboard and screen. |
| AddressMap.Bus.Read | src/memory.rs:59-125 | The result and the new state are ReadAt of the old state. Only the keyboard object may change. |
| AddressMap.Bus.Write | src/memory.rs:59-125 | The outcome and the new state are WriteAt of the old state. |
| AddressMap.Bus.LoadWozmon | src/memory.rs:141-144 | The ROM becomes Loaded(old ROM, 0, image), and nothing else changes. |
| AddressMap.Bus.LoadBasic | src/memory.rs:152-156 | The RAM becomes Loaded(old RAM, 0x1000, image), and nothing else changes. |
| AddressMap.InitMem | src/memory.rs:56-135 | A fresh bus over the given peripherals, with the monitor in ROM from offset 0 and BASIC in RAM from index 0x1000. |

## Left out

- The CPU and the process wiring in src/main.rs are not modelled: there is no
  logic in them to verify.
- The `mos_6502` crate's `MemoryBus` is not part of this model. Its region
  registry, `add_region` and its lookup are modelled by a first-match `Lookup`
  over the five windows in the order `init_mem` registers them. The model also
  proves that the windows are pairwise disjoint. An address outside all windows
  yields `UnmappedAddress`; the crate's own behaviour there is not modelled.
- The `Arc<Mutex<…>>` sharing and locking of the keyboard and screen are left
  out: they are about concurrency only. Each peripheral is a plain object that
  the bus refers to.
- Console output is left out: `draw_screen`'s print after every screen write,
  the reset-vector print in `load_wozmon`, and the printing in main.
- File and embedded-binary I/O are left out: `load_file` and the contents of
  the `include_bytes!` images. The loaders take the image as a byte sequence.
- `new_line` is `todo!()`. Its call is modelled as the fault
  `NewLineUnimplemented`, and the model proves that it is never reached.
- The `_ => todo!()` arms for offsets 2 and above in the keyboard and display
  handlers are not modelled: both windows are two bytes wide, so the offset is
  always 0 or 1.
- The unused constants in src/memory.rs:13-34 are left out. These are the zero
  page, the stack, the RAM/IO/ROM span and the vector addresses.
- ScreenPort.Put: a backspace at (0,0) is modelled as a `CursorUnderflow` fault
  with no state change, as in a debug build. A release build would wrap `y` and
  then panic on the out-of-range index.
- AddressMap.Bus.LoadWozmon: an image longer than 256 bytes would make the
  source's slice panic. The model requires the bound instead, because the image
  is built in at compile time.
- AddressMap.Bus.LoadBasic: an image longer than 4096 bytes would make the
  source's slice panic. The model requires the bound instead, for the same
  reason.
- Panics become faults. A ROM write (memory.rs:86), a write to the keyboard
  data register (memory.rs:107) and a screen byte other than 0x5F/0x7F
  (screen.rs:45) all panic in the source. The model returns a fault for each,
  and the state is left unchanged. The bus-level and screen-level `Run`
  functions (memory.dfy and screen.dfy) carry on after a failed operation.
  The Rust process would stop there instead.
- AddressMap.Bus.constructor: in the source, `RAM_STORAGE` and `ROM_STORAGE`
  are process-wide `static mut` arrays (memory.rs:53-54). A second `init_mem`
  would reuse them without zeroing them, and two buses would share them. Here
  every `Bus` gets its own fresh zeroed banks. `init_mem` is called once
  (main.rs:14), so this does not matter in practice.
