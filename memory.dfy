/**
 * The Apple I address map as the CPU sees it: five fixed, disjoint address
 * windows (low RAM, high RAM, ROM, the keyboard registers and the display
 * registers), the 8 KiB RAM bank and 256-byte ROM bank behind them, the
 * per-window read and write handlers, and the loaders that copy the monitor
 * and BASIC images into the banks.
 */
module AddressMap {
  import opened Common
  import K = KeyboardPort
  import S = ScreenPort

  const RamLowStart: Addr := 0x0000
  const RamLowEnd: Addr := 0x0FFF
  /** Size of the low RAM window, and base of the high window inside the RAM bank. */
  const RamLowSize: nat := 0x1000
  const RamHighStart: Addr := 0xE000
  const RamHighEnd: Addr := 0xEFFF
  const RomStart: Addr := 0xFF00
  const RomEnd: Addr := 0xFFFF
  /** Keyboard data register (KBD), keyboard control register (KBDCR). */
  const Kbd: Addr := 0xD010
  const KbdCr: Addr := 0xD011
  /** Display data register (DSP), display control register (DSPCR). */
  const Dsp: Addr := 0xD012
  const DspCr: Addr := 0xD013

  const RamBankSize: nat := 8192
  const RomBankSize: nat := 256

  datatype Window = RamLow | RamHigh | Rom | KbdPort | DspPort

  function Start(w: Window): Addr
  {
    match w
    case RamLow => RamLowStart
    case RamHigh => RamHighStart
    case Rom => RomStart
    case KbdPort => Kbd
    case DspPort => Dsp
  }

  /** Last address of a window (inclusive). */
  function End(w: Window): Addr
  {
    match w
    case RamLow => RamLowEnd
    case RamHigh => RamHighEnd
    case Rom => RomEnd
    case KbdPort => KbdCr
    case DspPort => DspCr
  }

  function Size(w: Window): (n: nat)
    ensures n == End(w) - Start(w) + 1
    ensures n <= RamLowSize
  {
    End(w) - Start(w) + 1
  }

  predicate InWindow(w: Window, a: int)
  {
    Start(w) <= a <= End(w)
  }

  predicate IsRam(w: Window)
  {
    w == RamLow || w == RamHigh
  }

  /** The windows, in the order in which the address space is built. */
  const Registered: seq<Window> := [RamLow, RamHigh, Rom, KbdPort, DspPort]

  /** Two windows share no address. */
  predicate Disjoint(w1: Window, w2: Window)
  {
    End(w1) < Start(w2) || End(w2) < Start(w1)
  }

  /** The position of a window in the registration order. */
  function Position(w: Window): (i: nat)
    ensures i < |Registered| && Registered[i] == w
  {
    match w
    case RamLow => 0
    case RamHigh => 1
    case Rom => 2
    case KbdPort => 3
    case DspPort => 4
  }

  /** No two registered windows overlap, so none of the registrations can fail with an overlapping region. */
  lemma RegistrationDisjoint()
    ensures forall i, j :: 0 <= i < j < |Registered| ==> Disjoint(Registered[i], Registered[j])
  {
  }

  /** At most one window holds any address. */
  lemma WindowsDisjoint(w1: Window, w2: Window, a: int)
    requires InWindow(w1, a) && InWindow(w2, a)
    ensures w1 == w2
  {
  }

  /** The first window of `ws` that holds `a`. */
  function Lookup(ws: seq<Window>, a: int): (r: Option<Window>)
    ensures r.Some? ==> r.value in ws && InWindow(r.value, a)
    ensures r.None? ==> forall w :: w in ws ==> !InWindow(w, a)
    decreases |ws|
  {
    if ws == [] then None
    else if InWindow(ws[0], a) then Some(ws[0])
    else Lookup(ws[1..], a)
  }

  /** A window and the offset within it. */
  datatype Location = Location(window: Window, offset: nat)

  /**
   * Translate an address to the window that holds it and the offset inside
   * that window, or None when no window holds it.
   */
  function Decode(a: Addr): (r: Option<Location>)
    ensures r.Some? ==> InWindow(r.value.window, a) && r.value.offset == a - Start(r.value.window)
    ensures r.Some? ==> r.value.offset < Size(r.value.window)
    ensures r.None? <==> forall w: Window :: !InWindow(w, a)
  {
    var found := Lookup(Registered, a);
    assert found.None? ==> forall w: Window :: !InWindow(w, a) by {
      forall w: Window ensures found.None? ==> !InWindow(w, a) {
        assert Registered[Position(w)] == w;
      }
    }
    match found
    case None => None
    case Some(w) => Some(Location(w, a - Start(w)))
  }

  /** Decoding finds exactly the window that holds the address: the first match is the only match. */
  lemma DecodeExact(a: Addr, w: Window)
    ensures Decode(a).Some? && Decode(a).value.window == w <==> InWindow(w, a)
  {
    if InWindow(w, a) {
      WindowsDisjoint(Decode(a).value.window, w, a);
    }
  }

  /** Decoding inverts the offset arithmetic of every window. */
  lemma DecodeStartPlusOffset(w: Window, offset: nat)
    requires offset < Size(w)
    ensures Decode(Start(w) + offset) == Some(Location(w, offset))
  {
    DecodeExact(Start(w) + offset, w);
  }

  /** Where a RAM window's offset lands in the 8 KiB RAM bank. */
  function BankIndex(loc: Location): (i: nat)
    requires IsRam(loc.window) && loc.offset < Size(loc.window)
    ensures i < RamBankSize
    ensures i < RamLowSize <==> loc.window == RamLow
    ensures i % RamLowSize == loc.offset
  {
    if loc.window == RamLow then loc.offset else RamLowSize + loc.offset
  }

  predicate IsRamAddr(a: Addr)
  {
    InWindow(RamLow, a) || InWindow(RamHigh, a)
  }

  /** The RAM bank index behind a RAM address. */
  function RamIndex(a: Addr): (i: nat)
    requires IsRamAddr(a)
    ensures i < RamBankSize
  {
    DecodeExact(a, if InWindow(RamLow, a) then RamLow else RamHigh);
    BankIndex(Decode(a).value)
  }

  /** Distinct RAM addresses use distinct bank bytes: the two RAM windows never alias. */
  lemma {:induction false} RamNoAlias(a: Addr, b: Addr)
    requires IsRamAddr(a) && IsRamAddr(b) && a != b
    ensures RamIndex(a) != RamIndex(b)
  {
    DecodeExact(a, if InWindow(RamLow, a) then RamLow else RamHigh);
    DecodeExact(b, if InWindow(RamLow, b) then RamLow else RamHigh);
  }

  /** Everything the CPU can observe through the bus. */
  datatype BusState = BusState(ram: seq<Byte>, rom: seq<Byte>, keyboard: K.KbdState, screen: S.ScreenState)

  predicate Consistent(s: BusState)
  {
    |s.ram| == RamBankSize && |s.rom| == RomBankSize && S.Consistent(s.screen)
  }

  /**
   * A CPU read: the byte (or the fault) and the state after it. Only the
   * keyboard control register has a read side effect (its strobe).
   */
  function ReadAt(s: BusState, a: Addr): (r: (Result<Byte>, BusState))
    requires Consistent(s)
    ensures Consistent(r.1)
    ensures r.0.Err? <==> Decode(a).None?
    ensures r.0.Err? ==> r.0.fault == UnmappedAddress(a)
    ensures r.1.ram == s.ram && r.1.rom == s.rom && r.1.screen == s.screen
    ensures r.1 != s ==> a == KbdCr
  {
    match Decode(a)
    case None => (Err(UnmappedAddress(a)), s)
    case Some(loc) =>
      match loc.window
      case RamLow => (Ok(s.ram[BankIndex(loc)]), s)
      case RamHigh => (Ok(s.ram[BankIndex(loc)]), s)
      case Rom => (Ok(s.rom[loc.offset]), s)
      case KbdPort =>
        if loc.offset == 0 then (Ok(s.keyboard.kbd), s)
        else (Ok(K.ReadControl(s.keyboard).0), s.(keyboard := K.ReadControl(s.keyboard).1))
      case DspPort => (Ok(0), s)
  }

  /**
   * A CPU write: the outcome and the state after it. A failed write changes
   * nothing; ROM never changes; each part of the state changes only through
   * its own window.
   */
  function WriteAt(s: BusState, a: Addr, v: Byte): (r: (Outcome, BusState))
    requires Consistent(s)
    ensures Consistent(r.1)
    ensures r.0.Fail? ==> r.1 == s
    ensures Decode(a).None? ==> r.0 == Fail(UnmappedAddress(a))
    ensures r.1.rom == s.rom
    ensures r.1.ram != s.ram ==> IsRamAddr(a)
    ensures r.1.keyboard != s.keyboard ==> a == KbdCr
    ensures r.1.screen != s.screen ==> a == Dsp || a == DspCr
  {
    match Decode(a)
    case None => (Fail(UnmappedAddress(a)), s)
    case Some(loc) =>
      match loc.window
      case RamLow => (Pass, s.(ram := s.ram[BankIndex(loc) := v]))
      case RamHigh => (Pass, s.(ram := s.ram[BankIndex(loc) := v]))
      case Rom => (Fail(ReadOnlyViolation(a)), s)
      case KbdPort =>
        if loc.offset == 0 then (Fail(Unimplemented(a)), s)
        else (Pass, s.(keyboard := K.WriteControl(s.keyboard, v)))
      case DspPort =>
        if loc.offset == 0 then
          match S.Put(s.screen, v)
          case Ok(t) => (Pass, s.(screen := t))
          case Err(f) => (Fail(f), s)
        else (Pass, s.(screen := S.WriteControl(s.screen, v)))
  }

  /** A RAM write succeeds, changes exactly its own bank byte, and a read of the same address returns it. */
  lemma RamWriteThenRead(s: BusState, a: Addr, v: Byte)
    requires Consistent(s) && IsRamAddr(a)
    ensures WriteAt(s, a, v) == (Pass, s.(ram := s.ram[RamIndex(a) := v]))
    ensures ReadAt(WriteAt(s, a, v).1, a) == (Ok(v), WriteAt(s, a, v).1)
  {
    DecodeExact(a, if InWindow(RamLow, a) then RamLow else RamHigh);
  }

  /** A RAM write is invisible at every other address, in either RAM window or elsewhere. */
  lemma RamWriteIsolated(s: BusState, a: Addr, b: Addr, v: Byte)
    requires Consistent(s) && IsRamAddr(a) && b != a
    ensures ReadAt(WriteAt(s, a, v).1, b).0 == ReadAt(s, b).0
  {
    RamWriteThenRead(s, a, v);
    if IsRamAddr(b) {
      RamNoAlias(a, b);
      DecodeExact(b, if InWindow(RamLow, b) then RamLow else RamHigh);
    }
  }

  /** A ROM write is refused and leaves everything unchanged; a ROM read returns the stored byte. */
  lemma RomIsReadOnly(s: BusState, a: Addr, v: Byte)
    requires Consistent(s) && InWindow(Rom, a)
    ensures WriteAt(s, a, v) == (Fail(ReadOnlyViolation(a)), s)
    ensures ReadAt(s, a) == (Ok(s.rom[a - RomStart]), s)
  {
    DecodeExact(a, Rom);
  }

  /** KBD reads the data register without side effect; KBDCR reads strobe and writes go through the latch; a KBD write is unimplemented. */
  lemma KeyboardDispatch(s: BusState, v: Byte)
    requires Consistent(s)
    ensures ReadAt(s, Kbd) == (Ok(s.keyboard.kbd), s)
    ensures ReadAt(s, KbdCr) == (Ok(K.ReadControl(s.keyboard).0), s.(keyboard := K.ReadControl(s.keyboard).1))
    ensures WriteAt(s, KbdCr, v) == (Pass, s.(keyboard := K.WriteControl(s.keyboard, v)))
    ensures WriteAt(s, Kbd, v) == (Fail(Unimplemented(Kbd)), s)
  {
    DecodeExact(Kbd, KbdPort);
    DecodeExact(KbdCr, KbdPort);
  }

  /** Display reads return 0 and change nothing; DSP writes are screen writes, DSPCR writes go through the latch. */
  lemma DisplayDispatch(s: BusState, a: Addr, v: Byte)
    requires Consistent(s) && InWindow(DspPort, a)
    ensures ReadAt(s, a) == (Ok(0), s)
    ensures WriteAt(s, DspCr, v) == (Pass, s.(screen := S.WriteControl(s.screen, v)))
    ensures S.Put(s.screen, v).Ok? ==> WriteAt(s, Dsp, v) == (Pass, s.(screen := S.Put(s.screen, v).value))
    ensures S.Put(s.screen, v).Err? ==> WriteAt(s, Dsp, v) == (Fail(S.Put(s.screen, v).fault), s)
  {
    DecodeExact(a, DspPort);
    DecodeExact(Dsp, DspPort);
    DecodeExact(DspCr, DspPort);
  }

  /** A CPU bus cycle. */
  datatype BusOp = Load(a: Addr) | Store(a: Addr, v: Byte)

  function Step(s: BusState, op: BusOp): BusState
    requires Consistent(s)
  {
    match op
    case Load(a) => ReadAt(s, a).1
    case Store(a, v) => WriteAt(s, a, v).1
  }

  /** The state after the cycles `ops`; a failed cycle is reported to the CPU and changes nothing. */
  function Run(s: BusState, ops: seq<BusOp>): (t: BusState)
    requires Consistent(s)
    ensures Consistent(t)
    decreases |ops|
  {
    if ops == [] then s else Run(Step(s, ops[0]), ops[1..])
  }

  /** No sequence of bus cycles changes the ROM. */
  lemma {:induction false} RomNeverChanges(s: BusState, ops: seq<BusOp>)
    requires Consistent(s)
    ensures Run(s, ops).rom == s.rom
    decreases |ops|
  {
    if ops != [] {
      RomNeverChanges(Step(s, ops[0]), ops[1..]);
    }
  }

  /** Through the bus, neither the keyboard's interrupt mode nor the display's output latch ever reverts. */
  lemma {:induction false} LatchesNeverRevert(s: BusState, ops: seq<BusOp>)
    requires Consistent(s)
    ensures s.keyboard.interrupts ==> Run(s, ops).keyboard.interrupts
    ensures s.screen.output ==> Run(s, ops).screen.output
    decreases |ops|
  {
    if ops != [] {
      LatchesNeverRevert(Step(s, ops[0]), ops[1..]);
    }
  }

  /** `bank` with `image` copied in at index `at`. */
  function Loaded(bank: seq<Byte>, at: nat, image: seq<Byte>): (r: seq<Byte>)
    requires at + |image| <= |bank|
    ensures |r| == |bank|
    ensures forall i :: 0 <= i < |image| ==> r[at + i] == image[i]
    ensures forall i :: 0 <= i < |bank| && !(at <= i < at + |image|) ==> r[i] == bank[i]
  {
    bank[..at] + image + bank[at + |image|..]
  }

  /** After the monitor image is copied into ROM, byte i of it is what the CPU reads at 0xFF00 + i. */
  lemma MonitorVisible(s: BusState, image: seq<Byte>, i: nat)
    requires Consistent(s) && |image| <= RomBankSize && i < |image|
    ensures ReadAt(s.(rom := Loaded(s.rom, 0, image)), RomStart + i).0 == Ok(image[i])
  {
    DecodeStartPlusOffset(Rom, i);
  }

  /**
   * After the BASIC image is copied to bank index 0x1000, byte i of it is what
   * the CPU reads at 0xE000 + i, and the low RAM window reads as before.
   */
  lemma BasicVisible(s: BusState, image: seq<Byte>, i: nat, low: Addr)
    requires Consistent(s) && |image| <= RamLowSize && i < |image|
    requires InWindow(RamLow, low)
    ensures ReadAt(s.(ram := Loaded(s.ram, RamLowSize, image)), RamHighStart + i).0 == Ok(image[i])
    ensures ReadAt(s.(ram := Loaded(s.ram, RamLowSize, image)), low).0 == ReadAt(s, low).0
  {
    DecodeStartPlusOffset(RamHigh, i);
    DecodeExact(low, RamLow);
  }

  /** Copy `image` into `bank` starting at index `at`, in place. */
  method CopyInto(bank: array<Byte>, at: nat, image: seq<Byte>)
    requires at + |image| <= bank.Length
    modifies bank
    ensures bank[..] == Loaded(old(bank[..]), at, image)
  {
    for i := 0 to |image|
      invariant forall j :: 0 <= j < i ==> bank[at + j] == image[j]
      invariant forall j :: 0 <= j < bank.Length && !(at <= j < at + i) ==> bank[j] == old(bank[j])
    {
      bank[at + i] := image[i];
    }
    assert forall j :: 0 <= j < bank.Length ==> bank[..][j] == Loaded(old(bank[..]), at, image)[j];
  }

  /**
   * The bus object: it owns the RAM and ROM banks and refers to the keyboard
   * and screen, which the key source and the display also reach.
   */
  class Bus {
    const ram: array<Byte>
    const rom: array<Byte>
    const keyboard: K.Keyboard
    const screen: S.Screen

    ghost predicate Valid()
      reads this, screen
    {
      ram.Length == RamBankSize && rom.Length == RomBankSize && screen.Valid() &&
      ram != screen.chars && rom != screen.chars
    }

    ghost function State(): BusState
      reads this, ram, rom, keyboard, screen, screen.chars
    {
      BusState(ram[..], rom[..], keyboard.State(), screen.State())
    }

    /** Zeroed banks, as the static storage starts out. */
    constructor (keyboard: K.Keyboard, screen: S.Screen)
      requires screen.Valid()
      ensures Valid() && fresh(ram) && fresh(rom)
      ensures this.keyboard == keyboard && this.screen == screen
      ensures State() == BusState(seq(RamBankSize, _ => 0), seq(RomBankSize, _ => 0), keyboard.State(), screen.State())
    {
      ram := new Byte[RamBankSize](_ => 0);
      rom := new Byte[RomBankSize](_ => 0);
      this.keyboard := keyboard;
      this.screen := screen;
    }

    method Read(a: Addr) returns (r: Result<Byte>)
      requires Valid()
      modifies keyboard
      ensures Valid()
      ensures (r, State()) == ReadAt(old(State()), a)
    {
      match Decode(a) {
        case None =>
          r := Err(UnmappedAddress(a));
        case Some(loc) =>
          match loc.window {
            case RamLow =>
              r := Ok(ram[loc.offset]);
            case RamHigh =>
              r := Ok(ram[RamLowSize + loc.offset]);
            case Rom =>
              r := Ok(rom[loc.offset]);
            case KbdPort =>
              var v: Byte;
              if loc.offset == 0 {
                v := keyboard.ReadKbd();
              } else {
                v := keyboard.ReadCr();
              }
              r := Ok(v);
            case DspPort =>
              r := Ok(0);
          }
      }
    }

    method Write(a: Addr, v: Byte) returns (r: Outcome)
      requires Valid()
      modifies ram, keyboard, screen, screen.chars
      ensures Valid()
      ensures (r, State()) == WriteAt(old(State()), a, v)
    {
      match Decode(a) {
        case None =>
          r := Fail(UnmappedAddress(a));
        case Some(loc) =>
          match loc.window {
            case RamLow =>
              ram[loc.offset] := v;
              r := Pass;
            case RamHigh =>
              ram[RamLowSize + loc.offset] := v;
              r := Pass;
            case Rom =>
              r := Fail(ReadOnlyViolation(a));
            case KbdPort =>
              if loc.offset == 0 {
                r := Fail(Unimplemented(a));
              } else {
                keyboard.WriteCr(v);
                r := Pass;
              }
            case DspPort =>
              if loc.offset == 0 {
                r := screen.Write(v);
              } else {
                screen.WriteCr(v);
                r := Pass;
              }
          }
      }
    }

    /** Copy the monitor image into the ROM bank from its first byte. */
    method LoadWozmon(image: seq<Byte>)
      requires Valid() && |image| <= RomBankSize
      modifies rom
      ensures Valid()
      ensures State() == old(State()).(rom := Loaded(old(State()).rom, 0, image))
    {
      CopyInto(rom, 0, image);
    }

    /** Copy the BASIC image into the RAM bank behind the high window (bank index 0x1000 on). */
    method LoadBasic(image: seq<Byte>)
      requires Valid() && |image| <= RamLowSize
      modifies ram
      ensures Valid()
      ensures State() == old(State()).(ram := Loaded(old(State()).ram, RamLowSize, image))
    {
      CopyInto(ram, RamLowSize, image);
    }
  }

  /** Build the address space over the two peripherals and load both images. */
  method InitMem(screen: S.Screen, keyboard: K.Keyboard, wozmon: seq<Byte>, basic: seq<Byte>) returns (bus: Bus)
    requires screen.Valid() && |wozmon| <= RomBankSize && |basic| <= RamLowSize
    ensures fresh(bus) && fresh(bus.ram) && fresh(bus.rom) && bus.Valid()
    ensures bus.keyboard == keyboard && bus.screen == screen
    ensures bus.State() == BusState(
      Loaded(seq(RamBankSize, _ => 0), RamLowSize, basic),
      Loaded(seq(RomBankSize, _ => 0), 0, wozmon),
      keyboard.State(), screen.State())
  {
    bus := new Bus(keyboard, screen);
    bus.LoadWozmon(wozmon);
    bus.LoadBasic(basic);
  }
}
