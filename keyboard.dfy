/**
 * The keyboard half of the Apple I's Motorola 6821 PIA: a data register (KBD)
 * and a control register (KBDCR) with a one-shot interrupt-mode latch and a
 * "key ready" strobe that a control-register read consumes.
 */
module KeyboardPort {
  import opened Common

  /** The fields of the keyboard: `cr`, `kbd` and `kbd_interrupts`. */
  datatype KbdState = KbdState(cr: Byte, kbd: Byte, interrupts: bool)

  /** What a strobing read of KBDCR returns. */
  const ReadyCode: Byte := 0xA7

  /** The state of a new keyboard: everything zero, interrupt mode off. */
  function Initial(): (s: KbdState)
    ensures s.cr == 0 && s.kbd == 0 && !s.interrupts
  {
    KbdState(0, 0, false)
  }

  /** A key is waiting: interrupt mode is on and the control register's bit 7 is set. */
  predicate Ready(s: KbdState)
  {
    s.interrupts && HighBit(s.cr)
  }

  /** Storing a byte in the data register; nothing else changes. */
  function WriteData(s: KbdState, b: Byte): (t: KbdState)
    ensures t.kbd == b
    ensures t.cr == s.cr && t.interrupts == s.interrupts
  {
    s.(kbd := b)
  }

  /**
   * A control-register write: the enabling write (bit 7 set while interrupt
   * mode is off) only turns interrupt mode on; any other write stores the byte.
   */
  function WriteControl(s: KbdState, v: Byte): (t: KbdState)
    ensures t.kbd == s.kbd
    ensures t.interrupts == (s.interrupts || HighBit(v))
    ensures !s.interrupts && HighBit(v) ==> t.cr == s.cr
    ensures s.interrupts || !HighBit(v) ==> t.cr == v
  {
    var (on, reg) := LatchWrite(s.interrupts, s.cr, v);
    s.(cr := reg, interrupts := on)
  }

  /**
   * A control-register read: the value the CPU sees and the state after it.
   * A waiting key is reported once as ReadyCode and cleared; any other read
   * returns the register and has no side effect.
   */
  function ReadControl(s: KbdState): (r: (Byte, KbdState))
    ensures r.1.kbd == s.kbd && r.1.interrupts == s.interrupts
    ensures r.1 != s <==> Ready(s)
    ensures Ready(s) ==> r.0 == ReadyCode && r.1.cr == 0
    ensures !Ready(s) ==> r.0 == s.cr
  {
    if Ready(s) then (ReadyCode, s.(cr := 0)) else (s.cr, s)
  }

  /** The operations a keyboard offers to the bus and to the key source. */
  datatype KbdOp = DataWrite(b: Byte) | DataRead | ControlWrite(v: Byte) | ControlRead

  function Step(s: KbdState, op: KbdOp): KbdState
  {
    match op
    case DataWrite(b) => WriteData(s, b)
    case DataRead => s
    case ControlWrite(v) => WriteControl(s, v)
    case ControlRead => ReadControl(s).1
  }

  /** The state after running `ops` in order from `s`. */
  function Run(s: KbdState, ops: seq<KbdOp>): KbdState
    decreases |ops|
  {
    if ops == [] then s else Run(Step(s, ops[0]), ops[1..])
  }

  /** How many of the control reads in `ops` find a key waiting and strobe. */
  function Strobes(s: KbdState, ops: seq<KbdOp>): nat
    decreases |ops|
  {
    if ops == [] then 0
    else (if ops[0] == ControlRead && Ready(s) then 1 else 0) + Strobes(Step(s, ops[0]), ops[1..])
  }

  /** A data write followed by a data read returns the byte written. */
  lemma DataRoundTrip(s: KbdState, b: Byte)
    ensures WriteData(s, b).kbd == b
    ensures Step(WriteData(s, b), DataRead) == WriteData(s, b)
  {
  }

  /** The strobe is consumed exactly once: a second read right after a strobing read returns 0. */
  lemma StrobeConsumedOnce(s: KbdState)
    requires Ready(s)
    ensures ReadControl(s).0 == ReadyCode
    ensures ReadControl(ReadControl(s).1) == (0, ReadControl(s).1)
  {
  }

  /** Interrupt mode, once on, stays on whatever the keyboard is asked to do. */
  lemma {:induction false} InterruptsMonotone(s: KbdState, ops: seq<KbdOp>)
    requires s.interrupts
    ensures Run(s, ops).interrupts
    decreases |ops|
  {
    if ops != [] {
      InterruptsMonotone(Step(s, ops[0]), ops[1..]);
    }
  }

  /** Control-register traffic never touches the data register. */
  lemma {:induction false} ControlLeavesData(s: KbdState, ops: seq<KbdOp>)
    requires forall i :: 0 <= i < |ops| ==> !ops[i].DataWrite?
    ensures Run(s, ops).kbd == s.kbd
    decreases |ops|
  {
    if ops != [] {
      ControlLeavesData(Step(s, ops[0]), ops[1..]);
    }
  }

  /** Data-register traffic never touches the control register or the latch. */
  lemma {:induction false} DataLeavesControl(s: KbdState, ops: seq<KbdOp>)
    requires forall i :: 0 <= i < |ops| ==> ops[i].DataWrite? || ops[i].DataRead?
    ensures Run(s, ops).cr == s.cr && Run(s, ops).interrupts == s.interrupts
    decreases |ops|
  {
    if ops != [] {
      DataLeavesControl(Step(s, ops[0]), ops[1..]);
    }
  }

  /** Without a control write in between, reads of KBDCR strobe at most once. */
  lemma {:induction false} StrobeAtMostOnce(s: KbdState, ops: seq<KbdOp>)
    requires forall i :: 0 <= i < |ops| ==> !ops[i].ControlWrite?
    ensures Strobes(s, ops) <= 1
    ensures !Ready(s) ==> Strobes(s, ops) == 0
    decreases |ops|
  {
    if ops != [] {
      StrobeAtMostOnce(Step(s, ops[0]), ops[1..]);
    }
  }

  /** With interrupt mode off the control register never holds bit 7 (from any reachable state onward). */
  lemma {:induction false} LatchOffMeansLowRegister(s: KbdState, ops: seq<KbdOp>)
    requires s.interrupts || !HighBit(s.cr)
    ensures Run(s, ops).interrupts || !HighBit(Run(s, ops).cr)
    decreases |ops|
  {
    if ops != [] {
      LatchOffMeansLowRegister(Step(s, ops[0]), ops[1..]);
    }
  }

  /**
   * In every reachable state a KBDCR read returns ReadyCode exactly when it
   * strobes: a register holding 0xA7 while interrupt mode is off cannot arise.
   */
  lemma ReadyCodeOnlyFromStrobe(ops: seq<KbdOp>)
    ensures ReadControl(Run(Initial(), ops)).0 == ReadyCode <==> Ready(Run(Initial(), ops))
  {
    LatchOffMeansLowRegister(Initial(), ops);
  }

  /**
   * The keyboard object. The key source and the bus both call it; each method
   * is one register operation and is specified by the step function above.
   */
  class Keyboard {
    var cr: Byte
    var kbd: Byte
    var kbdInterrupts: bool

    function State(): KbdState
      reads this
    {
      KbdState(cr, kbd, kbdInterrupts)
    }

    constructor ()
      ensures State() == Initial()
    {
      cr, kbd, kbdInterrupts := 0, 0, false;
    }

    method WriteKbd(b: Byte)
      modifies this
      ensures State() == WriteData(old(State()), b)
    {
      kbd := b;
    }

    /** Reading the data register is not destructive (no `modifies`). */
    method ReadKbd() returns (b: Byte)
      ensures b == State().kbd
    {
      b := kbd;
    }

    method WriteCr(v: Byte)
      modifies this
      ensures State() == WriteControl(old(State()), v)
    {
      if !kbdInterrupts && HighBit(v) {
        kbdInterrupts := true;
      } else {
        cr := v;
      }
    }

    method ReadCr() returns (v: Byte)
      modifies this
      ensures (v, State()) == ReadControl(old(State()))
    {
      if kbdInterrupts && HighBit(cr) {
        cr := 0;
        v := ReadyCode;
      } else {
        v := cr;
      }
    }
  }
}
