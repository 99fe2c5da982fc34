/**
 * The second level of GIO interrupt decoding (k5_j721e_gioirq.c): the
 * level-0 handler that turns OFF1 offsets into IRQ numbers, the per-pin
 * interrupt setup, and enabling and disabling one GIO IRQ.
 *
 * The GIO_*_PORT_PIN bit macros, K5_J721E_NIRQPORTS and GIO_OFF_NONE come
 * from a header that is not part of this model; they are parameters.
 */
module K5GioIrq {
  import opened Wrappers
  import opened K5Mmio
  import opened K5Gio

  /** K5_J721E_IRQ_NCHANNELS: real interrupt channels after the phantom vector. */
  const IrqNChannels: int := 95

  /** K5_J721E_IRQ_GIOA0, the first second-level GIO IRQ number. */
  const IrqGioA0: int := IrqNChannels + 1

  /** K5_J721E_NGIO_IRQS */
  const NGioIrqs: int := 32

  type uint32 = x: int | 0 <= x < 0x1_0000_0000

  /** A uint32 value stored into an `int` (two's complement, 32 bits). */
  function Int32Of(u: uint32): (i: int)
    ensures -0x8000_0000 <= i < 0x8000_0000
    ensures i % 0x1_0000_0000 == u
  {
    if u < 0x8000_0000 then u else u - 0x1_0000_0000
  }

  /** `off1 + K5_J721E_IRQ_GIOA0 - 1`, computed in uint32 and stored into an int. */
  function Irq2(off1: uint32): (irq: int)
    ensures 1 <= off1 <= NGioIrqs ==> irq == IrqGioA0 + off1 - 1
  {
    Int32Of((off1 + IrqGioA0 - 1) % 0x1_0000_0000)
  }

  // ---------------------------------------------------------------------
  // tms3570_gio_interrupt

  /**
   * The IRQs dispatched for the successive values `offsets` read from
   * OFF1: one per value read before the first GIO_OFF_NONE. Running out of
   * values stands for reading GIO_OFF_NONE.
   */
  function Dispatches(offsets: seq<uint32>, offNone: uint32): seq<int>
  {
    if offsets == [] || offsets[0] == offNone then []
    else [Irq2(offsets[0])] + Dispatches(offsets[1..], offNone)
  }

  /** The number of OFF1 values read before the first GIO_OFF_NONE. */
  function Pending(offsets: seq<uint32>, offNone: uint32): (n: nat)
    ensures n <= |offsets|
    ensures forall k :: 0 <= k < n ==> offsets[k] != offNone
    ensures n < |offsets| ==> offsets[n] == offNone
  {
    if offsets == [] || offsets[0] == offNone then 0
    else 1 + Pending(offsets[1..], offNone)
  }

  /**
   * The dispatched IRQs are exactly the converted OFF1 values read before
   * GIO_OFF_NONE, in read order.
   */
  lemma {:induction false} DispatchesInOrder(offsets: seq<uint32>, offNone: uint32)
    ensures |Dispatches(offsets, offNone)| == Pending(offsets, offNone)
    ensures forall k :: 0 <= k < Pending(offsets, offNone) ==>
      Dispatches(offsets, offNone)[k] == Irq2(offsets[k])
  {
    if offsets != [] && offsets[0] != offNone {
      DispatchesInOrder(offsets[1..], offNone);
      var d := Dispatches(offsets, offNone);
      forall k | 0 < k < Pending(offsets, offNone)
        ensures d[k] == Irq2(offsets[k])
      {
        assert d[k] == Dispatches(offsets[1..], offNone)[k - 1];
      }
    }
  }

  /**
   * tms3570_gio_interrupt: read OFF1 until GIO_OFF_NONE, dispatching the
   * second-level IRQ for each offset read; returns OK.
   */
  method GioInterrupt(offsets: seq<uint32>, offNone: uint32) returns (ret: int, dispatched: seq<int>)
    ensures dispatched == Dispatches(offsets, offNone)
    ensures ret == 0
  {
    dispatched := [];
    var i := 0;
    while i < |offsets| && offsets[i] != offNone
      invariant 0 <= i <= |offsets|
      invariant dispatched + Dispatches(offsets[i..], offNone) == Dispatches(offsets, offNone)
      decreases |offsets| - i
    {
      var irq2 := Irq2(offsets[i]);
      assert offsets[i..][1..] == offsets[i + 1..];
      dispatched := dispatched + [irq2];
      i := i + 1;
    }
    ret := 0;
  }

  /** An OFF1 offset of a GIO pin dispatches a GIO IRQ, in range. */
  lemma DispatchedIsGioIrq(off1: uint32)
    requires 1 <= off1 <= NGioIrqs
    ensures IrqGioA0 <= Irq2(off1) < IrqGioA0 + NGioIrqs
    ensures Irq2(off1) - IrqGioA0 == off1 - 1
  {
  }

  // ---------------------------------------------------------------------
  // k5_j721e_gioirqenable / k5_j721e_gioirqdisable

  /** `offset >> 3` (an arithmetic shift: the floor of offset / 8). */
  function IrqPort(offset: int): int
  {
    offset / 8
  }

  /** `offset & 7` (two's complement: offset modulo 8). */
  function IrqPin(offset: int): int
  {
    offset % 8
  }

  /** The port and pin decomposition gives the offset back, and the pin is below 8. */
  lemma IrqOffsetRoundTrip(offset: int)
    ensures IrqPort(offset) * 8 + IrqPin(offset) == offset
    ensures 0 <= IrqPin(offset) < 8
    ensures 0 <= offset < NGioIrqs ==> 0 <= IrqPort(offset) < 4
  {
  }

  /** Two different offsets never name the same port and pin. */
  lemma IrqOffsetInjective(a: int, b: int)
    requires IrqPort(a) == IrqPort(b) && IrqPin(a) == IrqPin(b)
    ensures a == b
  {
    IrqOffsetRoundTrip(a);
    IrqOffsetRoundTrip(b);
  }

  /**
   * The store gioirqenable (to ENASET) or gioirqdisable (to ENACLR) makes
   * for `irq`: the pin's GIO_ENACLR_PORT_PIN bit, or nothing when the
   * offset is not below K5_J721E_NGIO_IRQS.
   */
  function PinIrqWrite(irq: int, m: PortPinBits, reg: GioReg): Option<RegWrite<GioReg>>
  {
    var offset := irq - IrqGioA0;
    if offset < NGioIrqs then Some(RegWrite(reg, m.enaClr(IrqPort(offset), IrqPin(offset))))
    else None
  }

  /** Performs the store, if any. */
  function Issue(b: GioBus, w: Option<RegWrite<GioReg>>): GioBus
  {
    match w
    case None => b
    case Some(w) => Put(b, w.reg, w.value)
  }

  /** k5_j721e_gioirqenable */
  method GioIrqEnable(rf: RegisterFile<GioReg>, irq: int, m: PortPinBits)
    modifies rf
    ensures rf.State() == Issue(old(rf.State()), PinIrqWrite(irq, m, EnaSet))
  {
    var offset := irq - IrqGioA0;
    if offset < NGioIrqs {
      var pin := IrqPin(offset);
      var port := IrqPort(offset);
      rf.PutReg(EnaSet, m.enaClr(port, pin));
    }
  }

  /** k5_j721e_gioirqdisable */
  method GioIrqDisable(rf: RegisterFile<GioReg>, irq: int, m: PortPinBits)
    modifies rf
    ensures rf.State() == Issue(old(rf.State()), PinIrqWrite(irq, m, EnaClr))
  {
    var offset := irq - IrqGioA0;
    if offset < NGioIrqs {
      var pin := IrqPin(offset);
      var port := IrqPort(offset);
      rf.PutReg(EnaClr, m.enaClr(port, pin));
    }
  }

  /**
   * The guard: a store happens exactly for IRQ numbers below the end of
   * the GIO range, and it names the pin that IRQ stands for.
   */
  lemma PinIrqGuard(irq: int, m: PortPinBits, reg: GioReg)
    ensures PinIrqWrite(irq, m, reg).Some? <==> irq < IrqGioA0 + NGioIrqs
    ensures PinIrqWrite(irq, m, reg).Some? ==>
      PinIrqWrite(irq, m, reg).value.reg == reg &&
      IrqPort(irq - IrqGioA0) * 8 + IrqPin(irq - IrqGioA0) == irq - IrqGioA0
  {
    IrqOffsetRoundTrip(irq - IrqGioA0);
  }

  /** Enable then disable of the same IRQ store the same pin bit, to ENASET then ENACLR. */
  lemma EnableDisableSameBit(irq: int, m: PortPinBits)
    requires PinIrqWrite(irq, m, EnaSet).Some?
    ensures PinIrqWrite(irq, m, EnaClr).Some?
    ensures PinIrqWrite(irq, m, EnaSet).value.value == PinIrqWrite(irq, m, EnaClr).value.value
  {
  }

  /** The IRQ dispatched for OFF1 offset `off1` is enabled through the pin `off1 - 1` names. */
  lemma DispatchEnableRoundTrip(off1: uint32, m: PortPinBits)
    requires 1 <= off1 <= NGioIrqs
    ensures PinIrqWrite(Irq2(off1), m, EnaSet)
         == Some(RegWrite(EnaSet, m.enaClr((off1 - 1) / 8, (off1 - 1) % 8)))
  {
  }

  /**
   * As written, the guard lets an IRQ number below K5_J721E_IRQ_GIOA0
   * through: the offset is negative and so is the port it names.
   */
  lemma NegativeOffsetPasses(irq: int, m: PortPinBits)
    requires irq < IrqGioA0
    ensures PinIrqWrite(irq, m, EnaSet).Some?
    ensures IrqPort(irq - IrqGioA0) < 0
  {
  }

  /** The guard as intended: only offsets 0 to K5_J721E_NGIO_IRQS - 1 store anything. */
  function CheckedPinIrqWrite(irq: int, m: PortPinBits, reg: GioReg): Option<RegWrite<GioReg>>
  {
    var offset := irq - IrqGioA0;
    if 0 <= offset < NGioIrqs then Some(RegWrite(reg, m.enaClr(IrqPort(offset), IrqPin(offset))))
    else None
  }

  /**
   * With the lower bound checked, a store happens exactly for GIO IRQs,
   * always names a port 0 to 3 and a pin 0 to 7, and agrees with the
   * as-written guard there.
   */
  lemma CheckedGuard(irq: int, m: PortPinBits, reg: GioReg)
    ensures CheckedPinIrqWrite(irq, m, reg).Some? <==> IrqGioA0 <= irq < IrqGioA0 + NGioIrqs
    ensures CheckedPinIrqWrite(irq, m, reg).Some? ==>
      0 <= IrqPort(irq - IrqGioA0) < 4 && 0 <= IrqPin(irq - IrqGioA0) < 8 &&
      CheckedPinIrqWrite(irq, m, reg) == PinIrqWrite(irq, m, reg)
  {
    IrqOffsetRoundTrip(irq - IrqGioA0);
  }

  // ---------------------------------------------------------------------
  // k5_j721e_gioirq

  /** The edge switch: RISING, FALLING and BOTHEDGES update POL and INTDET. */
  function EdgeSetup(b: GioBus, p: Pinset, m: PortPinBits): GioBus
  {
    var pol, det := m.pol(p.port, p.pin), m.intDet(p.port, p.pin);
    match p.edge
    case IntNone => b
    case IntRising => ClearBits(SetBits(b, Pol, pol), IntDet, det)
    case IntFalling => ClearBits(ClearBits(b, Pol, pol), IntDet, det)
    case IntBothEdges => SetBits(b, IntDet, det)
  }

  /** Edge setup is done only for an input pin on a port that can interrupt. */
  predicate EdgeCapable(p: Pinset, m: PortPinBits)
  {
    p.mode == GioInput && p.port < m.nIrqPorts
  }

  function IrqSetup(b: GioBus, p: Pinset, m: PortPinBits): GioBus
  {
    var b1 := Put(b, EnaClr, m.enaClr(p.port, p.pin));
    var b2 := Put(b1, LvlClr, m.lvlClr(p.port, p.pin));
    if EdgeCapable(p, m) then EdgeSetup(b2, p, m) else b2
  }

  /** k5_j721e_gioirq: configure the interrupt of a pin. */
  method GioIrq(rf: RegisterFile<GioReg>, p: Pinset, m: PortPinBits)
    modifies rf
    ensures rf.State() == IrqSetup(old(rf.State()), p, m)
  {
    rf.PutReg(EnaClr, m.enaClr(p.port, p.pin));
    rf.PutReg(LvlClr, m.lvlClr(p.port, p.pin));
    if p.mode == GioInput && p.port < m.nIrqPorts {
      EdgeStep(rf, p, m);
    }
  }

  method EdgeStep(rf: RegisterFile<GioReg>, p: Pinset, m: PortPinBits)
    modifies rf
    ensures rf.State() == EdgeSetup(old(rf.State()), p, m)
  {
    var regval;
    match p.edge {
      case IntNone =>
      case IntRising =>
        regval := rf.GetReg(Pol);
        regval := Set(regval, m.pol(p.port, p.pin));
        rf.PutReg(Pol, regval);
        regval := rf.GetReg(IntDet);
        regval := Clear(regval, m.intDet(p.port, p.pin));
        rf.PutReg(IntDet, regval);
      case IntFalling =>
        regval := rf.GetReg(Pol);
        regval := Clear(regval, m.pol(p.port, p.pin));
        rf.PutReg(Pol, regval);
        regval := rf.GetReg(IntDet);
        regval := Clear(regval, m.intDet(p.port, p.pin));
        rf.PutReg(IntDet, regval);
      case IntBothEdges =>
        regval := rf.GetReg(IntDet);
        regval := Set(regval, m.intDet(p.port, p.pin));
        rf.PutReg(IntDet, regval);
    }
  }

  /** `b'` is `b` with stores appended to POL and INTDET only. */
  ghost predicate EdgeAppends(b: GioBus, b': GioBus)
  {
    |b.log| <= |b'.log| && b'.log[..|b.log|] == b.log &&
    (forall k :: |b.log| <= k < |b'.log| ==> b'.log[k].reg in {Pol, IntDet}) &&
    (forall r :: r != Pol && r != IntDet ==> Get(b'.regs, r) == Get(b.regs, r))
  }

  lemma PutAppends(b: GioBus, r: GioReg, v: bv32)
    requires r == Pol || r == IntDet
    ensures EdgeAppends(b, Put(b, r, v))
  {
    assert Put(b, r, v).log[..|b.log|] == b.log;
  }

  lemma EdgeAppendsTrans(b0: GioBus, b1: GioBus, b2: GioBus)
    requires EdgeAppends(b0, b1) && EdgeAppends(b1, b2)
    ensures EdgeAppends(b0, b2)
  {
    assert b2.log[..|b0.log|] == b2.log[..|b1.log|][..|b0.log|];
  }

  /** The edge switch only appends stores, and only to POL and INTDET. */
  lemma EdgeSetupAppends(b: GioBus, p: Pinset, m: PortPinBits)
    ensures EdgeAppends(b, EdgeSetup(b, p, m))
  {
    var pol, det := m.pol(p.port, p.pin), m.intDet(p.port, p.pin);
    match p.edge
    case IntNone =>
      assert b.log[..|b.log|] == b.log;
    case IntRising =>
      var b1 := SetBits(b, Pol, pol);
      PutAppends(b, Pol, Set(Get(b.regs, Pol), pol));
      PutAppends(b1, IntDet, Clear(Get(b1.regs, IntDet), det));
      EdgeAppendsTrans(b, b1, EdgeSetup(b, p, m));
    case IntFalling =>
      var b1 := ClearBits(b, Pol, pol);
      PutAppends(b, Pol, Clear(Get(b.regs, Pol), pol));
      PutAppends(b1, IntDet, Clear(Get(b1.regs, IntDet), det));
      EdgeAppendsTrans(b, b1, EdgeSetup(b, p, m));
    case IntBothEdges =>
      PutAppends(b, IntDet, Set(Get(b.regs, IntDet), det));
  }

  /** gioirq first stores the pin's bits to ENACLR and LVLCLR, whatever the pin. */
  lemma {:induction false} IrqSetupStartsDisabled(b: GioBus, p: Pinset, m: PortPinBits)
    ensures var f := IrqSetup(b, p, m);
      |f.log| >= |b.log| + 2 &&
      f.log[|b.log|] == RegWrite(EnaClr, m.enaClr(p.port, p.pin)) &&
      f.log[|b.log| + 1] == RegWrite(LvlClr, m.lvlClr(p.port, p.pin))
  {
    var b2 := Put(Put(b, EnaClr, m.enaClr(p.port, p.pin)), LvlClr, m.lvlClr(p.port, p.pin));
    var f := IrqSetup(b, p, m);
    var n := |b.log|;
    assert b2.log == b.log + [RegWrite(EnaClr, m.enaClr(p.port, p.pin)), RegWrite(LvlClr, m.lvlClr(p.port, p.pin))];
    if EdgeCapable(p, m) {
      EdgeSetupAppends(b2, p, m);
      assert f.log[..n + 2] == b2.log;
      assert f.log[n] == b2.log[n];
      assert f.log[n + 1] == b2.log[n + 1];
    }
  }

  /**
   * The edge settings of an interrupt-capable input pin: RISING sets its
   * POL bit and clears its INTDET bit, FALLING clears both, BOTHEDGES sets
   * its INTDET bit.
   */
  lemma EdgeSettings(b: GioBus, p: Pinset, m: PortPinBits)
    requires EdgeCapable(p, m)
    ensures var f := IrqSetup(b, p, m);
      var pol, det := Get(f.regs, Pol), Get(f.regs, IntDet);
      (p.edge == IntRising ==> AllSet(pol, m.pol(p.port, p.pin)) && NoneSet(det, m.intDet(p.port, p.pin))) &&
      (p.edge == IntFalling ==> NoneSet(pol, m.pol(p.port, p.pin)) && NoneSet(det, m.intDet(p.port, p.pin))) &&
      (p.edge == IntBothEdges ==> AllSet(det, m.intDet(p.port, p.pin)))
  {
    var b2 := Put(Put(b, EnaClr, m.enaClr(p.port, p.pin)), LvlClr, m.lvlClr(p.port, p.pin));
    var f := EdgeSetup(b2, p, m);
    assert IrqSetup(b, p, m) == f;
    var polBit, detBit := m.pol(p.port, p.pin), m.intDet(p.port, p.pin);
    match p.edge
    case IntNone =>
    case IntRising =>
      var b3 := SetBits(b2, Pol, polBit);
      SetBitsSets(b2, Pol, polBit);
      ClearBitsClears(b3, IntDet, detBit);
      assert Get(f.regs, Pol) == Get(b3.regs, Pol);
    case IntFalling =>
      var b3 := ClearBits(b2, Pol, polBit);
      ClearBitsClears(b2, Pol, polBit);
      ClearBitsClears(b3, IntDet, detBit);
      assert Get(f.regs, Pol) == Get(b3.regs, Pol);
    case IntBothEdges =>
      SetBitsSets(b2, IntDet, detBit);
  }


  /**
   * POL and INTDET keep their values, and only the two disabling stores
   * are made, for an output pin, a port that cannot interrupt, or no edge.
   */
  lemma NoEdgeNoChange(b: GioBus, p: Pinset, m: PortPinBits)
    requires !EdgeCapable(p, m) || p.edge == IntNone
    ensures var f := IrqSetup(b, p, m);
      |f.log| == |b.log| + 2 &&
      Get(f.regs, Pol) == Get(b.regs, Pol) && Get(f.regs, IntDet) == Get(b.regs, IntDet)
  {
  }

  /** Every bit of POL and INTDET but the pin's own keeps its value. */
  lemma {:induction false} EdgeSetupOnlyPinBits(b: GioBus, p: Pinset, m: PortPinBits)
    ensures var f := EdgeSetup(b, p, m);
      Clear(Get(f.regs, Pol), m.pol(p.port, p.pin)) == Clear(Get(b.regs, Pol), m.pol(p.port, p.pin)) &&
      Clear(Get(f.regs, IntDet), m.intDet(p.port, p.pin)) == Clear(Get(b.regs, IntDet), m.intDet(p.port, p.pin))
  {
    var polBit, detBit := m.pol(p.port, p.pin), m.intDet(p.port, p.pin);
    match p.edge
    case IntNone =>
    case IntRising =>
      SetKeeps(Get(b.regs, Pol), polBit);
      ClearKeeps(Get(b.regs, IntDet), detBit);
    case IntFalling =>
      ClearKeeps(Get(b.regs, Pol), polBit);
      ClearKeeps(Get(b.regs, IntDet), detBit);
    case IntBothEdges =>
      SetKeeps(Get(b.regs, IntDet), detBit);
  }

  // ---------------------------------------------------------------------
  // k5_j721e_gioirq_initialize

  const AllPins: bv32 := 0xffff_ffff

  function IrqInitialize(b: GioBus): GioBus
  {
    Put(Put(b, EnaClr, AllPins), LvlClr, AllPins)
  }

  /** k5_j721e_gioirq_initialize: every pin's interrupt disabled and set to level 0. */
  method GioIrqInitialize(rf: RegisterFile<GioReg>)
    modifies rf
    ensures rf.State() == IrqInitialize(old(rf.State()))
  {
    rf.PutReg(EnaClr, AllPins);
    rf.PutReg(LvlClr, AllPins);
  }

  lemma AllPinsCovers(mask: bv32)
    ensures AllSet(AllPins, mask)
  {
  }

  /** After initialization, ENACLR and LVLCLR hold every pin's bit, whatever the bit macros. */
  lemma InitializeClearsEveryPin(b: GioBus, m: PortPinBits, port: int, pin: int)
    ensures var f := IrqInitialize(b);
      AllSet(Get(f.regs, EnaClr), m.enaClr(port, pin)) &&
      AllSet(Get(f.regs, LvlClr), m.lvlClr(port, pin)) &&
      f.log == b.log + [RegWrite(EnaClr, AllPins), RegWrite(LvlClr, AllPins)]
  {
    AllPinsCovers(m.enaClr(port, pin));
    AllPinsCovers(m.lvlClr(port, pin));
  }
}
