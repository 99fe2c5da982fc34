/**
 * GIO pin configuration, output and input (k5_j721e_configgio,
 * k5_j721e_giowrite and k5_j721e_gioread in
 * arch/arm/src/k5-j721e/k5_j721e_gio.c).
 *
 * The register offsets and the pinset decoders live in headers that are
 * not part of this model: registers are named rather than numbered (two
 * different names are two different registers), and a pin arrives already
 * decoded as a `Pinset`.
 */
module K5Gio {
  import opened K5Mmio

  /** The per-port registers, each at the port's base address plus an offset. */
  datatype PortReg = Dir | Din | Dout | Dset | Dclr | Pdr | Puldis | Psl

  datatype GioReg =
    | At(base: nat, reg: PortReg)
    | EnaSet | EnaClr | LvlSet | LvlClr | Pol | IntDet | Off1

  /** `cfgset & GIO_MODE_MASK` */
  datatype Mode = GioInput | GioOutput

  /** `cfgset & GIO_CFG_MASK`; any value but PULLUP and PULLDOWN takes the default branch. */
  datatype Pull = PullDefault | PullUp | PullDown

  /** `pinset & GIO_INT_MASK`; any value but the three edges takes the NONE branch. */
  datatype Edge = IntNone | IntRising | IntFalling | IntBothEdges

  /** One gio_pinset_t as the k5_j721e_gio_* decoders and the mask tests read it. */
  datatype Pinset = Pinset(
    port: nat, base: nat, pin: nat, pinmask: bv32,
    mode: Mode, pull: Pull, openDrain: bool, outputSet: bool, edge: Edge)

  /** The GIO_*_PORT_PIN(port, pin) bit macros and K5_J721E_NIRQPORTS. */
  datatype PortPinBits = PortPinBits(
    enaClr: (int, int) -> bv32, lvlClr: (int, int) -> bv32,
    pol: (int, int) -> bv32, intDet: (int, int) -> bv32, nIrqPorts: int)

  type GioBus = Bus<GioReg>

  // ---------------------------------------------------------------------
  // k5_j721e_configgio, phase by phase

  /** Force the pin to be an input, disable its interrupt, select level 0. */
  function ForceInput(b: GioBus, p: Pinset, m: PortPinBits): GioBus
  {
    var b1 := ClearBits(b, At(p.base, Dir), p.pinmask);
    var b2 := Put(b1, EnaClr, m.enaClr(p.port, p.pin));
    Put(b2, LvlClr, m.lvlClr(p.port, p.pin))
  }

  /**
   * The pull switch. `pullDownEnable` is the register the PULLDOWN case's
   * second update targets: DIR as the source is written.
   */
  function PullSetup(b: GioBus, p: Pinset, pullDownEnable: PortReg): GioBus
  {
    match p.pull
    case PullDefault => ClearBits(b, At(p.base, Puldis), p.pinmask)
    case PullUp => SetBits(SetBits(b, At(p.base, Psl), p.pinmask), At(p.base, Puldis), p.pinmask)
    case PullDown => SetBits(SetBits(b, At(p.base, Psl), p.pinmask), At(p.base, pullDownEnable), p.pinmask)
  }

  /** Open drain, initial level, then direction: the output-only steps. */
  function OutputSetup(b: GioBus, p: Pinset): GioBus
  {
    var b1 :=
      if p.openDrain then SetBits(b, At(p.base, Pdr), p.pinmask)
      else ClearBits(b, At(p.base, Pdr), p.pinmask);
    var b2 := Put(b1, At(p.base, if p.outputSet then Dset else Dclr), p.pinmask);
    SetBits(b2, At(p.base, Dir), p.pinmask)
  }

  function Configure(b: GioBus, p: Pinset, m: PortPinBits, pullDownEnable: PortReg): GioBus
  {
    var b2 := PullSetup(ForceInput(b, p, m), p, pullDownEnable);
    if p.mode == GioOutput then OutputSetup(b2, p) else b2
  }

  /** k5_j721e_configgio: configure a pin; always returns OK. */
  method ConfigGio(rf: RegisterFile<GioReg>, p: Pinset, m: PortPinBits) returns (ret: int)
    modifies rf
    ensures rf.State() == Configure(old(rf.State()), p, m, Dir)
    ensures ret == 0
  {
    ForceInputStep(rf, p, m);
    PullStep(rf, p);
    if p.mode == GioOutput {
      OutputStep(rf, p);
    }
    ret := 0;
  }

  /** Force the pin to be an input; disable its interrupt; level 0. */
  method ForceInputStep(rf: RegisterFile<GioReg>, p: Pinset, m: PortPinBits)
    modifies rf
    ensures rf.State() == ForceInput(old(rf.State()), p, m)
  {
    var regval := rf.GetReg(At(p.base, Dir));
    regval := Clear(regval, p.pinmask);
    rf.PutReg(At(p.base, Dir), regval);
    rf.PutReg(EnaClr, m.enaClr(p.port, p.pin));
    rf.PutReg(LvlClr, m.lvlClr(p.port, p.pin));
  }

  /** The pull switch as written: PULLDOWN's second update goes to DIR. */
  method PullStep(rf: RegisterFile<GioReg>, p: Pinset)
    modifies rf
    ensures rf.State() == PullSetup(old(rf.State()), p, Dir)
  {
    var base, pinmask := p.base, p.pinmask;
    var regval;
    match p.pull {
      case PullDefault =>
        regval := rf.GetReg(At(base, Puldis));
        regval := Clear(regval, pinmask);
        rf.PutReg(At(base, Puldis), regval);
      case PullUp =>
        regval := rf.GetReg(At(base, Psl));
        regval := Set(regval, pinmask);
        rf.PutReg(At(base, Psl), regval);
        regval := rf.GetReg(At(base, Puldis));
        regval := Set(regval, pinmask);
        rf.PutReg(At(base, Puldis), regval);
      case PullDown =>
        regval := rf.GetReg(At(base, Psl));
        regval := Set(regval, pinmask);
        rf.PutReg(At(base, Psl), regval);
        regval := rf.GetReg(At(base, Dir));
        regval := Set(regval, pinmask);
        rf.PutReg(At(base, Dir), regval);
    }
  }

  /** Open drain, initial level and direction of an output pin. */
  method OutputStep(rf: RegisterFile<GioReg>, p: Pinset)
    modifies rf
    ensures rf.State() == OutputSetup(old(rf.State()), p)
  {
    var base, pinmask := p.base, p.pinmask;
    var regval := rf.GetReg(At(base, Pdr));
    if p.openDrain {
      regval := Set(regval, pinmask);
    } else {
      regval := Clear(regval, pinmask);
    }
    rf.PutReg(At(base, Pdr), regval);
    if p.outputSet {
      rf.PutReg(At(base, Dset), pinmask);
    } else {
      rf.PutReg(At(base, Dclr), pinmask);
    }
    regval := rf.GetReg(At(base, Dir));
    regval := Set(regval, pinmask);
    rf.PutReg(At(base, Dir), regval);
  }

  /** k5_j721e_giowrite: the pin's mask to DSET for a one, to DCLR for a zero. */
  method GioWrite(rf: RegisterFile<GioReg>, p: Pinset, value: bool)
    modifies rf
    ensures rf.State() == Put(old(rf.State()), At(p.base, if value then Dset else Dclr), p.pinmask)
  {
    if value {
      rf.PutReg(At(p.base, Dset), p.pinmask);
    } else {
      rf.PutReg(At(p.base, Dclr), p.pinmask);
    }
  }

  /** `(regval & pinmask) != 0` */
  predicate Has(regval: bv32, pinmask: bv32)
  {
    regval & pinmask != 0
  }

  /** k5_j721e_gioread: the pin's bit of DOUT for an output pin, of DIN otherwise. */
  method GioRead(rf: RegisterFile<GioReg>, p: Pinset) returns (level: bool)
    ensures level == Has(Get(rf.regs, At(p.base, if p.mode == GioOutput then Dout else Din)), p.pinmask)
  {
    var regval;
    if p.mode == GioOutput {
      regval := rf.GetReg(At(p.base, Dout));
    } else {
      regval := rf.GetReg(At(p.base, Din));
    }
    level := Has(regval, p.pinmask);
  }
}
