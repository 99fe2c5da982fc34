/**
 * What k5_j721e_configgio leaves behind: which registers it writes, which
 * bits of them, in what order, and what the pin ends up as.
 */
module K5GioProps {
  import opened K5Mmio
  import opened K5Gio

  /** The registers configgio may store to for pin `p`. */
  predicate Touches(p: Pinset, r: GioReg)
  {
    r == EnaClr || r == LvlClr ||
    (r.At? && r.base == p.base && r.reg in {Dir, Puldis, Psl, Pdr, Dset, Dclr})
  }

  /** The read-modify-write registers: DIR, PULDIS, PSL and PDR. */
  predicate Rmw(reg: PortReg)
  {
    reg in {Dir, Puldis, Psl, Pdr}
  }

  /** Bits outside `pm` of the port's read-modify-write registers are the same in `b` and `b'`. */
  ghost predicate SameOutside(b: GioBus, b': GioBus, base: nat, pm: bv32)
  {
    forall reg :: Rmw(reg) ==>
      Clear(Get(b'.regs, At(base, reg)), pm) == Clear(Get(b.regs, At(base, reg)), pm)
  }

  // ---------------------------------------------------------------------
  // Single stores

  lemma SetBitsOutside(b: GioBus, base: nat, reg: PortReg, pm: bv32)
    ensures SameOutside(b, SetBits(b, At(base, reg), pm), base, pm)
  {
    var r := At(base, reg);
    SetKeeps(Get(b.regs, r), pm);
  }

  lemma ClearBitsOutside(b: GioBus, base: nat, reg: PortReg, pm: bv32)
    ensures SameOutside(b, ClearBits(b, At(base, reg), pm), base, pm)
  {
    var r := At(base, reg);
    ClearKeeps(Get(b.regs, r), pm);
  }

  lemma SameOutsideTrans(b0: GioBus, b1: GioBus, b2: GioBus, base: nat, pm: bv32)
    requires SameOutside(b0, b1, base, pm) && SameOutside(b1, b2, base, pm)
    ensures SameOutside(b0, b2, base, pm)
  {
  }

  // ---------------------------------------------------------------------
  // Phase by phase

  lemma ForceInputOutside(b: GioBus, p: Pinset, m: PortPinBits)
    ensures SameOutside(b, ForceInput(b, p, m), p.base, p.pinmask)
  {
    var b1 := ClearBits(b, At(p.base, Dir), p.pinmask);
    ClearBitsOutside(b, p.base, Dir, p.pinmask);
    var b2 := Put(b1, EnaClr, m.enaClr(p.port, p.pin));
    assert SameOutside(b1, b2, p.base, p.pinmask);
    assert SameOutside(b2, Put(b2, LvlClr, m.lvlClr(p.port, p.pin)), p.base, p.pinmask);
  }

  lemma PullSetupOutside(b: GioBus, p: Pinset, e: PortReg)
    ensures SameOutside(b, PullSetup(b, p, e), p.base, p.pinmask)
  {
    match p.pull
    case PullDefault =>
      ClearBitsOutside(b, p.base, Puldis, p.pinmask);
    case PullUp =>
      var b1 := SetBits(b, At(p.base, Psl), p.pinmask);
      SetBitsOutside(b, p.base, Psl, p.pinmask);
      SetBitsOutside(b1, p.base, Puldis, p.pinmask);
    case PullDown =>
      var b1 := SetBits(b, At(p.base, Psl), p.pinmask);
      SetBitsOutside(b, p.base, Psl, p.pinmask);
      SetBitsOutside(b1, p.base, e, p.pinmask);
  }

  lemma OutputSetupOutside(b: GioBus, p: Pinset)
    ensures SameOutside(b, OutputSetup(b, p), p.base, p.pinmask)
  {
    var b1 :=
      if p.openDrain then SetBits(b, At(p.base, Pdr), p.pinmask)
      else ClearBits(b, At(p.base, Pdr), p.pinmask);
    if p.openDrain {
      SetBitsOutside(b, p.base, Pdr, p.pinmask);
    } else {
      ClearBitsOutside(b, p.base, Pdr, p.pinmask);
    }
    var b2 := Put(b1, At(p.base, if p.outputSet then Dset else Dclr), p.pinmask);
    assert SameOutside(b1, b2, p.base, p.pinmask);
    SetBitsOutside(b2, p.base, Dir, p.pinmask);
  }

  /** configgio changes only the pin's own bits of DIR, PULDIS, PSL and PDR. */
  lemma {:induction false} ConfigOnlyPinBits(b: GioBus, p: Pinset, m: PortPinBits, e: PortReg, reg: PortReg)
    requires Rmw(reg)
    ensures Clear(Get(Configure(b, p, m, e).regs, At(p.base, reg)), p.pinmask)
         == Clear(Get(b.regs, At(p.base, reg)), p.pinmask)
  {
    var b1 := ForceInput(b, p, m);
    var b2 := PullSetup(b1, p, e);
    ForceInputOutside(b, p, m);
    PullSetupOutside(b1, p, e);
    if p.mode == GioOutput {
      OutputSetupOutside(b2, p);
    }
  }

  // ---------------------------------------------------------------------
  // The stores

  /** `b'` is `b` with stores appended, each to a register configgio may touch for `p`. */
  ghost predicate Grows(b: GioBus, b': GioBus, p: Pinset)
  {
    |b.log| <= |b'.log| && b'.log[..|b.log|] == b.log &&
    (forall k :: |b.log| <= k < |b'.log| ==> Touches(p, b'.log[k].reg)) &&
    (forall r :: !Touches(p, r) ==> Get(b'.regs, r) == Get(b.regs, r))
  }

  lemma GrowsTrans(b0: GioBus, b1: GioBus, b2: GioBus, p: Pinset)
    requires Grows(b0, b1, p) && Grows(b1, b2, p)
    ensures Grows(b0, b2, p)
  {
    assert b2.log[..|b0.log|] == b2.log[..|b1.log|][..|b0.log|];
  }

  lemma PutGrows(b: GioBus, p: Pinset, r: GioReg, v: bv32)
    requires Touches(p, r)
    ensures Grows(b, Put(b, r, v), p)
  {
    assert Put(b, r, v).log[..|b.log|] == b.log;
  }

  lemma ForceInputGrows(b: GioBus, p: Pinset, m: PortPinBits)
    ensures Grows(b, ForceInput(b, p, m), p)
  {
    var b1 := ClearBits(b, At(p.base, Dir), p.pinmask);
    var b2 := Put(b1, EnaClr, m.enaClr(p.port, p.pin));
    PutGrows(b, p, At(p.base, Dir), Clear(Get(b.regs, At(p.base, Dir)), p.pinmask));
    PutGrows(b1, p, EnaClr, m.enaClr(p.port, p.pin));
    PutGrows(b2, p, LvlClr, m.lvlClr(p.port, p.pin));
    GrowsTrans(b, b1, b2, p);
    GrowsTrans(b, b2, ForceInput(b, p, m), p);
  }

  lemma PullSetupGrows(b: GioBus, p: Pinset, e: PortReg)
    requires Rmw(e)
    ensures Grows(b, PullSetup(b, p, e), p)
  {
    var base, pm := p.base, p.pinmask;
    match p.pull
    case PullDefault =>
      PutGrows(b, p, At(base, Puldis), Clear(Get(b.regs, At(base, Puldis)), pm));
    case PullUp =>
      var b1 := SetBits(b, At(base, Psl), pm);
      PutGrows(b, p, At(base, Psl), Set(Get(b.regs, At(base, Psl)), pm));
      PutGrows(b1, p, At(base, Puldis), Set(Get(b1.regs, At(base, Puldis)), pm));
      GrowsTrans(b, b1, PullSetup(b, p, e), p);
    case PullDown =>
      var b1 := SetBits(b, At(base, Psl), pm);
      PutGrows(b, p, At(base, Psl), Set(Get(b.regs, At(base, Psl)), pm));
      PutGrows(b1, p, At(base, e), Set(Get(b1.regs, At(base, e)), pm));
      GrowsTrans(b, b1, PullSetup(b, p, e), p);
  }

  lemma OutputSetupGrows(b: GioBus, p: Pinset)
    ensures Grows(b, OutputSetup(b, p), p)
  {
    var base, pm := p.base, p.pinmask;
    var b1 :=
      if p.openDrain then SetBits(b, At(base, Pdr), pm)
      else ClearBits(b, At(base, Pdr), pm);
    PutGrows(b, p, At(base, Pdr), Get(b1.regs, At(base, Pdr)));
    var d := At(base, if p.outputSet then Dset else Dclr);
    var b2 := Put(b1, d, pm);
    PutGrows(b1, p, d, pm);
    PutGrows(b2, p, At(base, Dir), Set(Get(b2.regs, At(base, Dir)), pm));
    GrowsTrans(b, b1, b2, p);
    GrowsTrans(b, b2, OutputSetup(b, p), p);
  }

  /**
   * configgio only appends stores, only to the pin's port registers and to
   * ENACLR/LVLCLR, and every other register keeps its value.
   */
  lemma {:induction false} ConfigFrame(b: GioBus, p: Pinset, m: PortPinBits, e: PortReg)
    requires Rmw(e)
    ensures Grows(b, Configure(b, p, m, e), p)
  {
    var b1 := ForceInput(b, p, m);
    var b2 := PullSetup(b1, p, e);
    ForceInputGrows(b, p, m);
    PullSetupGrows(b1, p, e);
    GrowsTrans(b, b1, b2, p);
    if p.mode == GioOutput {
      OutputSetupGrows(b2, p);
      GrowsTrans(b, b2, OutputSetup(b2, p), p);
    }
  }

  lemma ForceInputLog(b: GioBus, p: Pinset, m: PortPinBits)
    ensures ForceInput(b, p, m).log == b.log + [
      RegWrite(At(p.base, Dir), Clear(Get(b.regs, At(p.base, Dir)), p.pinmask)),
      RegWrite(EnaClr, m.enaClr(p.port, p.pin)),
      RegWrite(LvlClr, m.lvlClr(p.port, p.pin))]
  {
  }

  /** Configuration after forcing the pin to an input only appends stores. */
  lemma AfterForceInputGrows(b1: GioBus, p: Pinset, m: PortPinBits, e: PortReg)
    requires Rmw(e)
    ensures var b2 := PullSetup(b1, p, e);
      Grows(b1, if p.mode == GioOutput then OutputSetup(b2, p) else b2, p)
  {
    var b2 := PullSetup(b1, p, e);
    PullSetupGrows(b1, p, e);
    if p.mode == GioOutput {
      OutputSetupGrows(b2, p);
      GrowsTrans(b1, b2, OutputSetup(b2, p), p);
    }
  }

  /**
   * The first three stores force the pin to an input, disable its
   * interrupt and select level 0, before anything else is configured.
   */
  lemma {:induction false} ConfigStartsByForcingInput(b: GioBus, p: Pinset, m: PortPinBits, e: PortReg)
    requires Rmw(e)
    ensures var f := Configure(b, p, m, e);
      |f.log| >= |b.log| + 3 &&
      f.log[|b.log|] == RegWrite(At(p.base, Dir), Clear(Get(b.regs, At(p.base, Dir)), p.pinmask)) &&
      f.log[|b.log| + 1] == RegWrite(EnaClr, m.enaClr(p.port, p.pin)) &&
      f.log[|b.log| + 2] == RegWrite(LvlClr, m.lvlClr(p.port, p.pin))
  {
    var b1 := ForceInput(b, p, m);
    var f := Configure(b, p, m, e);
    ForceInputLog(b, p, m);
    AfterForceInputGrows(b1, p, m, e);
    var n := |b.log|;
    assert f.log[..n + 3] == b1.log;
    assert f.log[n] == b1.log[n];
    assert f.log[n + 1] == b1.log[n + 1];
    assert f.log[n + 2] == b1.log[n + 2];
  }

  // ---------------------------------------------------------------------
  // What the pin ends up as

  /** The output-only steps leave PSL and PULDIS alone. */
  lemma OutputSetupKeepsPull(b: GioBus, p: Pinset, reg: PortReg)
    requires reg == Psl || reg == Puldis
    ensures Get(OutputSetup(b, p).regs, At(p.base, reg)) == Get(b.regs, At(p.base, reg))
  {
  }

  /** The pull registers after the pull switch. */
  lemma PullSetupBits(b: GioBus, p: Pinset, e: PortReg)
    requires e == Dir || e == Puldis
    ensures var b' := PullSetup(b, p, e);
      (p.pull == PullDefault ==> NoneSet(Get(b'.regs, At(p.base, Puldis)), p.pinmask)) &&
      (p.pull != PullDefault ==> AllSet(Get(b'.regs, At(p.base, Psl)), p.pinmask)) &&
      (p.pull == PullUp ==> AllSet(Get(b'.regs, At(p.base, Puldis)), p.pinmask))
  {
    var base, pm := p.base, p.pinmask;
    match p.pull
    case PullDefault =>
      ClearClears(Get(b.regs, At(base, Puldis)), pm);
    case PullUp =>
      var b1 := SetBits(b, At(base, Psl), pm);
      SetSets(Get(b.regs, At(base, Psl)), pm);
      SetSets(Get(b1.regs, At(base, Puldis)), pm);
    case PullDown =>
      SetSets(Get(b.regs, At(base, Psl)), pm);
  }

  /**
   * The pull selection: no attribute clears the pin's PULDIS bit, pull-up
   * sets its PSL and PULDIS bits, pull-down sets its PSL bit.
   */
  lemma {:induction false} ConfigSelectsPull(b: GioBus, p: Pinset, m: PortPinBits, e: PortReg)
    requires e == Dir || e == Puldis
    ensures var f := Configure(b, p, m, e);
      (p.pull == PullDefault ==> NoneSet(Get(f.regs, At(p.base, Puldis)), p.pinmask)) &&
      (p.pull != PullDefault ==> AllSet(Get(f.regs, At(p.base, Psl)), p.pinmask)) &&
      (p.pull == PullUp ==> AllSet(Get(f.regs, At(p.base, Puldis)), p.pinmask))
  {
    var b2 := PullSetup(ForceInput(b, p, m), p, e);
    PullSetupBits(ForceInput(b, p, m), p, e);
    if p.mode == GioOutput {
      OutputSetupKeepsPull(b2, p, Psl);
      OutputSetupKeepsPull(b2, p, Puldis);
    }
  }

  /** The output-only steps log three stores: PDR, then the level, then DIR. */
  lemma OutputSetupLog(b: GioBus, p: Pinset)
    ensures var f := OutputSetup(b, p);
      |f.log| == |b.log| + 3 &&
      f.log[|b.log| + 1] == RegWrite(At(p.base, if p.outputSet then Dset else Dclr), p.pinmask) &&
      f.log[|b.log| + 2].reg == At(p.base, Dir)
  {
    var base, pm := p.base, p.pinmask;
    var b1 :=
      if p.openDrain then SetBits(b, At(base, Pdr), pm)
      else ClearBits(b, At(base, Pdr), pm);
    var b2 := Put(b1, At(base, if p.outputSet then Dset else Dclr), pm);
    var f := SetBits(b2, At(base, Dir), pm);
    assert f == OutputSetup(b, p);
    assert |b1.log| == |b.log| + 1;
    assert b2.log[|b.log| + 1] == RegWrite(At(base, if p.outputSet then Dset else Dclr), pm);
  }

  /** The output-only steps end with DIR set for the pins. */
  lemma OutputSetupDir(b: GioBus, p: Pinset)
    ensures AllSet(Get(OutputSetup(b, p).regs, At(p.base, Dir)), p.pinmask)
  {
    var b1 :=
      if p.openDrain then SetBits(b, At(p.base, Pdr), p.pinmask)
      else ClearBits(b, At(p.base, Pdr), p.pinmask);
    var b2 := Put(b1, At(p.base, if p.outputSet then Dset else Dclr), p.pinmask);
    SetBitsSets(b2, At(p.base, Dir), p.pinmask);
  }

  /** The output-only steps leave PDR set (open drain) or clear (push-pull) for the pins. */
  lemma OutputSetupPdr(b: GioBus, p: Pinset)
    ensures var w := Get(OutputSetup(b, p).regs, At(p.base, Pdr));
      if p.openDrain then AllSet(w, p.pinmask) else NoneSet(w, p.pinmask)
  {
    var base, pm := p.base, p.pinmask;
    var b1 :=
      if p.openDrain then SetBits(b, At(base, Pdr), pm)
      else ClearBits(b, At(base, Pdr), pm);
    if p.openDrain {
      SetBitsSets(b, At(base, Pdr), pm);
    } else {
      ClearBitsClears(b, At(base, Pdr), pm);
    }
    var b2 := Put(b1, At(base, if p.outputSet then Dset else Dclr), pm);
    assert Get(b2.regs, At(base, Pdr)) == Get(b1.regs, At(base, Pdr));
    assert Get(OutputSetup(b, p).regs, At(base, Pdr)) == Get(b2.regs, At(base, Pdr));
  }

  /**
   * An output pin: PDR's bit follows the open-drain request, the initial
   * level goes to DSET or DCLR, and only then does DIR's bit make the pin
   * an output.
   */
  lemma {:induction false} ConfigOutputPin(b: GioBus, p: Pinset, m: PortPinBits, e: PortReg)
    requires p.mode == GioOutput
    ensures var f := Configure(b, p, m, e);
      |f.log| >= 2 &&
      AllSet(Get(f.regs, At(p.base, Dir)), p.pinmask) &&
      (if p.openDrain then AllSet(Get(f.regs, At(p.base, Pdr)), p.pinmask)
       else NoneSet(Get(f.regs, At(p.base, Pdr)), p.pinmask)) &&
      f.log[|f.log| - 2] == RegWrite(At(p.base, if p.outputSet then Dset else Dclr), p.pinmask) &&
      f.log[|f.log| - 1].reg == At(p.base, Dir)
  {
    var b2 := PullSetup(ForceInput(b, p, m), p, e);
    OutputSetupLog(b2, p);
    OutputSetupDir(b2, p);
    OutputSetupPdr(b2, p);
  }


  /**
   * An input pin whose DIR is not written by the pull switch stays an
   * input: its DIR bit is clear, and nothing is stored to PDR, DSET or DCLR.
   */
  lemma {:induction false} ConfigInputPin(b: GioBus, p: Pinset, m: PortPinBits, e: PortReg)
    requires p.mode == GioInput && (e == Dir || e == Puldis)
    requires e != Dir || p.pull != PullDown
    ensures var f := Configure(b, p, m, e);
      NoneSet(Get(f.regs, At(p.base, Dir)), p.pinmask) &&
      forall k :: |b.log| <= k < |f.log| ==>
        f.log[k].reg !in {At(p.base, Pdr), At(p.base, Dset), At(p.base, Dclr)}
  {
    var pm, dir := p.pinmask, At(p.base, Dir);
    var b1 := ForceInput(b, p, m);
    var f := PullSetup(b1, p, e);
    assert Configure(b, p, m, e) == f;
    ClearBitsClears(b, dir, pm);
    assert Get(b1.regs, dir) == Get(ClearBits(b, dir, pm).regs, dir);
    PullSetupKeepsDir(b1, p, e);
    ForceInputLog(b, p, m);
    var q := PullSetupLog(b1, p, e);
    assert f.log == b.log + ([RegWrite(dir, Clear(Get(b.regs, dir), pm)),
                              RegWrite(EnaClr, m.enaClr(p.port, p.pin)),
                              RegWrite(LvlClr, m.lvlClr(p.port, p.pin))] + q);
  }


  /** The pull switch stores only to PSL, PULDIS and the pull-down enable register. */
  lemma PullSetupDirect(b: GioBus, p: Pinset, e: PortReg)
    requires e == Dir || e == Puldis
    ensures var b' := PullSetup(b, p, e);
      b'.log[..|b.log|] == b.log &&
      (forall k :: |b.log| <= k < |b'.log| ==>
        b'.log[k].reg in {At(p.base, Psl), At(p.base, Puldis), At(p.base, e)}) &&
      (e != Dir || p.pull != PullDown ==> Get(b'.regs, At(p.base, Dir)) == Get(b.regs, At(p.base, Dir)))
  {
    var q := PullSetupLog(b, p, e);
    if e != Dir || p.pull != PullDown {
      PullSetupKeepsDir(b, p, e);
    }
    assert PullSetup(b, p, e).log[..|b.log|] == b.log;
  }

  /** The pull switch appends one or two stores, to PULDIS, PSL or the PULLDOWN target. */
  lemma PullSetupLog(b: GioBus, p: Pinset, e: PortReg) returns (q: seq<RegWrite<GioReg>>)
    ensures PullSetup(b, p, e).log == b.log + q
    ensures forall k :: 0 <= k < |q| ==> q[k].reg in {At(p.base, Psl), At(p.base, Puldis), At(p.base, e)}
  {
    var pm := p.pinmask;
    match p.pull {
      case PullDefault =>
        var r := At(p.base, Puldis);
        q := [RegWrite(r, Clear(Get(b.regs, r), pm))];
      case _ =>
        var r1, r2 := At(p.base, Psl), At(p.base, if p.pull == PullUp then Puldis else e);
        var b1 := SetBits(b, r1, pm);
        q := [RegWrite(r1, Set(Get(b.regs, r1), pm)), RegWrite(r2, Set(Get(b1.regs, r2), pm))];
    }
  }

  /** Unless PULLDOWN targets DIR, the pull switch leaves DIR alone. */
  lemma PullSetupKeepsDir(b: GioBus, p: Pinset, e: PortReg)
    requires e != Dir || p.pull != PullDown
    ensures Get(PullSetup(b, p, e).regs, At(p.base, Dir)) == Get(b.regs, At(p.base, Dir))
  {
    var pm, dir := p.pinmask, At(p.base, Dir);
    if p.pull != PullDefault {
      var r1, r2 := At(p.base, Psl), At(p.base, if p.pull == PullUp then Puldis else e);
      var b1 := SetBits(b, r1, pm);
      assert Get(b1.regs, dir) == Get(b.regs, dir);
      assert PullSetup(b, p, e) == SetBits(b1, r2, pm);
    }
  }



  /**
   * As written, the pull-down case stores its "enable pull" update to DIR:
   * an input pin with a pull-down ends up with its DIR bit set, that is,
   * driven as an output, and its PULDIS register is never written.
   */
  lemma {:induction false} PullDownInputDrivesPin(b: GioBus, p: Pinset, m: PortPinBits)
    requires p.mode == GioInput && p.pull == PullDown
    ensures var f := Configure(b, p, m, Dir);
      AllSet(Get(f.regs, At(p.base, Dir)), p.pinmask) &&
      Get(f.regs, At(p.base, Puldis)) == Get(b.regs, At(p.base, Puldis))
  {
    var b1 := ForceInput(b, p, m);
    var b2 := SetBits(b1, At(p.base, Psl), p.pinmask);
    SetSets(Get(b2.regs, At(p.base, Dir)), p.pinmask);
  }

  /**
   * With the pull-down's update stored to PULDIS, as in the pull-up case,
   * every input pin stays an input and a pull-down sets PULDIS's bit.
   */
  lemma {:induction false} InputStaysInput(b: GioBus, p: Pinset, m: PortPinBits)
    requires p.mode == GioInput
    ensures var f := Configure(b, p, m, Puldis);
      NoneSet(Get(f.regs, At(p.base, Dir)), p.pinmask) &&
      (p.pull == PullDown ==> AllSet(Get(f.regs, At(p.base, Puldis)), p.pinmask))
  {
    ConfigInputPin(b, p, m, Puldis);
    if p.pull == PullDown {
      var b1 := ForceInput(b, p, m);
      var b2 := SetBits(b1, At(p.base, Psl), p.pinmask);
      SetSets(Get(b2.regs, At(p.base, Puldis)), p.pinmask);
    }
  }
}
