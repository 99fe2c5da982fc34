/**
 * k5_j721e_pin_multiplex and k5_j721e_io_multiplex
 * (arch/arm/src/k5-j721e/k5_j721e_clockconfig.c): each entry of the board's
 * pinmux table replaces one 8-bit field of a PINMMR register, between the
 * kicker writes that unlock and relock the IOMM.
 */
module K5Pinmux {
  import opened K5Mmio
  import opened K5Iomm

  /** A uint8_t as the C expressions use it: promoted to 32 bits. */
  type u8 = x: bv32 | x < 256

  /** struct k5_j721e_pinmux_s: all three members are uint8_t. */
  datatype Pinmux = Pinmux(mmrndx: u8, shift: u8, value: u8)

  /** The 8-bit field at `shift`: `0xff << shift`. */
  function FieldMask(shift: u8): bv32
    requires shift < 32
  {
    0xff << (shift)
  }

  /** `(uint32_t)value << shift` */
  function FieldValue(e: Pinmux): bv32
    requires e.shift < 32
  {
    (e.value) << (e.shift)
  }

  /** The PINMMR register an entry targets. */
  function Target(e: Pinmux): bv32
  {
    Pinmmr(e.mmrndx)
  }

  /** The register value pin_multiplex stores, given the value it read. */
  function SetField(w: bv32, e: Pinmux): bv32
    requires e.shift < 32
  {
    Update(w, FieldMask(e.shift), FieldValue(e))
  }

  /** The register state after one entry. */
  function Apply(regs: map<bv32, bv32>, e: Pinmux): map<bv32, bv32>
    requires e.shift < 32
  {
    regs[Target(e) := SetField(Get(regs, Target(e)), e)]
  }

  /**
   * k5_j721e_pin_multiplex: read the entry's PINMMR register, replace the
   * field and store it back. A shift of 32 or more is undefined in C.
   */
  method PinMultiplex(rf: RegisterFile<bv32>, e: Pinmux)
    requires e.shift < 32
    modifies rf
    ensures rf.regs == Apply(old(rf.regs), e)
    ensures rf.writes == old(rf.writes) + [RegWrite(Target(e), SetField(Get(old(rf.regs), Target(e)), e))]
  {
    var regaddr := Pinmmr(e.mmrndx);
    var regval := rf.GetReg(regaddr);
    regval := regval & !FieldMask(e.shift);
    regval := regval | FieldValue(e);
    rf.PutReg(regaddr, regval);
  }

  lemma FieldValueInMask(e: Pinmux)
    requires e.shift < 32
    ensures FieldValue(e) & !FieldMask(e.shift) == 0
  {
  }

  /** After pin_multiplex the entry's field holds its value. */
  lemma SetFieldSets(w: bv32, e: Pinmux)
    requires e.shift < 32
    ensures SetField(w, e) & FieldMask(e.shift) == FieldValue(e)
  {
    var m, x := FieldMask(e.shift), FieldValue(e);
    FieldValueInMask(e);
    UpdateSetsInside(w, m, x);
    assert SetField(w, e) == Update(w, m, x);
  }

  /** Every bit outside `0xff << shift` keeps its value. */
  lemma SetFieldKeeps(w: bv32, e: Pinmux)
    requires e.shift < 32
    ensures Clear(SetField(w, e), FieldMask(e.shift)) == Clear(w, FieldMask(e.shift))
  {
    var m, x := FieldMask(e.shift), FieldValue(e);
    FieldValueInMask(e);
    UpdateKeepsOutside(w, m, x);
    assert SetField(w, e) == Update(w, m, x);
  }

  /** pin_multiplex changes no register but its target. */
  lemma ApplyOnlyTarget(regs: map<bv32, bv32>, e: Pinmux, r: bv32)
    requires e.shift < 32 && r != Target(e)
    ensures Get(Apply(regs, e), r) == Get(regs, r)
  {
  }

  /** Applying the same entry twice leaves the registers as applying it once. */
  lemma ApplyIdempotent(regs: map<bv32, bv32>, e: Pinmux)
    requires e.shift < 32
    ensures Apply(Apply(regs, e), e) == Apply(regs, e)
  {
    SetFieldTwice(Get(regs, Target(e)), e);
  }

  lemma SetFieldTwice(w: bv32, e: Pinmux)
    requires e.shift < 32
    ensures SetField(SetField(w, e), e) == SetField(w, e)
  {
    var m, x := FieldMask(e.shift), FieldValue(e);
    UpdateTwice(w, m, x);
    assert SetField(w, e) == Update(w, m, x);
    assert SetField(Update(w, m, x), e) == Update(Update(w, m, x), m, x);
  }

  // ---------------------------------------------------------------------
  // k5_j721e_io_multiplex

  predicate ValidTable(t: seq<Pinmux>)
  {
    forall k :: 0 <= k < |t| ==> t[k].shift < 32
  }

  function Unlocked(regs: map<bv32, bv32>): map<bv32, bv32>
  {
    regs[Kick0 := Kick0Unlock][Kick1 := Kick1Unlock]
  }

  function Locked(regs: map<bv32, bv32>): map<bv32, bv32>
  {
    regs[Kick0 := Kick0Lock][Kick1 := Kick1Lock]
  }

  /** The registers after the entries of `t`, in index order. */
  function ApplyAll(regs: map<bv32, bv32>, t: seq<Pinmux>): map<bv32, bv32>
    requires ValidTable(t)
    decreases |t|
  {
    if t == [] then regs else Apply(ApplyAll(regs, t[..|t| - 1]), t[|t| - 1])
  }

  /** The stores the table loop makes, in order. */
  function FieldWrites(regs: map<bv32, bv32>, t: seq<Pinmux>): seq<RegWrite<bv32>>
    requires ValidTable(t)
    decreases |t|
  {
    if t == [] then []
    else
      var e := t[|t| - 1];
      FieldWrites(regs, t[..|t| - 1]) + [RegWrite(Target(e), SetField(Get(ApplyAll(regs, t[..|t| - 1]), Target(e)), e))]
  }

  /** One more entry of the table: one more Apply and one more store. */
  lemma ApplyAllStep(regs: map<bv32, bv32>, t: seq<Pinmux>, i: nat)
    requires ValidTable(t) && i < |t|
    ensures ValidTable(t[..i]) && ValidTable(t[..i + 1])
    ensures ApplyAll(regs, t[..i + 1]) == Apply(ApplyAll(regs, t[..i]), t[i])
    ensures FieldWrites(regs, t[..i + 1])
         == FieldWrites(regs, t[..i]) + [RegWrite(Target(t[i]), SetField(Get(ApplyAll(regs, t[..i]), Target(t[i])), t[i]))]
  {
    assert t[..i + 1][..i] == t[..i];
  }

  /** Every store io_multiplex makes: unlock, the table, lock. */
  function MuxLog(regs: map<bv32, bv32>, t: seq<Pinmux>): seq<RegWrite<bv32>>
    requires ValidTable(t)
  {
    [RegWrite(Kick0, Kick0Unlock), RegWrite(Kick1, Kick1Unlock)]
      + FieldWrites(Unlocked(regs), t)
      + [RegWrite(Kick0, Kick0Lock), RegWrite(Kick1, Kick1Lock)]
  }

  /** k5_j721e_io_multiplex over the board's g_pinmux_table. */
  method IoMultiplex(rf: RegisterFile<bv32>, table: seq<Pinmux>)
    requires ValidTable(table)
    modifies rf
    ensures rf.regs == Locked(ApplyAll(Unlocked(old(rf.regs)), table))
    ensures rf.writes == old(rf.writes) + MuxLog(old(rf.regs), table)
  {
    rf.PutReg(Kick0, Kick0Unlock);
    rf.PutReg(Kick1, Kick1Unlock);
    ghost var log0 := rf.writes;
    MuxTable(rf, table);
    ghost var log1 := rf.writes;
    rf.PutReg(Kick0, Kick0Lock);
    rf.PutReg(Kick1, Kick1Lock);
    assert rf.writes == log1 + [RegWrite(Kick0, Kick0Lock), RegWrite(Kick1, Kick1Lock)];
  }

  /** The loop of k5_j721e_io_multiplex: pin_multiplex on each entry, in index order. */
  method MuxTable(rf: RegisterFile<bv32>, table: seq<Pinmux>)
    requires ValidTable(table)
    modifies rf
    ensures rf.regs == ApplyAll(old(rf.regs), table)
    ensures rf.writes == old(rf.writes) + FieldWrites(old(rf.regs), table)
  {
    ghost var start, log0 := rf.regs, rf.writes;
    for i := 0 to |table|
      invariant rf.regs == ApplyAll(start, table[..i])
      invariant rf.writes == log0 + FieldWrites(start, table[..i])
    {
      ApplyAllStep(start, table, i);
      PinMultiplex(rf, table[i]);
    }
    assert table[..|table|] == table;
  }


  /** The table loop makes one store per entry, to that entry's register. */
  lemma {:induction false} FieldWritesTargets(regs: map<bv32, bv32>, t: seq<Pinmux>)
    requires ValidTable(t)
    ensures |FieldWrites(regs, t)| == |t|
    ensures forall k :: 0 <= k < |t| ==> FieldWrites(regs, t)[k].reg == Target(t[k])
    decreases |t|
  {
    if t != [] {
      var t' := t[..|t| - 1];
      FieldWritesTargets(regs, t');
      assert forall k :: 0 <= k < |t'| ==> t'[k] == t[k];
    }
  }

  /**
   * The IOMM is unlocked by the first two stores and relocked by the last
   * two, and every store to anything but a kicker register comes between.
   */
  lemma MuxLogBracketed(regs: map<bv32, bv32>, t: seq<Pinmux>)
    requires ValidTable(t)
    ensures |MuxLog(regs, t)| == |t| + 4
    ensures MuxLog(regs, t)[0] == RegWrite(Kick0, Kick0Unlock)
    ensures MuxLog(regs, t)[1] == RegWrite(Kick1, Kick1Unlock)
    ensures MuxLog(regs, t)[|t| + 2] == RegWrite(Kick0, Kick0Lock)
    ensures MuxLog(regs, t)[|t| + 3] == RegWrite(Kick1, Kick1Lock)
    ensures forall k :: 2 <= k < |t| + 2 ==> MuxLog(regs, t)[k].reg == Target(t[k - 2])
    ensures forall k :: 2 <= k < |t| + 2 ==> MuxLog(regs, t)[k].reg != Kick0 && MuxLog(regs, t)[k].reg != Kick1
  {
    FieldWritesTargets(Unlocked(regs), t);
    forall k | 0 <= k < |t|
      ensures Target(t[k]) != Kick0 && Target(t[k]) != Kick1
    {
      PinmmrNotKick(t[k].mmrndx);
    }
  }

  // ---------------------------------------------------------------------
  // Last entry wins

  /** Shifts that select one of the four whole fields of a PINMMR register. */
  predicate Aligned(shift: u8)
  {
    shift == 0 || shift == 8 || shift == 16 || shift == 24
  }

  predicate AlignedTable(t: seq<Pinmux>)
  {
    forall k :: 0 <= k < |t| ==> Aligned(t[k].shift)
  }

  /** The index of the last entry of `t` that targets field (mmrndx, shift), or -1. */
  function LastFor(t: seq<Pinmux>, mmrndx: u8, shift: u8): (k: int)
    ensures -1 <= k < |t|
    ensures 0 <= k ==> t[k].mmrndx == mmrndx && t[k].shift == shift
    ensures forall j :: k < j < |t| ==> !(t[j].mmrndx == mmrndx && t[j].shift == shift)
    decreases |t|
  {
    if t == [] then -1
    else if t[|t| - 1].mmrndx == mmrndx && t[|t| - 1].shift == shift then |t| - 1
    else LastFor(t[..|t| - 1], mmrndx, shift)
  }

  lemma AlignedMasksDisjoint(s: u8, u: u8)
    requires Aligned(s) && Aligned(u) && s != u
    ensures FieldMask(s) & FieldMask(u) == 0
  {
  }

  /** One entry leaves every field of every other register alone. */
  lemma ApplyOtherRegister(regs: map<bv32, bv32>, e: Pinmux, mmrndx: u8, shift: u8)
    requires e.shift < 32 && shift < 32 && e.mmrndx != mmrndx
    ensures FieldOf(Apply(regs, e), mmrndx, shift) == FieldOf(regs, mmrndx, shift)
  {
    PinmmrDistinct(e.mmrndx, mmrndx);
    ApplyOnlyTarget(regs, e, Pinmmr(mmrndx));
  }

  /** One entry leaves the other aligned fields of its own register alone. */
  lemma ApplyOtherField(regs: map<bv32, bv32>, e: Pinmux, shift: u8)
    requires Aligned(e.shift) && Aligned(shift) && e.shift != shift
    ensures FieldOf(Apply(regs, e), e.mmrndx, shift) == FieldOf(regs, e.mmrndx, shift)
  {
    var w := Get(regs, Target(e));
    var m, x, n := FieldMask(e.shift), FieldValue(e), FieldMask(shift);
    FieldValueInMask(e);
    AlignedMasksDisjoint(e.shift, shift);
    UpdateKeepsDisjoint(w, m, x, n);
    assert Get(Apply(regs, e), Target(e)) == Update(w, m, x);
  }

  /** Field (mmrndx, shift) of the register file: its bits, in place. */
  function FieldOf(regs: map<bv32, bv32>, mmrndx: u8, shift: u8): bv32
    requires shift < 32
  {
    Get(regs, Pinmmr(mmrndx)) & FieldMask(shift)
  }

  /** What field (mmrndx, shift) should hold after the entries of `t`. */
  function Winner(regs: map<bv32, bv32>, t: seq<Pinmux>, mmrndx: u8, shift: u8): bv32
    requires ValidTable(t) && shift < 32
  {
    var k := LastFor(t, mmrndx, shift);
    if k < 0 then FieldOf(regs, mmrndx, shift) else FieldValue(t[k])
  }

  /**
   * After the table loop each aligned field holds the value of the last
   * entry that targets it, or what it held before when none does.
   */
  lemma {:induction false} LastEntryWins(regs: map<bv32, bv32>, t: seq<Pinmux>, mmrndx: u8, shift: u8)
    requires ValidTable(t) && AlignedTable(t) && Aligned(shift)
    ensures FieldOf(ApplyAll(regs, t), mmrndx, shift) == Winner(regs, t, mmrndx, shift)
    decreases |t|
  {
    if t != [] {
      var t', e := t[..|t| - 1], t[|t| - 1];
      assert ValidTable(t') && AlignedTable(t');
      assert ApplyAll(regs, t) == Apply(ApplyAll(regs, t'), e);
      LastEntryWins(regs, t', mmrndx, shift);
      ApplyField(ApplyAll(regs, t'), e, mmrndx, shift);
      var k := LastFor(t', mmrndx, shift);
      assert 0 <= k ==> t'[k] == t[k];
    }
  }

  /** One entry sets its own field and leaves every other aligned field alone. */
  lemma ApplyField(regs: map<bv32, bv32>, e: Pinmux, mmrndx: u8, shift: u8)
    requires Aligned(e.shift) && Aligned(shift)
    ensures FieldOf(Apply(regs, e), mmrndx, shift)
         == if e.mmrndx == mmrndx && e.shift == shift then FieldValue(e) else FieldOf(regs, mmrndx, shift)
  {
    if e.mmrndx != mmrndx {
      ApplyOtherRegister(regs, e, mmrndx, shift);
    } else if e.shift != shift {
      ApplyOtherField(regs, e, shift);
    } else {
      SetFieldSets(Get(regs, Target(e)), e);
    }
  }
}
