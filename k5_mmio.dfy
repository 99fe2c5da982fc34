/**
 * Memory-mapped 32-bit registers as the K5-J721E board-support code sees
 * them through getreg32/putreg32: a register file keyed by register, plus
 * the ordered record of every store.
 */
module K5Mmio {

  /** One putreg32: the register written and the value stored. */
  datatype RegWrite<K> = RegWrite(reg: K, value: bv32)

  /** The current value of a register; one the model holds no value for reads as 0. */
  function Get<K>(regs: map<K, bv32>, r: K): bv32
  {
    if r in regs then regs[r] else 0
  }

  /** The register contents together with every store made so far. */
  datatype Bus<K> = Bus(regs: map<K, bv32>, log: seq<RegWrite<K>>)

  /** putreg32 on a bus value. */
  function Put<K(!new)>(b: Bus<K>, r: K, v: bv32): (b': Bus<K>)
    ensures Get(b'.regs, r) == v
    ensures forall q :: q != r ==> Get(b'.regs, q) == Get(b.regs, q)
    ensures b'.log == b.log + [RegWrite(r, v)]
  {
    Bus(b.regs[r := v], b.log + [RegWrite(r, v)])
  }

  /** `w | mask` */
  function Set(w: bv32, mask: bv32): bv32
  {
    w | mask
  }

  /** `w & ~mask` */
  function Clear(w: bv32, mask: bv32): bv32
  {
    w & !mask
  }

  /** Every bit of `mask` is set in `w`. */
  predicate AllSet(w: bv32, mask: bv32)
  {
    w & mask == mask
  }

  /** No bit of `mask` is set in `w`. */
  predicate NoneSet(w: bv32, mask: bv32)
  {
    w & mask == 0
  }

  /** The read-modify-write `reg |= mask`. */
  function SetBits<K(!new)>(b: Bus<K>, r: K, mask: bv32): Bus<K>
  {
    Put(b, r, Set(Get(b.regs, r), mask))
  }

  /** The read-modify-write `reg &= ~mask`. */
  function ClearBits<K(!new)>(b: Bus<K>, r: K, mask: bv32): Bus<K>
  {
    Put(b, r, Clear(Get(b.regs, r), mask))
  }

  /**
   * A register file. `regs` holds the last value stored in (or the current
   * value of) each register, and `writes` records the stores in order.
   */
  class RegisterFile<K(==,!new)> {
    var regs: map<K, bv32>
    ghost var writes: seq<RegWrite<K>>

    ghost function State(): Bus<K>
      reads this
    {
      Bus(regs, writes)
    }

    constructor (init: map<K, bv32>)
      ensures regs == init && writes == []
    {
      regs := init;
      writes := [];
    }

    /** getreg32 */
    method GetReg(r: K) returns (v: bv32)
      ensures v == Get(regs, r)
    {
      v := Get(regs, r);
    }

    /** putreg32 */
    method PutReg(r: K, v: bv32)
      modifies this
      ensures regs == old(regs)[r := v]
      ensures writes == old(writes) + [RegWrite(r, v)]
      ensures State() == Put(old(State()), r, v)
    {
      regs := regs[r := v];
      writes := writes + [RegWrite(r, v)];
    }
  }

  lemma GetUpdate<K>(regs: map<K, bv32>, r: K, v: bv32, q: K)
    ensures Get(regs[r := v], q) == if q == r then v else Get(regs, q)
  {
  }

  // Boolean identities behind every read-modify-write, one per lemma so
  // that each stays a small bit-vector problem.

  /** The read-modify-write `(w & ~mask) | x`: replace the bits under `mask` by `x`. */
  function Update(w: bv32, mask: bv32, x: bv32): bv32
  {
    (w & !mask) | x
  }

  /** Clearing then setting bits inside a mask leaves the bits outside it alone. */
  lemma UpdateKeepsOutside(w: bv32, m: bv32, x: bv32)
    requires x & !m == 0
    ensures Clear(Update(w, m, x), m) == Clear(w, m)
  {
  }

  /** Clearing then setting bits inside a mask puts exactly `x` inside it. */
  lemma UpdateSetsInside(w: bv32, m: bv32, x: bv32)
    requires x & !m == 0
    ensures Update(w, m, x) & m == x
  {
  }

  /** The clear-then-set update is idempotent. */
  lemma UpdateTwice(w: bv32, m: bv32, x: bv32)
    ensures Update(Update(w, m, x), m, x) == Update(w, m, x)
  {
  }

  /** An update inside one mask leaves a disjoint mask's bits alone. */
  lemma UpdateKeepsDisjoint(w: bv32, m: bv32, x: bv32, n: bv32)
    requires x & !m == 0 && m & n == 0
    ensures Update(w, m, x) & n == w & n
  {
  }

  /** Or-ing a mask in leaves the bits outside it alone. */
  lemma OrMaskKeeps(w: bv32, m: bv32)
    ensures (w | m) & !m == w & !m
  {
  }

  lemma SetSets(w: bv32, m: bv32)
    ensures AllSet(Set(w, m), m)
  {
  }

  lemma SetKeeps(w: bv32, m: bv32)
    ensures Clear(Set(w, m), m) == Clear(w, m)
  {
    calc {
      Clear(Set(w, m), m);
      (w | m) & !m;
      { OrMaskKeeps(w, m); }
      w & !m;
    }
  }

  lemma ClearClears(w: bv32, m: bv32)
    ensures NoneSet(Clear(w, m), m)
  {
  }

  lemma ClearKeeps(w: bv32, m: bv32)
    ensures Clear(Clear(w, m), m) == Clear(w, m)
  {
  }

  /** After `reg |= mask` every bit of the mask is set in `reg`. */
  lemma SetBitsSets<K(!new)>(b: Bus<K>, r: K, mask: bv32)
    ensures AllSet(Get(SetBits(b, r, mask).regs, r), mask)
  {
    SetSets(Get(b.regs, r), mask);
  }

  /** After `reg &= ~mask` no bit of the mask is set in `reg`. */
  lemma ClearBitsClears<K(!new)>(b: Bus<K>, r: K, mask: bv32)
    ensures NoneSet(Get(ClearBits(b, r, mask).regs, r), mask)
  {
    ClearClears(Get(b.regs, r), mask);
  }
}
