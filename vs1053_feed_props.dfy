/**
 * What the VS1053 feed engine promises, proved about the functions of
 * Vs1053Feed: audio leaves the pending buffers in order and is only dropped
 * by a cancelled stream, buffers are reported back in FIFO order, the drain
 * counter counts fill blocks, and the worker always ends with exactly one
 * completion report.
 */
module Vs1053FeedProps {
  import opened Wrappers
  import opened Vs1053Feed

  // ---------------------------------------------------------------------
  // Views of the event log

  /** Concatenate what `f` extracts from each event, in log order. */
  function Project<T>(log: seq<Event>, f: Event -> seq<T>): seq<T>
    decreases |log|
  {
    if log == [] then [] else f(log[0]) + Project(log[1..], f)
  }

  function Audio(e: Event): seq<bv8>
  {
    if e.SendBlock? then e.bytes else []
  }

  function FillChar(e: Event): seq<bv8>
  {
    if e.SendFill? then [e.ch] else []
  }

  function DequeuedId(e: Event): seq<nat>
  {
    if e.Callback? && e.kind.Dequeue? then [e.kind.id] else []
  }

  function Completion(e: Event): seq<Upcall>
  {
    if e == Callback(Complete) then [Complete] else []
  }

  /** Audio bytes sent to the decoder. */
  function Sent(log: seq<Event>): seq<bv8>
  {
    Project(log, Audio)
  }

  /** Number of 32-byte fill blocks sent. */
  function Fills(log: seq<Event>): nat
  {
    |Project(log, FillChar)|
  }

  /** Buffer ids reported with AUDIO_CALLBACK_DEQUEUE, in order. */
  function Dequeued(log: seq<Event>): seq<nat>
  {
    Project(log, DequeuedId)
  }

  function Completions(log: seq<Event>): nat
  {
    |Project(log, Completion)|
  }

  /** The events `s` logged after `r`. */
  function Delta(r: Run, s: Run): seq<Event>
    requires r.log <= s.log
  {
    s.log[|r.log|..]
  }

  /** An event that carries no audio and no fill, and reports nothing upwards but errors. */
  predicate Noise(e: Event)
  {
    !e.SendBlock? && !e.SendFill? && !(e.Callback? && (e.kind.Dequeue? || e.kind.Complete?))
  }

  ghost predicate Quiet(evs: seq<Event>)
  {
    forall i :: 0 <= i < |evs| ==> Noise(evs[i])
  }

  lemma {:induction false} ProjectAppend<T>(a: seq<Event>, b: seq<Event>, f: Event -> seq<T>)
    ensures Project(a + b, f) == Project(a, f) + Project(b, f)
    decreases |a|
  {
    if a == [] {
      assert a + b == b;
    } else {
      assert (a + b)[1..] == a[1..] + b;
      ProjectAppend(a[1..], b, f);
    }
  }

  lemma {:induction false} QuietProjections(evs: seq<Event>)
    requires Quiet(evs)
    ensures Sent(evs) == [] && Fills(evs) == 0 && Dequeued(evs) == [] && Completions(evs) == 0
    decreases |evs|
  {
    if evs != [] {
      QuietProjections(evs[1..]);
    }
  }

  /** Projections of a stretch of log in which only `e` is not noise. */
  lemma OneLoud(pre: seq<Event>, e: Event, post: seq<Event>)
    requires Quiet(pre) && Quiet(post)
    ensures Sent(pre + [e] + post) == Audio(e) && Fills(pre + [e] + post) == |FillChar(e)|
    ensures Dequeued(pre + [e] + post) == DequeuedId(e)
    ensures Completions(pre + [e] + post) == |Completion(e)|
  {
    QuietProjections(pre);
    QuietProjections(post);
    assert [e][1..] == [];
    ProjectAppend(pre, [e], Audio);
    ProjectAppend(pre + [e], post, Audio);
    ProjectAppend(pre, [e], FillChar);
    ProjectAppend(pre + [e], post, FillChar);
    ProjectAppend(pre, [e], DequeuedId);
    ProjectAppend(pre + [e], post, DequeuedId);
    ProjectAppend(pre, [e], Completion);
    ProjectAppend(pre + [e], post, Completion);
  }

  lemma DeltaSplit(a: Run, b: Run, c: Run)
    requires a.log <= b.log <= c.log
    ensures Delta(a, c) == Delta(a, b) + Delta(b, c)
  {
    assert c.log[|a.log|..] == c.log[|a.log|..|b.log|] + c.log[|b.log|..];
  }

  // ---------------------------------------------------------------------
  // Pending audio and the buffer stream

  /** The bytes of a buffer still to be sent. */
  function Rest(b: ApBuffer): seq<bv8>
    requires WellFormed(b)
  {
    b.samp[b.curbyte .. b.nbytes]
  }

  function QueuedBytes(q: seq<ApBuffer>): seq<bv8>
    requires forall i :: 0 <= i < |q| ==> WellFormed(q[i])
    decreases |q|
  {
    if q == [] then [] else Rest(q[0]) + QueuedBytes(q[1..])
  }

  /** Everything the device still owes the decoder, in playing order. */
  function Pending(d: Dev): seq<bv8>
    requires Inv(d)
  {
    (if d.pBuf.Some? then Rest(d.pBuf.value) else []) + QueuedBytes(d.apbq)
  }

  function Ids(q: seq<ApBuffer>): seq<nat>
    decreases |q|
  {
    if q == [] then [] else [q[0].id] + Ids(q[1..])
  }

  /** The buffers the device holds, active one first. */
  function Stream(d: Dev): seq<nat>
  {
    (if d.pBuf.Some? then [d.pBuf.value.id] else []) + Ids(d.apbq)
  }

  /** Every sem_wait still to come succeeds. */
  predicate AllSemOk(e: Env)
  {
    forall i :: 0 <= i < |e.semOk| ==> e.semOk[i]
  }

  /**
   * From `r` to `s` the engine sent a prefix of what was pending, then
   * dropped `dropped` (only ever in cancel mode), and what is left is still
   * pending.  With every queue lock granted, the buffers reported dequeued
   * are exactly the ones that left the stream, in order.  No completion is
   * reported.
   */
  ghost predicate Accounts(r: Run, s: Run, dropped: seq<bv8>)
  {
    && Inv(r.dev) && Inv(s.dev) && r.log <= s.log
    && Pending(r.dev) == Sent(Delta(r, s)) + dropped + Pending(s.dev)
    && (dropped != [] ==> r.dev.cancelmode)
    && (AllSemOk(r.env) ==> AllSemOk(s.env) && Dequeued(Delta(r, s)) + Stream(s.dev) == Stream(r.dev))
    && Completions(Delta(r, s)) == 0
  }

  lemma QuietAccounts(r: Run, s: Run)
    requires Inv(r.dev) && Inv(s.dev) && r.log <= s.log && Quiet(Delta(r, s))
    requires s.dev.pBuf == r.dev.pBuf && s.dev.apbq == r.dev.apbq
    requires s.env.semOk == r.env.semOk
    ensures Accounts(r, s, [])
  {
    QuietProjections(Delta(r, s));
  }

  lemma ChainPending(pa: seq<bv8>, pb: seq<bv8>, pc: seq<bv8>, s1: seq<bv8>, s2: seq<bv8>, d1: seq<bv8>, d2: seq<bv8>)
    requires pa == s1 + d1 + pb && pb == s2 + d2 + pc
    requires d1 == [] || (d2 == [] && s2 == [])
    ensures pa == (s1 + s2) + (d1 + d2) + pc
  {
  }

  lemma ChainStream(sa: seq<nat>, sb: seq<nat>, sc: seq<nat>, q1: seq<nat>, q2: seq<nat>)
    requires q1 + sb == sa && q2 + sc == sb
    ensures (q1 + q2) + sc == sa
  {
  }

  lemma AccountsTrans(a: Run, b: Run, c: Run, d1: seq<bv8>, d2: seq<bv8>)
    requires Accounts(a, b, d1) && Accounts(b, c, d2)
    requires b.dev.cancelmode == a.dev.cancelmode
    requires d1 == [] || (d2 == [] && Sent(Delta(b, c)) == [])
    ensures Accounts(a, c, d1 + d2)
  {
    DeltaSplit(a, b, c);
    ProjectAppend(Delta(a, b), Delta(b, c), Audio);
    ChainPending(Pending(a.dev), Pending(b.dev), Pending(c.dev), Sent(Delta(a, b)), Sent(Delta(b, c)), d1, d2);
    if AllSemOk(a.env) {
      ProjectAppend(Delta(a, b), Delta(b, c), DequeuedId);
      ChainStream(Stream(a.dev), Stream(b.dev), Stream(c.dev), Dequeued(Delta(a, b)), Dequeued(Delta(b, c)));
    }
    ProjectAppend(Delta(a, b), Delta(b, c), Completion);
  }

  // ---------------------------------------------------------------------
  // One iteration of the feed loop

  lemma LoadEndFillAccounts(r: Run)
    requires Inv(r.dev)
    ensures Accounts(r, LoadEndFill(r), [])
  {
    var s := LoadEndFill(r);
    var fill := RegValue(r);
    assert Delta(r, s) == [DreqIrq(false), WriteReg(WramAddr, EndFillByteAddr), ReadReg(Wram, fill), DreqIrq(true)];
    QuietAccounts(r, s);
  }

  lemma CancelCheckAccounts(r: Run) returns (dropped: seq<bv8>)
    requires Inv(r.dev) && r.dev.pBuf.Some? && r.dev.cancelmode
    ensures var s := CancelCheck(r);
      && Accounts(r, s, dropped) && Sent(Delta(r, s)) == []
      && s.dev.endmode == r.dev.endmode
      && (dropped != [] ==> s.dev.pBuf.value.curbyte == s.dev.pBuf.value.nbytes == 0 < s.dev.pBuf.value.nmaxbytes)
  {
    var s := CancelCheck(r);
    var b := r.dev.pBuf.value;
    assert Delta(r, s) == [DreqIrq(false), ReadReg(Mode, RegValue(r)), DreqIrq(true)];
    QuietProjections(Delta(r, s));
    if RegValue(r) & SmCancel == 0 {
      dropped := Rest(b);
      assert Rest(s.dev.pBuf.value) == [];
    } else {
      dropped := [];
    }
  }

  lemma NextBufferRefused(r: Run)
    requires Inv(r.dev) && r.dev.pBuf.Some? && r.dev.pBuf.value.curbyte >= r.dev.pBuf.value.nbytes
    requires !SemOk(r)
    ensures Accounts(r, NextBuffer(r).0, []) && Sent(Delta(r, NextBuffer(r).0)) == []
  {
    var s := NextBuffer(r).0;
    var id := r.dev.pBuf.value.id;
    assert Delta(r, s) == [Free(id)] + [Callback(Dequeue(id))] + [Callback(IoErr)];
    OneLoud([Free(id)], Callback(Dequeue(id)), [Callback(IoErr)]);
    assert !AllSemOk(r.env);
  }

  /** With the semaphore taken and the queue empty, NextBuffer leaves no active buffer. */
  lemma NextBufferEmptied(r: Run)
    requires Inv(r.dev) && r.dev.pBuf.Some? && SemOk(r) && r.dev.apbq == []
    ensures var id := r.dev.pBuf.value.id; var s := NextBuffer(r).0;
      && s.log == r.log + [Free(id), Callback(Dequeue(id))]
      && s.dev == r.dev.(pBuf := None)
      && s.env == AfterSem(r).env
  {
  }

  lemma NextBufferLast(r: Run)
    requires Inv(r.dev) && r.dev.pBuf.Some? && r.dev.pBuf.value.curbyte >= r.dev.pBuf.value.nbytes
    requires SemOk(r) && r.dev.apbq == []
    ensures Accounts(r, NextBuffer(r).0, []) && Sent(Delta(r, NextBuffer(r).0)) == []
  {
    var s := NextBuffer(r).0;
    var id := r.dev.pBuf.value.id;
    NextBufferEmptied(r);
    assert Delta(r, s) == [Free(id)] + [Callback(Dequeue(id))] + [];
    OneLoud([Free(id)], Callback(Dequeue(id)), []);
  }

  /** With the semaphore taken and a buffer queued, NextBuffer moves the queue's head into place. */
  lemma NextBufferPopped(r: Run)
    requires Inv(r.dev) && r.dev.pBuf.Some? && SemOk(r) && r.dev.apbq != []
    ensures var id := r.dev.pBuf.value.id; var next := r.dev.apbq[0]; var s := NextBuffer(r).0;
      && s.log == r.log + [Free(id), Callback(Dequeue(id)), Reference(Some(next.id))]
      && s.dev == r.dev.(pBuf := Some(next), apbq := r.dev.apbq[1..])
      && s.env == AfterSem(r).env
  {
  }

  lemma NextBufferPop(r: Run)
    requires Inv(r.dev) && r.dev.pBuf.Some? && r.dev.pBuf.value.curbyte >= r.dev.pBuf.value.nbytes
    requires SemOk(r) && r.dev.apbq != []
    ensures Accounts(r, NextBuffer(r).0, []) && Sent(Delta(r, NextBuffer(r).0)) == []
  {
    var s := NextBuffer(r).0;
    var id := r.dev.pBuf.value.id;
    var next := r.dev.apbq[0];
    NextBufferPopped(r);
    assert Delta(r, s) == [Free(id)] + [Callback(Dequeue(id))] + [Reference(Some(next.id))];
    OneLoud([Free(id)], Callback(Dequeue(id)), [Reference(Some(next.id))]);
    assert Pending(r.dev) == Pending(s.dev) by {
      assert QueuedBytes(r.dev.apbq) == Rest(next) + QueuedBytes(r.dev.apbq[1..]);
    }
    assert Stream(r.dev) == [id] + Stream(s.dev) by {
      assert Ids(r.dev.apbq) == [next.id] + Ids(r.dev.apbq[1..]);
    }
  }

  lemma NextBufferAccounts(r: Run)
    requires Inv(r.dev) && r.dev.pBuf.Some? && r.dev.pBuf.value.curbyte >= r.dev.pBuf.value.nbytes
    ensures Accounts(r, NextBuffer(r).0, []) && Sent(Delta(r, NextBuffer(r).0)) == []
  {
    if !SemOk(r) {
      NextBufferRefused(r);
    } else if r.dev.apbq == [] {
      NextBufferLast(r);
    } else {
      NextBufferPop(r);
    }
  }

  lemma EndOfBufferAccounts(r: Run)
    requires Inv(r.dev) && r.dev.pBuf.Some?
    ensures var s := EndOfBuffer(r).0; var b := r.dev.pBuf.value;
      && Accounts(r, s, []) && Sent(Delta(r, s)) == []
      && (b.curbyte >= b.nbytes && b.nbytes != b.nmaxbytes && r.dev.cancelmode ==> s.dev.endmode)
  {
    var b := r.dev.pBuf.value;
    if b.curbyte < b.nbytes {
      QuietAccounts(r, r);
      QuietProjections(Delta(r, r));
    } else if b.nbytes != b.nmaxbytes {
      var r1 := LoadEndFill(r);
      LoadEndFillAccounts(r);
      QuietProjections(Delta(r, r1));
      if !r.dev.cancelmode {
        NextBufferAccounts(r1);
        AccountsTrans(r, r1, NextBuffer(r1).0, [], []);
        DeltaSplit(r, r1, NextBuffer(r1).0);
        ProjectAppend(Delta(r, r1), Delta(r1, NextBuffer(r1).0), Audio);
      }
    } else {
      NextBufferAccounts(r);
    }
  }

  /** The block sent by a data iteration is the head of the pending audio. */
  lemma SendBlockAccounts(r: Run)
    requires Inv(r.dev) && r.dev.pBuf.Some?
    ensures Accounts(r, Transmit(r), [])
  {
    var b := r.dev.pBuf.value;
    var k := Min(BlockSize, b.nbytes - b.curbyte);
    var block := b.samp[b.curbyte .. b.curbyte + k];
    var b1 := b.(curbyte := b.curbyte + k);
    var r1 := Transmit(r);
    assert r1 == Emit(r, [SendBlock(block)]).(dev := r.dev.(pBuf := Some(b1)));
    assert Delta(r, r1) == [] + [SendBlock(block)] + [];
    OneLoud([], SendBlock(block), []);
    assert Inv(r1.dev);
    assert Rest(b) == block + Rest(b1);
    assert Pending(r.dev) == Sent(Delta(r, r1)) + [] + Pending(r1.dev);
    assert Stream(r1.dev) == Stream(r.dev);
    assert Dequeued(Delta(r, r1)) == [];
  }

  lemma DataStepAccounts(r: Run) returns (dropped: seq<bv8>)
    requires Inv(r.dev) && r.dev.pBuf.Some?
    ensures Accounts(r, DataStep(r).0, dropped)
    ensures dropped != [] ==> DataStep(r).0.dev.endmode
  {
    var s := DataStep(r).0;
    var r1 := Transmit(r);
    SendBlockAccounts(r);
    assert Accounts(r, r1, []);
    if r.dev.cancelmode {
      assert s == EndOfBuffer(CancelCheck(r1)).0;
      dropped := CancelPathAccounts(r1);
      AccountsTrans(r, r1, s, [], dropped);
      assert [] + dropped == dropped;
    } else {
      assert s == EndOfBuffer(r1).0;
      EndOfBufferAccounts(r1);
      assert Accounts(r1, s, []);
      AccountsTrans(r, r1, s, [], []);
      dropped := [];
    }
  }

  lemma CancelPathAccounts(r1: Run) returns (dropped: seq<bv8>)
    requires Inv(r1.dev) && r1.dev.pBuf.Some? && r1.dev.cancelmode
    ensures Accounts(r1, EndOfBuffer(CancelCheck(r1)).0, dropped)
    ensures dropped != [] ==> EndOfBuffer(CancelCheck(r1)).0.dev.endmode
  {
    var r2 := CancelCheck(r1);
    var s := EndOfBuffer(r2).0;
    dropped := CancelCheckAccounts(r1);
    EndOfBufferAccounts(r2);
    AccountsTrans(r1, r2, s, dropped, []);
    assert dropped + [] == dropped;
  }

  lemma DrainDoneQuiet(r: Run)
    ensures r.log <= DrainDone(r).log && Quiet(Delta(r, DrainDone(r)))
  {
    var s := DrainDone(r);
    var r1 := Emit(r, [DreqIrq(false), WriteReg(WramAddr, EndFillByteAddr)]);
    var r2 := ReadRegister(r1, Wram);
    var r3 := ReadRegister(r2, Mode);
    assert s.log == r.log + [DreqIrq(false), WriteReg(WramAddr, EndFillByteAddr)]
                  + [ReadReg(Wram, RegValue(r1))] + [ReadReg(Mode, RegValue(r2))]
                  + [WriteReg(Mode, RegValue(r2) | SmReset)];
  }

  /** The threshold checks log noise only. */
  lemma DrainCheckQuiet(r: Run)
    requires BuffersOk(r.dev) && r.dev.endmode && r.dev.endfillbytes < FillCeiling + BlockSize
    ensures var s := DrainCheck(r).0;
      r.log <= s.log && Quiet(Delta(r, s)) && s.dev.pBuf == r.dev.pBuf && s.dev.apbq == r.dev.apbq
      && s.dev.endfillbytes == r.dev.endfillbytes && s.env.semOk == r.env.semOk
  {
    var s := DrainCheck(r).0;
    var count := r.dev.endfillbytes;
    var m0 := RegValue(r);
    if count == CancelFill {
      assert Delta(r, s) == [DreqIrq(false), ReadReg(Mode, m0), WriteReg(Mode, m0 | SmCancel), DreqIrq(true)];
    } else if count >= FillCeiling {
      assert Delta(r, s) == [DreqIrq(false), HardReset];
    } else if count > CancelFill {
      var r1 := ReadRegister(r, Status);
      assert Delta(r, r1) == [ReadReg(Status, m0)];
      if m0 & SmCancel == 0 {
        DrainDoneQuiet(r1);
        DeltaSplit(r, r1, s);
      }
    } else {
      assert Delta(r, s) == [];
    }
  }

  lemma FillStepAccounts(r: Run)
    requires Inv(r.dev) && r.dev.endmode
    ensures Accounts(r, FillStep(r).0, []) && Sent(Delta(r, FillStep(r).0)) == []
  {
    FillStepLog(r);
    assert Pending(FillStep(r).0.dev) == Pending(r.dev);
  }

  /** A fill iteration logs one fill block, counts it, and leaves the buffers alone. */
  lemma FillStepCounts(r: Run)
    requires Inv(r.dev) && r.dev.endmode
    ensures var s := FillStep(r).0;
      && s.dev.pBuf == r.dev.pBuf && s.dev.apbq == r.dev.apbq
      && Fills(Delta(r, s)) == 1
      && s.dev.endfillbytes == r.dev.endfillbytes + BlockSize
  {
    FillStepLog(r);
  }

  lemma FillStepLog(r: Run)
    requires Inv(r.dev) && r.dev.endmode
    ensures var s := FillStep(r).0; var fill := SendFill(r.dev.endfillchar);
      && s.dev.pBuf == r.dev.pBuf && s.dev.apbq == r.dev.apbq && s.env.semOk == r.env.semOk
      && Sent(Delta(r, s)) == [] && Fills(Delta(r, s)) == 1
      && Dequeued(Delta(r, s)) == [] && Completions(Delta(r, s)) == 0
  {
    var s := FillStep(r).0;
    var fill := SendFill(r.dev.endfillchar);
    var r1 := Emit(r, [fill]).(dev := r.dev.(endfillbytes := r.dev.endfillbytes + BlockSize));
    assert s == DrainCheck(r1).0;
    DrainCheckQuiet(r1);
    var q := Delta(r1, s);
    assert Quiet(q);
    assert Delta(r, s) == [] + [fill] + q by {
      DeltaSplit(r, r1, s);
    }
    OneLoud([], fill, q);
  }

  lemma StepAccounts(r: Run) returns (dropped: seq<bv8>)
    requires Pumpable(r.dev)
    ensures Accounts(r, Step(r).0, dropped)
    ensures dropped != [] ==> Step(r).0.dev.endmode
  {
    if r.dev.endmode {
      FillStepAccounts(r);
      dropped := [];
    } else {
      dropped := DataStepAccounts(r);
    }
  }

  // ---------------------------------------------------------------------
  // The DREQ loop and vs1053_feeddata

  lemma FillsAppend(a: seq<Event>, b: seq<Event>)
    ensures Fills(a + b) == Fills(a) + Fills(b)
  {
    ProjectAppend(a, b, FillChar);
  }

  /**
   * Once in end mode the loop only drains: no audio, no buffer movement, and
   * the counter grows by 32 per fill block, staying under the hard-reset
   * ceiling.
   */
  lemma {:induction false} PumpDraining(r: Run)
    requires Pumpable(r.dev) && r.dev.endmode
    ensures var s := Pump(r);
      && Accounts(r, s, []) && Sent(Delta(r, s)) == []
      && s.dev.pBuf == r.dev.pBuf && s.dev.apbq == r.dev.apbq
      && s.dev.endfillbytes == r.dev.endfillbytes + BlockSize * Fills(Delta(r, s))
      && BlockSize * Fills(Delta(r, s)) < FillCeiling + BlockSize - r.dev.endfillbytes
    decreases |r.env.dreq|
  {
    var s := Pump(r);
    var r1 := AfterDreq(r);
    QuietAccounts(r, r1);
    QuietProjections(Delta(r, r1));
    if Dreq(r) {
      var r2 := FillStep(r1).0;
      FillStepAccounts(r1);
      FillStepCounts(r1);
      AccountsTrans(r, r1, r2, [], []);
      DeltaSplit(r, r1, r2);
      FillsAppend(Delta(r, r1), Delta(r1, r2));
      ProjectAppend(Delta(r, r1), Delta(r1, r2), Audio);
      if !FillStep(r1).1 {
        PumpDraining(r2);
        AccountsTrans(r, r2, s, [], []);
        DeltaSplit(r, r2, s);
        FillsAppend(Delta(r, r2), Delta(r2, s));
        ProjectAppend(Delta(r, r2), Delta(r2, s), Audio);
      }
    }
  }

  lemma {:induction false} PumpAccounts(r: Run) returns (dropped: seq<bv8>)
    requires Pumpable(r.dev)
    ensures Accounts(r, Pump(r), dropped)
    decreases |r.env.dreq|
  {
    var s := Pump(r);
    var r1 := AfterDreq(r);
    QuietAccounts(r, r1);
    dropped := [];
    if Dreq(r) {
      var res := Step(r1);
      var d1 := StepAccounts(r1);
      AccountsTrans(r, r1, res.0, [], d1);
      assert [] + d1 == d1;
      dropped := d1;
      if !res.1 {
        if d1 != [] {
          PumpDraining(res.0);
          AccountsTrans(r, res.0, s, d1, []);
          assert d1 + [] == d1;
        } else {
          var d2 := PumpAccounts(res.0);
          AccountsTrans(r, res.0, s, d1, d2);
          assert d1 + d2 == d2;
          dropped := d2;
        }
      }
    }
  }

  /** Logging bus events alone moves no audio and dequeues nothing. */
  lemma EmitAccounts(r: Run, evs: seq<Event>)
    requires Inv(r.dev) && Quiet(evs)
    ensures Accounts(r, Emit(r, evs), [])
  {
    assert Delta(r, Emit(r, evs)) == evs;
    QuietAccounts(r, Emit(r, evs));
  }

  /** The DREQ loop followed by the chip-select release. */
  lemma PumpThenDeselect(r: Run) returns (d: seq<bv8>)
    requires Pumpable(r.dev)
    ensures Accounts(r, Emit(Pump(r), [DataSelect(false), BusUnlock]), d)
  {
    var p := Pump(r);
    var s := Emit(p, [DataSelect(false), BusUnlock]);
    d := PumpAccounts(r);
    EmitAccounts(p, [DataSelect(false), BusUnlock]);
    QuietProjections(Delta(p, s));
    AccountsTrans(r, p, s, d, []);
    assert d + [] == d;
  }

  /**
   * vs1053_feeddata sends a prefix of the pending audio, loses audio only in
   * cancel mode, reports dequeued buffers in FIFO order and never completes.
   */
  lemma FeedAccounts(r: Run)
    requires Inv(r.dev)
    ensures exists dropped :: Accounts(r, Feed(r), dropped)
  {
    var s := Feed(r);
    var r1 := AfterDreq(r);
    QuietAccounts(r, r1);
    if !Dreq(r) || r1.dev.paused {
      assert Accounts(r, s, []);
    } else {
      var r2 := Emit(r1, [BusLock, DataSelect(true)]);
      EmitAccounts(r1, [BusLock, DataSelect(true)]);
      AccountsTrans(r, r1, r2, [], []);
      if r2.dev.pBuf.None? && !r2.dev.endmode {
        assert s == Emit(r2, [DataSelect(false), BusUnlock]);
        EmitAccounts(r2, [DataSelect(false), BusUnlock]);
        AccountsTrans(r, r2, s, [], []);
        assert Accounts(r, s, []);
      } else {
        assert s == Emit(Pump(r2), [DataSelect(false), BusUnlock]);
        var d := PumpThenDeselect(r2);
        AccountsTrans(r, r2, s, [], d);
        assert [] + d == d;
        assert Accounts(r, s, d);
      }
    }
  }


  /** feeddata does nothing at all exactly when DREQ is low or playback is paused. */
  lemma FeedGate(r: Run)
    requires Inv(r.dev)
    ensures Feed(r).log == r.log <==> !Dreq(r) || r.dev.paused
    ensures !Dreq(r) || r.dev.paused ==> Feed(r).dev == r.dev
  {
  }

  /** With no active buffer and no drain under way, feeddata only selects, deselects and unlocks. */
  lemma FeedIdle(r: Run)
    requires Inv(r.dev) && Dreq(r) && !r.dev.paused && r.dev.pBuf.None? && !r.dev.endmode
    ensures Feed(r).dev == r.dev
    ensures Delta(r, Feed(r)) == [BusLock, DataSelect(true), DataSelect(false), BusUnlock]
  {
  }

  // ---------------------------------------------------------------------
  // Per-iteration behaviour

  /**
   * A data iteration first sends min(32, nbytes - curbyte) bytes taken from
   * the cursor, and, unless cancelling or finishing the buffer, just advances
   * the cursor past them.
   */
  lemma DataStepBlock(r: Run)
    requires Inv(r.dev) && r.dev.pBuf.Some?
    ensures var b := r.dev.pBuf.value; var s := DataStep(r).0;
      && |s.log| > |r.log| && s.log[|r.log|].SendBlock?
      && var block := s.log[|r.log|].bytes;
         && |block| == Min(BlockSize, b.nbytes - b.curbyte)
         && block == b.samp[b.curbyte .. b.curbyte + |block|]
         && (!r.dev.cancelmode && b.curbyte + |block| < b.nbytes ==>
               s.dev.pBuf == Some(b.(curbyte := b.curbyte + |block|)) && s.dev.apbq == r.dev.apbq)
  {
  }

  // The drain thresholds.  Each fill iteration adds 32 to the counter (see
  // FillStepCounts); what else it does depends on the new count.

  /** Below 32*65 a fill iteration only sends the fill block. */
  lemma FillBeforeCancel(r: Run)
    requires Inv(r.dev) && r.dev.endmode && r.dev.endfillbytes + BlockSize < CancelFill
    ensures var res := FillStep(r);
      Delta(r, res.0) == [SendFill(r.dev.endfillchar)] && !res.1 && res.0.dev.endmode
  {
  }

  /** At exactly 32*65 SM_CANCEL is requested by a read-modify-write of SCI_MODE. */
  lemma FillRequestsCancel(r: Run)
    requires Inv(r.dev) && r.dev.endmode && r.dev.endfillbytes + BlockSize == CancelFill
    ensures var res := FillStep(r); var m := RegValue(r);
      && Delta(r, res.0) == [SendFill(r.dev.endfillchar), DreqIrq(false), ReadReg(Mode, m),
                             WriteReg(Mode, m | SmCancel), DreqIrq(true)]
      && !res.1 && res.0.dev.endmode
  {
  }

  /**
   * The events of a finished drain, given the register readings `r` is about
   * to see: the endFillByte address goes to SCI_WRAMADDR, SCI_WRAM is read,
   * then SCI_MODE is read and written back with SM_RESET.
   */
  function DrainEvents(r: Run): seq<Event>
  {
    var fill := RegValue(r);
    var mode := RegValue(ReadRegister(r, Wram));
    [DreqIrq(false), WriteReg(WramAddr, EndFillByteAddr), ReadReg(Wram, fill),
     ReadReg(Mode, mode), WriteReg(Mode, mode | SmReset)]
  }

  /**
   * DrainDone logs exactly DrainEvents, takes endfillchar from the high byte
   * of the SCI_WRAM reading, stops the stream and changes nothing else in the
   * device record.
   */
  lemma DrainDoneLog(r: Run) returns (q: seq<Event>)
    ensures var s := DrainDone(r);
      && s.log == r.log + q && q == DrainEvents(r) && HardReset !in q
      && s.dev == r.dev.(endfillchar := HighByte(RegValue(r)), running := false, endmode := false)
  {
    q := DrainEvents(r);
  }

  /**
   * Between 32*65 and 32*130 the acknowledgement is polled (in SCI_STATUS):
   * the iteration logs the fill block and the STATUS read, then the drain
   * events exactly when the SM_CANCEL bit reads clear and nothing otherwise,
   * so SM_CANCEL is not requested again and the chip is not hard-reset.
   */
  lemma FillPollsCancel(r: Run)
    requires Inv(r.dev) && r.dev.endmode
    requires CancelFill < r.dev.endfillbytes + BlockSize < FillCeiling
    ensures var res := FillStep(r); var m := RegValue(r);
      && Delta(r, res.0) == [SendFill(r.dev.endfillchar), ReadReg(Status, m)]
                            + (if m & SmCancel == 0 then DrainEvents(ReadRegister(r, Status)) else [])
      && (res.1 <==> m & SmCancel == 0)
      && (res.1 ==> !res.0.dev.running && !res.0.dev.endmode)
      && (!res.1 ==> res.0.dev.endmode && res.0.dev.endfillbytes == r.dev.endfillbytes + BlockSize)
      && HardReset !in Delta(r, res.0)
  {
    var s := FillStep(r).0;
    var r1 := Emit(r, [SendFill(r.dev.endfillchar)]).(dev := r.dev.(endfillbytes := r.dev.endfillbytes + BlockSize));
    assert FillStep(r) == DrainCheck(r1);
    assert RegValue(r1) == RegValue(r);
    var r2 := ReadRegister(r1, Status);
    assert DrainCheck(r1) == if RegValue(r) & SmCancel == 0 then (DrainDone(r2), true) else (r2, false);
    assert Delta(r, r2) == [SendFill(r.dev.endfillchar), ReadReg(Status, RegValue(r))];
    if RegValue(r) & SmCancel == 0 {
      var q := DrainDoneLog(r2);
      assert r2.env == ReadRegister(r, Status).env;
      assert s.log == r2.log + q;
      assert Delta(r, s) == Delta(r, r2) + q;
    }
  }


  /** At 32*130 or more the chip is hard-reset and both running and endmode are cleared. */
  lemma FillHitsCeiling(r: Run)
    requires Inv(r.dev) && r.dev.endmode && r.dev.endfillbytes + BlockSize >= FillCeiling
    ensures var res := FillStep(r);
      && Delta(r, res.0) == [SendFill(r.dev.endfillchar), DreqIrq(false), HardReset]
      && res.1 && !res.0.dev.running && !res.0.dev.endmode
  {
  }

  /**
   * An exhausted buffer: a short one (nbytes != nmaxbytes) starts the drain
   * with the counter at 0, or at 32*65+1 when a stop is in progress; every
   * exhausted buffer is then reported with exactly one DEQUEUE, except a
   * short one during a stop, which is kept and not reported.
   */
  lemma ExhaustedBuffer(r: Run)
    requires Inv(r.dev) && r.dev.pBuf.Some? && r.dev.pBuf.value.curbyte >= r.dev.pBuf.value.nbytes
    ensures var s := EndOfBuffer(r).0; var b := r.dev.pBuf.value;
      var short := b.nbytes != b.nmaxbytes;
      && r.log <= s.log
      && (short ==> s.dev.endmode && s.dev.endfillbytes == (if r.dev.cancelmode then LateDrainStart else 0)
                    && s.dev.endfillchar == HighByte(RegValue(r)))
      && (!short ==> s.dev.endmode == r.dev.endmode && s.dev.endfillbytes == r.dev.endfillbytes)
      && Dequeued(Delta(r, s)) == (if short && r.dev.cancelmode then [] else [b.id])
      && (short && r.dev.cancelmode ==> s.dev.pBuf == r.dev.pBuf && s.dev.apbq == r.dev.apbq)
  {
    var b := r.dev.pBuf.value;
    var id := b.id;
    if b.nbytes != b.nmaxbytes {
      var r1 := LoadEndFill(r);
      assert Delta(r, r1) == [DreqIrq(false), WriteReg(WramAddr, EndFillByteAddr), ReadReg(Wram, RegValue(r)), DreqIrq(true)];
      QuietProjections(Delta(r, r1));
      if !r.dev.cancelmode {
        NextBufferReports(r1);
        DeltaSplit(r, r1, EndOfBuffer(r).0);
        ProjectAppend(Delta(r, r1), Delta(r1, EndOfBuffer(r).0), DequeuedId);
      }
    } else {
      NextBufferReports(r);
    }
  }

  lemma NextBufferReports(r: Run)
    requires Inv(r.dev) && r.dev.pBuf.Some?
    ensures var s := NextBuffer(r).0;
      && r.log <= s.log && Dequeued(Delta(r, s)) == [r.dev.pBuf.value.id]
      && s.dev.endmode == r.dev.endmode && s.dev.endfillbytes == r.dev.endfillbytes
      && s.dev.endfillchar == r.dev.endfillchar
  {
    var s := NextBuffer(r).0;
    var id := r.dev.pBuf.value.id;
    var post := if !SemOk(r) then [Callback(IoErr)] else if r.dev.apbq == [] then [] else [Reference(Some(r.dev.apbq[0].id))];
    if SemOk(r) && r.dev.apbq != [] {
      NextBufferPopped(r);
    } else if SemOk(r) {
      NextBufferEmptied(r);
    }
    assert s.log == r.log + [Free(id), Callback(Dequeue(id))] + post;
    assert Delta(r, s) == [Free(id)] + [Callback(Dequeue(id))] + post;
    OneLoud([Free(id)], Callback(Dequeue(id)), post);
  }

  /** Once SM_CANCEL reads back clear, CancelCheck empties the current buffer and nothing else. */
  lemma CancelCheckCuts(r: Run)
    requires Inv(r.dev) && r.dev.pBuf.Some? && RegValue(r) & SmCancel == 0
    ensures var s := CancelCheck(r); var b := r.dev.pBuf.value;
      && s.dev == r.dev.(pBuf := Some(b.(curbyte := 0, nbytes := 0)))
  {
    assert RegValue(Emit(r, [DreqIrq(false)])) == RegValue(r);
  }

  lemma LoadEndFillDev(r: Run)
    requires Inv(r.dev)
    ensures LoadEndFill(r).dev == r.dev.(endfillchar := LoadEndFill(r).dev.endfillchar, endmode := true,
                                         endfillbytes := if r.dev.cancelmode then LateDrainStart else 0)
  {
  }

  /** Replacing the active buffer by a well-formed one keeps the invariant. */
  lemma InvWithBuffer(d: Dev, b: ApBuffer)
    requires Inv(d) && WellFormed(b)
    ensures Inv(d.(pBuf := Some(b)))
  {
  }

  /**
   * A stop caught mid-buffer: once SM_CANCEL reads clear after a block, the
   * active buffer is cut to nothing and the late drain starts, with no
   * DEQUEUE and the queue untouched.
   */
  lemma CancelCutsBuffer(r: Run)
    requires Inv(r.dev) && r.dev.pBuf.Some? && r.dev.cancelmode
    requires RegValue(r) & SmCancel == 0 && r.dev.pBuf.value.nmaxbytes > 0
    ensures var res := DataStep(r); var b := r.dev.pBuf.value;
      && !res.1 && res.0.dev.endmode && res.0.dev.endfillbytes == LateDrainStart
      && res.0.dev.pBuf == Some(b.(curbyte := 0, nbytes := 0)) && res.0.dev.apbq == r.dev.apbq
      && Dequeued(Delta(r, res.0)) == []
  {
    var s := DataStep(r).0;
    var b := r.dev.pBuf.value;
    var k := Min(BlockSize, b.nbytes - b.curbyte);
    var r1 := Transmit(r);
    assert r1.dev == r.dev.(pBuf := Some(b.(curbyte := b.curbyte + k)));
    assert DataStep(r).0 == EndOfBuffer(CancelCheck(r1)).0;
    var r2 := CancelCheck(r1);
    CancelCheckCuts(r1);
    assert EndOfBuffer(r2) == (LoadEndFill(r2), false);
    LoadEndFillDev(r2);
    CancelCutLog(r, r1, r2, s);
  }

  /** CancelCheck logs only the SCI_MODE read between interrupt toggles. */
  lemma CancelCheckLog(r: Run) returns (q: seq<Event>)
    requires Inv(r.dev) && r.dev.pBuf.Some?
    ensures CancelCheck(r).log == r.log + q && Quiet(q)
  {
    q := [DreqIrq(false), ReadReg(Mode, RegValue(r)), DreqIrq(true)];
  }

  /** LoadEndFill logs only the endFillByte read between interrupt toggles. */
  lemma LoadEndFillLog(r: Run) returns (q: seq<Event>)
    requires Inv(r.dev)
    ensures LoadEndFill(r).log == r.log + q && Quiet(q)
  {
    q := [DreqIrq(false), WriteReg(WramAddr, EndFillByteAddr), ReadReg(Wram, RegValue(r)), DreqIrq(true)];
  }

  lemma CancelCutLog(r: Run, r1: Run, r2: Run, s: Run)
    requires Inv(r.dev) && Inv(r1.dev) && r1.dev.pBuf.Some? && r1.dev.cancelmode
    requires |r1.log| == |r.log| + 1 && r.log < r1.log && r1.log[|r.log|].SendBlock?
    requires r2 == CancelCheck(r1) && s == LoadEndFill(r2)
    ensures r.log <= s.log && Dequeued(Delta(r, s)) == []
  {
    var q1 := CancelCheckLog(r1);
    var q2 := LoadEndFillLog(r2);
    assert s.log == r1.log + q1 + q2;
    assert Delta(r, s) == [] + [r1.log[|r.log|]] + (q1 + q2);
    OneLoud([], r1.log[|r.log|], q1 + q2);
  }

  // ---------------------------------------------------------------------
  // vs1053_workerthread

  /** From `r` to `s`: nothing completed, queue locks still granted, queue state unchanged. */
  ghost predicate Calm(r: Run, s: Run)
  {
    && r.log <= s.log && Completions(Delta(r, s)) == 0
    && (AllSemOk(r.env) ==> AllSemOk(s.env)) && s.dev.mqOpen == r.dev.mqOpen
  }

  lemma CalmTrans(a: Run, b: Run, c: Run)
    requires Calm(a, b) && Calm(b, c)
    ensures Calm(a, c)
  {
    DeltaSplit(a, b, c);
    ProjectAppend(Delta(a, b), Delta(b, c), Completion);
  }

  lemma Still(r: Run, s: Run)
    requires s.log == r.log && s.env.semOk == r.env.semOk && s.dev.mqOpen == r.dev.mqOpen
    ensures Calm(r, s)
  {
    assert Delta(r, s) == [];
  }

  lemma FeedCalm(r: Run)
    requires Inv(r.dev)
    ensures Calm(r, Feed(r))
  {
    FeedAccounts(r);
  }

  lemma HandleMsgCalm(r: Run, msg: Msg)
    requires Inv(r.dev)
    ensures Calm(r, HandleMsg(r, msg))
  {
    match msg
    case DataRequest => FeedCalm(r);
    case StopRequest =>
      var s := StopStep(r);
      var m := RegValue(r);
      assert Delta(r, s) == [DreqIrq(false), BusLock, ReadReg(Mode, m), WriteReg(Mode, m | SmCancel), BusUnlock, DreqIrq(true)];
      QuietProjections(Delta(r, s));
    case _ => Still(r, r);
  }

  /** The message loop ends with `running` clear and reports no completion. */
  lemma {:induction false} WorkLoopEnds(r: Run)
    requires Inv(r.dev)
    ensures Calm(r, WorkLoop(r)) && !WorkLoop(r).dev.running
    decreases |r.env.inbox|
  {
    if r.dev.running || r.dev.endmode {
      var r0 := AfterDreq(r);
      Still(r, r0);
      var r1 := if Dreq(r) then Feed(r0) else r0;
      if Dreq(r) {
        FeedCalm(r0);
        CalmTrans(r, r0, r1);
      }
      if |r1.env.inbox| == 0 {
        Still(r1, WorkLoop(r));
        CalmTrans(r, r1, WorkLoop(r));
      } else {
        var r2 := r1.(env := r1.env.(inbox := r1.env.inbox[1..]));
        Still(r1, r2);
        CalmTrans(r, r1, r2);
        var r3 := HandleMsg(r2, r1.env.inbox[0]);
        HandleMsgCalm(r2, r1.env.inbox[0]);
        CalmTrans(r, r2, r3);
        WorkLoopEnds(r3);
        CalmTrans(r, r3, WorkLoop(r3));
      }
    } else {
      Still(r, r);
    }
  }

  /**
   * Over a whole message loop that starts outside cancel mode and receives no
   * STOP, nothing is dropped: the audio sent is the start of what was pending,
   * in order, and with every queue lock granted the buffers are reported in
   * FIFO order.
   */
  lemma {:induction false} WorkLoopAccounts(r: Run)
    requires Inv(r.dev) && !r.dev.cancelmode && StopRequest !in r.env.inbox
    ensures Accounts(r, WorkLoop(r), []) && !WorkLoop(r).dev.cancelmode
    decreases |r.env.inbox|
  {
    if r.dev.running || r.dev.endmode {
      var r0 := AfterDreq(r);
      QuietAccounts(r, r0);
      var r1 := if Dreq(r) then Feed(r0) else r0;
      if Dreq(r) {
        FeedAccounts(r0);
        var d :| Accounts(r0, r1, d);
        assert d == [];
        AccountsTrans(r, r0, r1, [], []);
      }
      assert Accounts(r, r1, []) && r1.env.inbox == r.env.inbox;
      if |r1.env.inbox| == 0 {
        var s := WorkLoop(r);
        QuietAccounts(r1, s);
        AccountsTrans(r, r1, s, [], []);
      } else {
        var msg := r1.env.inbox[0];
        var r2 := r1.(env := r1.env.(inbox := r1.env.inbox[1..]));
        QuietAccounts(r1, r2);
        AccountsTrans(r, r1, r2, [], []);
        var r3 := HandleMsg(r2, msg);
        if msg.DataRequest? {
          FeedAccounts(r2);
          var d :| Accounts(r2, r3, d);
          assert d == [];
        } else {
          assert r3 == r2;
          QuietAccounts(r2, r3);
        }
        AccountsTrans(r, r2, r3, [], []);
        assert StopRequest !in r3.env.inbox;
        WorkLoopAccounts(r3);
        AccountsTrans(r, r3, WorkLoop(r3), [], []);
      }
    } else {
      QuietAccounts(r, r);
    }
  }

  /**
   * Teardown reports exactly one completion, as its last act; it empties the
   * queue when the queue lock is granted, but frees at most the active
   * buffer: queued buffers are dropped without apb_free.
   */
  lemma TeardownEnds(r: Run)
    ensures var s := Teardown(r);
      && r.log <= s.log && Completions(Delta(r, s)) == 1 && s.log[|s.log| - 1] == Callback(Complete)
      && s.dev.pBuf.None? && !s.dev.mqOpen && s.dev.running == r.dev.running
      && (SemOk(r) ==> s.dev.apbq == []) && (!SemOk(r) ==> s.dev.apbq == r.dev.apbq)
      && (forall e :: e in Delta(r, s) && e.Free? ==> r.dev.pBuf.Some? && e.id == r.dev.pBuf.value.id)
  {
    var s := Teardown(r);
    var pre := TeardownShape(r);
    assert Delta(r, s) == pre + [Callback(Complete)] + [];
    OneLoud(pre, Callback(Complete), []);
  }

  /** Teardown logs the interrupt disable, the release of the active buffer, then COMPLETE. */
  lemma TeardownShape(r: Run) returns (pre: seq<Event>)
    ensures pre == if r.dev.pBuf.Some? then [DreqIrq(false), Free(r.dev.pBuf.value.id)] else [DreqIrq(false)]
    ensures Teardown(r).log == r.log + pre + [Callback(Complete)]
    ensures Teardown(r).dev == r.dev.(apbq := if SemOk(r) then [] else r.dev.apbq, pBuf := None, mqOpen := false)
  {
    pre := if r.dev.pBuf.Some? then [DreqIrq(false), Free(r.dev.pBuf.value.id)] else [DreqIrq(false)];
    assert SemOk(Emit(r, [DreqIrq(false)])) == SemOk(r);
  }


  /**
   * vs1053_workerthread always ends with no active buffer, `running` clear,
   * the message queue closed and exactly one COMPLETE, reported last; when
   * every queue lock is granted the queue is empty too.
   */
  lemma WorkerEnds(r: Run)
    requires Inv(r.dev)
    ensures var s := Worker(r);
      && s.dev.pBuf.None? && !s.dev.running && !s.dev.mqOpen
      && r.log <= s.log && Completions(Delta(r, s)) == 1 && s.log[|s.log| - 1] == Callback(Complete)
      && (AllSemOk(r.env) ==> s.dev.apbq == [])
  {
    var r0 := r.(dev := r.dev.(cancelmode := false, endmode := false, endfillbytes := 0));
    Still(r, r0);
    var r1 := Feed(r0);
    FeedCalm(r0);
    CalmTrans(r, r0, r1);
    var r2 := WaitDreq(r1, DreqWaitPolls);
    Still(r1, r2);
    CalmTrans(r, r1, r2);
    var r3 := Emit(r2, [DreqIrq(true)]).(dev := r2.dev.(running := true));
    assert Delta(r2, r3) == [DreqIrq(true)];
    QuietProjections(Delta(r2, r3));
    CalmTrans(r, r2, r3);
    var w := WorkLoop(r3);
    WorkLoopEnds(r3);
    CalmTrans(r, r3, w);
    var s := Teardown(w);
    TeardownEnds(w);
    DeltaSplit(r, w, s);
    ProjectAppend(Delta(r, w), Delta(w, s), Completion);
    if AllSemOk(r.env) {
      assert SemOk(w);
    }
  }

  /**
   * A worker whose message loop receives no STOP drops nothing up to its
   * teardown: from the state with the stream flags reset, the audio sent is
   * the start of what was pending, in order, and with every queue lock
   * granted the buffers are reported in FIFO order.
   */
  lemma WorkerAccounts(r: Run)
    requires Inv(r.dev) && StopRequest !in r.env.inbox
    ensures var r0 := r.(dev := r.dev.(cancelmode := false, endmode := false, endfillbytes := 0));
      exists w :: Worker(r) == Teardown(w) && Accounts(r0, w, [])
  {
    var r0 := r.(dev := r.dev.(cancelmode := false, endmode := false, endfillbytes := 0));
    var r1 := Feed(r0);
    FeedAccounts(r0);
    var d :| Accounts(r0, r1, d);
    assert d == [];
    var r2 := WaitDreq(r1, DreqWaitPolls);
    QuietAccounts(r1, r2);
    AccountsTrans(r0, r1, r2, [], []);
    var r3 := Emit(r2, [DreqIrq(true)]).(dev := r2.dev.(running := true));
    assert Delta(r2, r3) == [DreqIrq(true)];
    QuietAccounts(r2, r3);
    AccountsTrans(r0, r2, r3, [], []);
    var w := WorkLoop(r3);
    WorkLoopAccounts(r3);
    AccountsTrans(r0, r3, w, [], []);
    assert Worker(r) == Teardown(w);
  }
}
