/**
 * The VS1053 streaming feed engine (drivers/audio/vs1053.c) as a pure state
 * machine.  A `Run` is one configuration: the device record, the hardware and
 * message oracles still to be consumed, and the log of everything the driver
 * has done on the bus and towards the upper half.  The functions below follow
 * vs1053_feeddata and vs1053_workerthread branch by branch; the class in
 * vs1053_driver.dfy is proved to compute exactly these functions.
 */
module Vs1053Feed {

  import opened Wrappers

  /** DREQ guarantees room for one 32-byte block. */
  const BlockSize: nat := 32
  /** Fill bytes sent before SM_CANCEL is requested (32*65). */
  const CancelFill: nat := 32 * 65
  /** Fill bytes after which the chip is hard-reset (32*130). */
  const FillCeiling: nat := 32 * 130
  /** Drain counter when a stop has already been acknowledged (32*65+1). */
  const LateDrainStart: nat := 32 * 65 + 1
  /** Number of extra DREQ polls after priming the FIFO. */
  const DreqWaitPolls: nat := 200

  /** SCI_MODE bits, at their VS1053 datasheet positions. */
  const SmReset: bv16 := 0x0004
  const SmCancel: bv16 := 0x0008
  /** Address in the VS1053 X-memory of the end-fill byte parameter. */
  const EndFillByteAddr: bv16 := 0x1e06

  /** The SCI registers the engine touches. */
  datatype Reg = Mode | Status | Wram | WramAddr | Vol | Bass

  /**
   * An audio pipeline buffer: `samp` holds `nmaxbytes` bytes of storage, of
   * which `nbytes` are valid and `curbyte` are already sent.
   */
  datatype ApBuffer = ApBuffer(id: nat, samp: seq<bv8>, curbyte: nat, nbytes: nat, nmaxbytes: nat)

  predicate WellFormed(b: ApBuffer)
  {
    b.curbyte <= b.nbytes <= b.nmaxbytes && |b.samp| == b.nmaxbytes
  }

  /** Messages the worker thread receives on its message queue. */
  datatype Msg = DataRequest | StopRequest | Enqueued | OtherMsg

  /** Upper-half callbacks. */
  datatype Upcall = Dequeue(id: nat) | IoErr | Complete

  /** What the driver does that is visible outside the device record. */
  datatype Event =
    | BusLock
    | BusUnlock
    | DataSelect(on: bool)
    | SendBlock(bytes: seq<bv8>)      // SPI_SNDBLOCK of audio data
    | SendFill(ch: bv8)               // 32 x SPI_SEND(endfillchar)
    | ReadReg(reg: Reg, value: bv16)
    | WriteReg(reg: Reg, value: bv16)
    | DreqIrq(enabled: bool)
    | HardReset
    | Reference(buf: Option<nat>)     // apb_reference; None is a NULL argument
    | Free(id: nat)                   // apb_free
    | Callback(kind: Upcall)

  /** The fields of struct vs1053_struct_s that the engine reads and writes. */
  datatype Dev = Dev(
    pBuf: Option<ApBuffer>,
    apbq: seq<ApBuffer>,
    running: bool,
    paused: bool,
    endmode: bool,
    cancelmode: bool,
    endfillbytes: nat,
    endfillchar: bv8,
    mqOpen: bool)

  /**
   * Oracles: successive DREQ levels, successive SCI register read values,
   * successive sem_wait outcomes and the messages the worker will receive.
   * An exhausted oracle reads as DREQ low, a register value of 0, a
   * successful sem_wait and an empty receive, respectively.
   */
  datatype Env = Env(dreq: seq<bool>, regIn: seq<bv16>, semOk: seq<bool>, inbox: seq<Msg>)

  datatype Run = Run(dev: Dev, env: Env, log: seq<Event>)

  /** The active buffer is well formed, and queued buffers are untouched. */
  ghost predicate BuffersOk(d: Dev)
  {
    && (d.pBuf.Some? ==> WellFormed(d.pBuf.value))
    && (forall i :: 0 <= i < |d.apbq| ==> WellFormed(d.apbq[i]) && d.apbq[i].curbyte == 0)
  }

  /** The device invariant the engine relies on and maintains. */
  ghost predicate Inv(d: Dev)
  {
    && BuffersOk(d)
    && d.endfillbytes < FillCeiling + BlockSize
    && (d.endmode ==> d.endfillbytes < FillCeiling)
  }

  /** Whether the engine may run one more loop iteration. */
  ghost predicate Pumpable(d: Dev)
  {
    Inv(d) && (d.endmode || d.pBuf.Some?)
  }

  /**
   * What one loop iteration leaves alone: the DREQ and message oracles, the
   * pause, queue and cancel flags, and everything already logged.
   */
  ghost predicate Follows(r: Run, r': Run)
  {
    && r'.env.dreq == r.env.dreq && r'.env.inbox == r.env.inbox
    && r'.dev.paused == r.dev.paused && r'.dev.mqOpen == r.dev.mqOpen
    && r'.dev.cancelmode == r.dev.cancelmode
    && r.log < r'.log
  }

  // ---------------------------------------------------------------------
  // Oracle access and logging

  function Drop1<T>(s: seq<T>): seq<T>
  {
    if |s| > 0 then s[1..] else []
  }

  function Emit(r: Run, evs: seq<Event>): Run
  {
    r.(log := r.log + evs)
  }

  /** read_dreq: the level DREQ shows now. */
  function Dreq(r: Run): bool
  {
    |r.env.dreq| > 0 && r.env.dreq[0]
  }

  function AfterDreq(r: Run): Run
  {
    r.(env := r.env.(dreq := Drop1(r.env.dreq)))
  }

  /** The value the next vs1053_readreg returns. */
  function RegValue(r: Run): bv16
  {
    if |r.env.regIn| > 0 then r.env.regIn[0] else 0
  }

  function ReadRegister(r: Run, reg: Reg): Run
  {
    r.(env := r.env.(regIn := Drop1(r.env.regIn)), log := r.log + [ReadReg(reg, RegValue(r))])
  }

  /** Whether the next sem_wait succeeds. */
  function SemOk(r: Run): bool
  {
    |r.env.semOk| == 0 || r.env.semOk[0]
  }

  function AfterSem(r: Run): Run
  {
    r.(env := r.env.(semOk := Drop1(r.env.semOk)))
  }

  function HighByte(w: bv16): bv8
  {
    (w >> 8) as bv8
  }

  function Min(a: int, b: int): int
  {
    if a <= b then a else b
  }

  // ---------------------------------------------------------------------
  // vs1053_feeddata: one iteration of the DREQ loop in end mode

  /** The drain has been acknowledged: fetch endfillchar, reset the decoder, stop. */
  function DrainDone(r: Run): Run
  {
    var r1 := Emit(r, [DreqIrq(false), WriteReg(WramAddr, EndFillByteAddr)]);
    var fill := RegValue(r1);
    var r2 := ReadRegister(r1, Wram);
    var mode := RegValue(r2);
    var r3 := ReadRegister(r2, Mode);
    Emit(r3, [WriteReg(Mode, mode | SmReset)])
      .(dev := r3.dev.(endfillchar := HighByte(fill), running := false, endmode := false))
  }

  /**
   * The threshold checks after a fill block has been counted; returns the new
   * configuration and whether the loop breaks.
   */
  function DrainCheck(r: Run): (res: (Run, bool))
    requires BuffersOk(r.dev) && r.dev.endmode && r.dev.endfillbytes < FillCeiling + BlockSize
    ensures Inv(res.0.dev) && (!res.1 ==> res.0.dev.endmode)
    ensures Follows(r, res.0) || (!res.1 && res.0 == r)
  {
    var count := r.dev.endfillbytes;
    if count == CancelFill then
      var r1 := Emit(r, [DreqIrq(false)]);
      var mode := RegValue(r1);
      var r2 := ReadRegister(r1, Mode);
      (Emit(r2, [WriteReg(Mode, mode | SmCancel), DreqIrq(true)]), false)
    else if count >= FillCeiling then
      (Emit(r, [DreqIrq(false), HardReset]).(dev := r.dev.(running := false, endmode := false)), true)
    else if count > CancelFill then
      var status := RegValue(r);
      var r1 := ReadRegister(r, Status);
      if status & SmCancel == 0 then (DrainDone(r1), true) else (r1, false)
    else
      (r, false)
  }

  /** Send one block of fill bytes and count it. */
  function FillStep(r: Run): (res: (Run, bool))
    requires Inv(r.dev) && r.dev.endmode
    ensures Inv(res.0.dev) && (!res.1 ==> res.0.dev.endmode)
    ensures Follows(r, res.0)
  {
    var r1 := Emit(r, [SendFill(r.dev.endfillchar)])
      .(dev := r.dev.(endfillbytes := r.dev.endfillbytes + BlockSize));
    DrainCheck(r1)
  }

  // ---------------------------------------------------------------------
  // vs1053_feeddata: one iteration of the DREQ loop in data mode

  /** In cancel mode: read SCI_MODE and truncate the buffer once SM_CANCEL has cleared. */
  function CancelCheck(r: Run): (r': Run)
    requires Inv(r.dev) && r.dev.pBuf.Some?
    ensures Inv(r'.dev) && r'.dev.pBuf.Some? && r'.dev.endmode == r.dev.endmode
    ensures Follows(r, r')
  {
    var r1 := Emit(r, [DreqIrq(false)]);
    var mode := RegValue(r1);
    var r2 := Emit(ReadRegister(r1, Mode), [DreqIrq(true)]);
    if mode & SmCancel == 0 then
      r2.(dev := r2.dev.(pBuf := Some(r2.dev.pBuf.value.(curbyte := 0, nbytes := 0))))
    else
      r2
  }

  /** The final, short buffer is exhausted: fetch endfillchar and enter end mode. */
  function LoadEndFill(r: Run): (r': Run)
    requires Inv(r.dev)
    ensures Inv(r'.dev) && r'.dev.endmode && r'.dev.pBuf == r.dev.pBuf
    ensures Follows(r, r')
  {
    var r1 := Emit(r, [DreqIrq(false), WriteReg(WramAddr, EndFillByteAddr)]);
    var fill := RegValue(r1);
    var r2 := Emit(ReadRegister(r1, Wram), [DreqIrq(true)]);
    r2.(dev := r2.dev.(endfillchar := HighByte(fill), endmode := true,
                       endfillbytes := if r.dev.cancelmode then LateDrainStart else 0))
  }

  /** Free and report the exhausted buffer, then pop the next one under the queue lock. */
  function NextBuffer(r: Run): (res: (Run, bool))
    requires Inv(r.dev) && r.dev.pBuf.Some?
    ensures Inv(res.0.dev) && (!res.1 ==> res.0.dev.pBuf.Some?)
    ensures Follows(r, res.0)
  {
    var id := r.dev.pBuf.value.id;
    var r1 := Emit(r, [Free(id), Callback(Dequeue(id))]);
    var ok := SemOk(r1);
    var r2 := AfterSem(r1);
    if !ok then
      (Emit(r2, [Callback(IoErr)]), true)
    else if r2.dev.apbq == [] then
      (r2.(dev := r2.dev.(pBuf := None)), true)
    else
      var next := r2.dev.apbq[0];
      (Emit(r2, [Reference(Some(next.id))]).(dev := r2.dev.(pBuf := Some(next), apbq := r2.dev.apbq[1..])), false)
  }

  function EndOfBuffer(r: Run): (res: (Run, bool))
    requires Inv(r.dev) && r.dev.pBuf.Some?
    ensures Inv(res.0.dev) && (!res.1 ==> Pumpable(res.0.dev))
    ensures Follows(r, res.0) || (!res.1 && res.0 == r)
  {
    var b := r.dev.pBuf.value;
    if b.curbyte < b.nbytes then
      (r, false)
    else if b.nbytes != b.nmaxbytes then
      var r1 := LoadEndFill(r);
      if r.dev.cancelmode then (r1, false) else NextBuffer(r1)
    else
      NextBuffer(r)
  }

  /** `SPI_SNDBLOCK` of min(32, nbytes - curbyte) bytes from the cursor, which then moves past them. */
  function Transmit(r: Run): (r': Run)
    requires Inv(r.dev) && r.dev.pBuf.Some?
    ensures Inv(r'.dev) && r'.dev.pBuf.Some? && r'.dev.endmode == r.dev.endmode
    ensures Follows(r, r')
  {
    var b := r.dev.pBuf.value;
    var count := Min(BlockSize, b.nbytes - b.curbyte);
    Emit(r, [SendBlock(b.samp[b.curbyte .. b.curbyte + count])])
      .(dev := r.dev.(pBuf := Some(b.(curbyte := b.curbyte + count))))
  }

  function DataStep(r: Run): (res: (Run, bool))
    requires Inv(r.dev) && r.dev.pBuf.Some?
    ensures Inv(res.0.dev) && (!res.1 ==> Pumpable(res.0.dev))
    ensures Follows(r, res.0)
  {
    var r1 := Transmit(r);
    var r2 := if r.dev.cancelmode then CancelCheck(r1) else r1;
    EndOfBuffer(r2)
  }

  /** One iteration of the DREQ loop; `res.1` says whether the loop is left. */
  function Step(r: Run): (res: (Run, bool))
    requires Pumpable(r.dev)
    ensures Inv(res.0.dev) && (!res.1 ==> Pumpable(res.0.dev))
    ensures Follows(r, res.0)
  {
    if r.dev.endmode then FillStep(r) else DataStep(r)
  }

  /** The loop `while (read_dreq()) { ... }`. */
  function Pump(r: Run): (r': Run)
    requires Pumpable(r.dev)
    ensures Inv(r'.dev)
    ensures r'.env.inbox == r.env.inbox && |r'.env.dreq| <= |r.env.dreq|
    ensures r'.dev.paused == r.dev.paused && r'.dev.mqOpen == r.dev.mqOpen
    ensures r'.dev.cancelmode == r.dev.cancelmode
    ensures r.log <= r'.log
    decreases |r.env.dreq|
  {
    var r1 := AfterDreq(r);
    if !Dreq(r) then r1
    else
      var res := Step(r1);
      if res.1 then res.0 else Pump(res.0)
  }

  /** vs1053_feeddata. */
  function Feed(r: Run): (r': Run)
    requires Inv(r.dev)
    ensures Inv(r'.dev)
    ensures r'.env.inbox == r.env.inbox && |r'.env.dreq| <= |r.env.dreq|
    ensures r'.dev.paused == r.dev.paused && r'.dev.mqOpen == r.dev.mqOpen
    ensures r'.dev.cancelmode == r.dev.cancelmode
    ensures r.log <= r'.log
  {
    var r1 := AfterDreq(r);
    if !Dreq(r) || r1.dev.paused then r1
    else
      var r2 := Emit(r1, [BusLock, DataSelect(true)]);
      if r2.dev.pBuf.None? && !r2.dev.endmode then Emit(r2, [DataSelect(false), BusUnlock])
      else Emit(Pump(r2), [DataSelect(false), BusUnlock])
  }

  // ---------------------------------------------------------------------
  // vs1053_workerthread

  /** `while (!read_dreq() && timeout) timeout--;` */
  function WaitDreq(r: Run, timeout: nat): (r': Run)
    ensures r' == r.(env := r.env.(dreq := r'.env.dreq))
    decreases timeout
  {
    var r1 := AfterDreq(r);
    if Dreq(r) || timeout == 0 then r1 else WaitDreq(r1, timeout - 1)
  }

  /** AUDIO_MSG_STOP: request SM_CANCEL from the decoder and enter cancel mode. */
  function StopStep(r: Run): Run
  {
    var r1 := AfterDreq(r);
    var r2 := Emit(r1, [DreqIrq(false), BusLock]);
    var mode := RegValue(r2);
    var r3 := ReadRegister(r2, Mode);
    Emit(r3, [WriteReg(Mode, mode | SmCancel), BusUnlock, DreqIrq(true)])
      .(dev := r3.dev.(cancelmode := true))
  }

  function HandleMsg(r: Run, msg: Msg): (r': Run)
    requires Inv(r.dev)
    ensures Inv(r'.dev) && r'.env.inbox == r.env.inbox && r.log <= r'.log
  {
    match msg
    case DataRequest => Feed(r)
    case StopRequest => StopStep(r)
    case _ => r
  }

  /** The message loop `while (dev->running || dev->endmode)`. */
  function WorkLoop(r: Run): (r': Run)
    requires Inv(r.dev)
    ensures Inv(r'.dev) && r.log <= r'.log
    decreases |r.env.inbox|
  {
    if !(r.dev.running || r.dev.endmode) then r
    else
      var r1 := if Dreq(r) then Feed(AfterDreq(r)) else AfterDreq(r);
      if |r1.env.inbox| == 0 then
        r1.(dev := r1.dev.(running := false))
      else
        var msg := r1.env.inbox[0];
        var r2 := r1.(env := r1.env.(inbox := r1.env.inbox[1..]));
        WorkLoop(HandleMsg(r2, msg))
  }

  /** After the loop: drop the queue, free the active buffer, close the queue, report. */
  function Teardown(r: Run): Run
  {
    var r1 := Emit(r, [DreqIrq(false)]);
    var ok := SemOk(r1);
    var r2 := AfterSem(r1);
    var r3 := if ok then r2.(dev := r2.dev.(apbq := [])) else r2;
    var r4 := if r3.dev.pBuf.Some? then
                Emit(r3, [Free(r3.dev.pBuf.value.id)]).(dev := r3.dev.(pBuf := None))
              else r3;
    Emit(r4, [Callback(Complete)]).(dev := r4.dev.(mqOpen := false))
  }

  /** vs1053_workerthread from entry to exit. */
  function Worker(r: Run): Run
    requires Inv(r.dev)
  {
    var r0 := r.(dev := r.dev.(cancelmode := false, endmode := false, endfillbytes := 0));
    var r1 := Feed(r0);
    var r2 := WaitDreq(r1, DreqWaitPolls);
    var r3 := Emit(r2, [DreqIrq(true)]).(dev := r2.dev.(running := true));
    Teardown(WorkLoop(r3))
  }
}
