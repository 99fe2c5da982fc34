/**
 * The VS1053 driver object (struct vs1053_struct_s and the functions of
 * drivers/audio/vs1053.c that update it in place). Each method is proved to
 * leave the object in the configuration the matching function of
 * Vs1053Feed, Vs1053Control or Vs1053Levels computes, so everything proved
 * about those functions holds of the driver.
 */
module Vs1053Driver {
  import opened Wrappers
  import opened Vs1053Feed
  import opened Vs1053Control
  import opened Vs1053Levels

  class Vs1053 {
    // The device record.
    var pBuf: Option<ApBuffer>
    var apbq: seq<ApBuffer>
    var running: bool
    var paused: bool
    var endmode: bool
    var cancelmode: bool
    var endfillbytes: nat
    var endfillchar: bv8
    var mqOpen: bool
    var volume: int16
    var balance: int16
    var bass: uint8
    var treble: uint8

    // What the hardware and the OS will answer: DREQ levels, SCI register
    // values, sem_wait outcomes, and the worker's message queue.
    var dreq: seq<bool>
    var regIn: seq<bv16>
    var semOk: seq<bool>
    var inbox: seq<Msg>

    /** Everything the driver has done on the bus and towards the upper half. */
    ghost var log: seq<Event>

    ghost function Config(): Run
      reads this
    {
      Run(Dev(pBuf, apbq, running, paused, endmode, cancelmode, endfillbytes, endfillchar, mqOpen),
          Env(dreq, regIn, semOk, inbox), log)
    }

    /** The volume, balance and tone settings, which only the level setters touch. */
    ghost function Settings(): (int16, int16, uint8, uint8)
      reads this
    {
      (volume, balance, bass, treble)
    }

    // -------------------------------------------------------------------
    // Hardware and OS primitives

    /** hw_lower->read_dreq */
    method ReadDreq() returns (level: bool)
      modifies this
      ensures level == Dreq(old(Config()))
      ensures Config() == AfterDreq(old(Config())) && Settings() == old(Settings())
    {
      level := |dreq| > 0 && dreq[0];
      dreq := Drop1(dreq);
    }

    /** vs1053_readreg */
    method SciRead(reg: Reg) returns (v: bv16)
      modifies this
      ensures v == RegValue(old(Config()))
      ensures Config() == ReadRegister(old(Config()), reg) && Settings() == old(Settings())
    {
      v := if |regIn| > 0 then regIn[0] else 0;
      regIn := Drop1(regIn);
      log := log + [ReadReg(reg, v)];
    }

    /** sem_wait on the queue semaphore */
    method SemWait() returns (ok: bool)
      modifies this
      ensures ok == SemOk(old(Config()))
      ensures Config() == AfterSem(old(Config())) && Settings() == old(Settings())
    {
      ok := |semOk| == 0 || semOk[0];
      semOk := Drop1(semOk);
    }

    /** Bus transfers, interrupt control and upper-half callbacks, in order. */
    method Io(evs: seq<Event>)
      modifies this
      ensures Config() == Emit(old(Config()), evs) && Settings() == old(Settings())
    {
      log := log + evs;
    }

    // -------------------------------------------------------------------
    // vs1053_feeddata

    method FeedData()
      requires Inv(Config().dev)
      modifies this
      ensures Config() == Feed(old(Config())) && Settings() == old(Settings())
    {
      var level := ReadDreq();
      if !level || paused {
        return;
      }
      Io([BusLock, DataSelect(true)]);
      if pBuf.None? && !endmode {
        Io([DataSelect(false), BusUnlock]);
        return;
      }
      ghost var target := Pump(Config());
      while true
        invariant Pumpable(Config().dev) && Pump(Config()) == target
        invariant Settings() == old(Settings())
        decreases |dreq|
      {
        ghost var before := Config();
        level := ReadDreq();
        if !level {
          break;
        }
        var done;
        if endmode {
          done := FillBlock();
        } else {
          done := DataBlock();
        }
        assert (Config(), done) == Step(AfterDreq(before));
        if done {
          break;
        }
      }
      Io([DataSelect(false), BusUnlock]);
    }

    /** End mode: 32 fill bytes, then the drain thresholds. */
    method FillBlock() returns (done: bool)
      requires Inv(Config().dev) && endmode
      modifies this
      ensures (Config(), done) == FillStep(old(Config())) && Settings() == old(Settings())
    {
      Io([SendFill(endfillchar)]);
      endfillbytes := endfillbytes + BlockSize;
      done := CheckDrain();
    }

    method CheckDrain() returns (done: bool)
      requires BuffersOk(Config().dev) && endmode && endfillbytes < FillCeiling + BlockSize
      modifies this
      ensures (Config(), done) == DrainCheck(old(Config())) && Settings() == old(Settings())
    {
      done := false;
      if endfillbytes == CancelFill {
        Io([DreqIrq(false)]);
        var reg := SciRead(Mode);
        Io([WriteReg(Mode, reg | SmCancel), DreqIrq(true)]);
      } else if endfillbytes >= FillCeiling {
        Io([DreqIrq(false), HardReset]);
        running := false;
        endmode := false;
        done := true;
      } else if endfillbytes > CancelFill {
        var status := SciRead(Status);
        if status & SmCancel == 0 {
          FinishDrain();
          done := true;
        }
      }
    }

    /** SM_CANCEL has cleared: fetch endfillchar, soft-reset the decoder, stop. */
    method FinishDrain()
      modifies this
      ensures Config() == DrainDone(old(Config())) && Settings() == old(Settings())
    {
      Io([DreqIrq(false), WriteReg(WramAddr, EndFillByteAddr)]);
      var fill := SciRead(Wram);
      endfillchar := HighByte(fill);
      var reg := SciRead(Mode);
      Io([WriteReg(Mode, reg | SmReset)]);
      running := false;
      endmode := false;
    }

    /** Data mode: one block of at most 32 bytes from the cursor, then the buffer checks. */
    method DataBlock() returns (done: bool)
      requires Inv(Config().dev) && pBuf.Some?
      modifies this
      ensures (Config(), done) == DataStep(old(Config())) && Settings() == old(Settings())
    {
      ghost var r := Config();
      TransmitBlock();
      ghost var r1 := Config();
      if cancelmode {
        CancelPoll();
      }
      assert Config() == if r.dev.cancelmode then CancelCheck(r1) else r1;
      done := FinishBuffer();
    }

    /** `SPI_SNDBLOCK` of min(32, nbytes - curbyte) bytes from the cursor, which then moves past them. */
    method TransmitBlock()
      requires Inv(Config().dev) && pBuf.Some?
      modifies this
      ensures Config() == Transmit(old(Config()))
      ensures Inv(Config().dev) && pBuf.Some? && Settings() == old(Settings())
    {
      var b := pBuf.value;
      var bytecount := b.nbytes - b.curbyte;
      if bytecount > 32 {
        bytecount := 32;
      }
      Io([SendBlock(b.samp[b.curbyte .. b.curbyte + bytecount])]);
      pBuf := Some(b.(curbyte := b.curbyte + bytecount));
    }

    /** Cancel mode: read SCI_MODE; once SM_CANCEL has cleared, truncate the buffer. */
    method CancelPoll()
      requires Inv(Config().dev) && pBuf.Some?
      modifies this
      ensures Config() == CancelCheck(old(Config())) && Settings() == old(Settings())
    {
      Io([DreqIrq(false)]);
      var reg := SciRead(Mode);
      Io([DreqIrq(true)]);
      if reg & SmCancel == 0 {
        pBuf := Some(pBuf.value.(curbyte := 0, nbytes := 0));
      }
    }

    /** The end-of-buffer test, the end-mode switch and the move to the next buffer. */
    method FinishBuffer() returns (done: bool)
      requires Inv(Config().dev) && pBuf.Some?
      modifies this
      ensures (Config(), done) == EndOfBuffer(old(Config())) && Settings() == old(Settings())
    {
      var b := pBuf.value;
      if b.curbyte < b.nbytes {
        return false;
      }
      if b.nbytes != b.nmaxbytes {
        LoadFill();
        if cancelmode {
          return false;
        }
      }
      done := PopNext();
    }

    /** A short buffer is the last: fetch endFillByte and enter end mode. */
    method LoadFill()
      requires Inv(Config().dev)
      modifies this
      ensures Config() == LoadEndFill(old(Config())) && Settings() == old(Settings())
    {
      Io([DreqIrq(false), WriteReg(WramAddr, EndFillByteAddr)]);
      var fill := SciRead(Wram);
      endfillchar := HighByte(fill);
      Io([DreqIrq(true)]);
      endmode := true;
      if cancelmode {
        endfillbytes := LateDrainStart;
      } else {
        endfillbytes := 0;
      }
    }

    /** Free and report the finished buffer; pop the next one under the queue lock. */
    method PopNext() returns (done: bool)
      requires Inv(Config().dev) && pBuf.Some?
      modifies this
      ensures (Config(), done) == NextBuffer(old(Config())) && Settings() == old(Settings())
    {
      var id := pBuf.value.id;
      Io([Free(id), Callback(Dequeue(id))]);
      var ok := SemWait();
      if !ok {
        Io([Callback(IoErr)]);
        return true;
      }
      if apbq == [] {
        pBuf := None;
        return true;
      }
      var next := apbq[0];
      apbq := apbq[1..];
      pBuf := Some(next);
      Io([Reference(Some(next.id))]);
      done := false;
    }

    // -------------------------------------------------------------------
    // vs1053_workerthread

    method WorkerThread()
      requires Inv(Config().dev)
      modifies this
      ensures Config() == Worker(old(Config())) && Settings() == old(Settings())
    {
      Prime();
      ghost var r2 := Config();
      running := true;
      Io([DreqIrq(true)]);
      assert Config() == Emit(r2, [DreqIrq(true)]).(dev := r2.dev.(running := true));
      MessageLoop();
      Shutdown();
    }

    /** Reset the stream flags, fill the FIFO, and wait for DREQ. */
    method Prime()
      requires Inv(Config().dev)
      modifies this
      ensures var r := old(Config());
        Config() == WaitDreq(Feed(r.(dev := r.dev.(cancelmode := false, endmode := false, endfillbytes := 0))), DreqWaitPolls)
      ensures Settings() == old(Settings())
    {
      ResetStream();
      FeedData();
      AwaitDreq();
    }

    /** `cancelmode = endmode = false; endfillbytes = 0;` */
    method ResetStream()
      requires Inv(Config().dev)
      modifies this
      ensures var r := old(Config());
        Config() == r.(dev := r.dev.(cancelmode := false, endmode := false, endfillbytes := 0))
      ensures Inv(Config().dev) && Settings() == old(Settings())
    {
      cancelmode := false;
      endmode := false;
      endfillbytes := 0;
    }

    /** `while (!read_dreq() && timeout) timeout--;` with 200 polls. */
    method AwaitDreq()
      modifies this
      ensures Config() == WaitDreq(old(Config()), DreqWaitPolls) && Settings() == old(Settings())
    {
      var timeout := DreqWaitPolls;
      ghost var waited := WaitDreq(Config(), timeout);
      while true
        invariant WaitDreq(Config(), timeout) == waited && Settings() == old(Settings())
        decreases timeout
      {
        var level := ReadDreq();
        if level || timeout == 0 {
          break;
        }
        timeout := timeout - 1;
      }
    }

    /** The loop `while (dev->running || dev->endmode)`. */
    method MessageLoop()
      requires Inv(Config().dev)
      modifies this
      ensures Config() == WorkLoop(old(Config())) && Settings() == old(Settings())
    {
      ghost var target := WorkLoop(Config());
      while running || endmode
        invariant Inv(Config().dev) && WorkLoop(Config()) == target
        invariant Settings() == old(Settings())
        decreases |inbox|
      {
        var stop := Receive();
        if stop {
          break;
        }
      }
    }

    /** One pass of the message loop: feed if DREQ is up, then take and handle one message. */
    method Receive() returns (stop: bool)
      requires Inv(Config().dev) && (running || endmode)
      modifies this
      ensures Inv(Config().dev) && Settings() == old(Settings())
      ensures stop ==> Config() == WorkLoop(old(Config()))
      ensures !stop ==> WorkLoop(Config()) == WorkLoop(old(Config())) && |inbox| < |old(inbox)|
    {
      ghost var r0 := Config();
      PollFeed();
      ghost var r1 := Config();
      if |inbox| == 0 {
        running := false;
        assert WorkLoop(r0) == r1.(dev := r1.dev.(running := false));
        return true;
      }
      var msg := inbox[0];
      inbox := inbox[1..];
      ghost var r2 := Config();
      assert r2 == r1.(env := r1.env.(inbox := r1.env.inbox[1..]));
      assert WorkLoop(r0) == WorkLoop(HandleMsg(r2, msg));
      Handle(msg);
      stop := false;
    }

    /** `if (read_dreq()) vs1053_feeddata(dev);` at the top of the loop. */
    method PollFeed()
      requires Inv(Config().dev)
      modifies this
      ensures var r := old(Config());
        Config() == if Dreq(r) then Feed(AfterDreq(r)) else AfterDreq(r)
      ensures Inv(Config().dev) && Settings() == old(Settings())
    {
      var level := ReadDreq();
      if level {
        FeedData();
      }
    }

    /** The switch on the message id. */
    method Handle(msg: Msg)
      requires Inv(Config().dev)
      modifies this
      ensures Config() == HandleMsg(old(Config()), msg) && Settings() == old(Settings())
    {
      match msg {
        case DataRequest => FeedData();
        case StopRequest => Stop();
        case _ =>
      }
    }

    /** AUDIO_MSG_STOP: SM_CANCEL through SCI_MODE, then cancel mode. */
    method Stop()
      modifies this
      ensures Config() == StopStep(old(Config())) && Settings() == old(Settings())
    {
      var level := ReadDreq();
      Io([DreqIrq(false), BusLock]);
      var reg := SciRead(Mode);
      Io([WriteReg(Mode, reg | SmCancel), BusUnlock, DreqIrq(true)]);
      cancelmode := true;
    }

    /** After the loop: drop the queue, free the active buffer, close the queue, report. */
    method Shutdown()
      modifies this
      ensures Config() == Teardown(old(Config())) && Settings() == old(Settings())
    {
      UnlinkQueued();
      ReleaseActive();
      mqOpen := false;
      Io([Callback(Complete)]);
    }

    /** Disable DREQ, then empty the queue if its lock is granted. */
    method UnlinkQueued()
      modifies this
      ensures var r1 := Emit(old(Config()), [DreqIrq(false)]); var r2 := AfterSem(r1);
        Config() == if SemOk(r1) then r2.(dev := r2.dev.(apbq := [])) else r2
      ensures Settings() == old(Settings())
    {
      Io([DreqIrq(false)]);
      var ok := SemWait();
      if ok {
        DropQueue();
      }
    }

    /** Free the active buffer, if any. */
    method ReleaseActive()
      modifies this
      ensures var r := old(Config());
        Config() == if r.dev.pBuf.Some? then Emit(r, [Free(r.dev.pBuf.value.id)]).(dev := r.dev.(pBuf := None)) else r
      ensures Settings() == old(Settings())
    {
      if pBuf.Some? {
        Io([Free(pBuf.value.id)]);
        pBuf := None;
      }
    }

    /** `while (dq_remfirst(&dev->apbq) != NULL);`: the queued buffers are unlinked, not freed. */
    method DropQueue()
      modifies this
      ensures Config() == old(Config()).(dev := old(Config()).dev.(apbq := [])) && Settings() == old(Settings())
    {
      ghost var c := Config();
      while apbq != []
        invariant Config() == c.(dev := c.dev.(apbq := apbq)) && Settings() == old(Settings())
        decreases |apbq|
      {
        apbq := apbq[1..];
      }
    }

    // -------------------------------------------------------------------
    // The lower-half entry points around the worker

    /** vs1053_enqueuebuffer */
    method EnqueueBuffer(apb: ApBuffer) returns (ret: int)
      modifies this
      ensures (Config(), ret) == Enqueue(old(Config()), apb) && Settings() == old(Settings())
    {
      var ok := SemWait();
      if !ok {
        return SemError;
      }
      apbq := apbq + [apb.(curbyte := 0)];
      if mqOpen {
        inbox := inbox + [Enqueued];
      }
      ret := Ok;
    }

    /**
     * vs1053_start from mq_open on: `mqOk` is whether the message queue was
     * created, `createRet` what pthread_create returns.
     */
    method StartPlayback(mqOk: bool, createRet: int) returns (ret: int)
      modifies this
      ensures (Config(), ret) == Start(old(Config()), mqOk, createRet) && Settings() == old(Settings())
    {
      if !mqOk {
        mqOpen := false;
        return NoMemory;
      }
      mqOpen := true;
      var ok := PopQueue();
      ret := if ok then 1 else 0;
      if ret == 0 {
        return;
      }
      ret := createRet;
    }

    /** Under the queue lock: pop the first buffer and take a reference on it. */
    method PopQueue() returns (ok: bool)
      modifies this
      ensures (Config(), ok) == StartPop(old(Config())) && Settings() == old(Settings())
    {
      ok := SemWait();
      if !ok {
        return;
      }
      if apbq == [] {
        pBuf := None;
      } else {
        pBuf := Some(apbq[0]);
        apbq := apbq[1..];
      }
      Io([Reference(if pBuf.None? then None else Some(pBuf.value.id))]);
    }

    /** vs1053_dreq_isr */
    method Isr() returns (ret: int)
      modifies this
      ensures Config() == DreqIsr(old(Config())) && Settings() == old(Settings())
      ensures ret == 0
    {
      if running {
        inbox := inbox + [DataRequest];
      }
      ret := 0;
    }

    /** vs1053_pause */
    method PausePlayback() returns (ret: int)
      modifies this
      ensures Config() == Pause(old(Config())) && Settings() == old(Settings())
      ensures ret == Ok
    {
      if !running {
        return Ok;
      }
      paused := true;
      Io([DreqIrq(false)]);
      ret := Ok;
    }

    /** vs1053_resume */
    method ResumePlayback() returns (ret: int)
      requires Inv(Config().dev)
      modifies this
      ensures Config() == Resume(old(Config())) && Settings() == old(Settings())
      ensures ret == Ok
    {
      if !running {
        return Ok;
      }
      paused := false;
      FeedData();
      Io([DreqIrq(true)]);
      ret := Ok;
    }

    // -------------------------------------------------------------------
    // vs1053_setvolume and vs1053_setbass

    /** Clamp the balance, then write both channel attenuations to SCI_VOL. */
    method SetVolume()
      modifies this
      ensures balance == ClampBalance(old(balance))
      ensures volume == old(volume) && bass == old(bass) && treble == old(treble)
      ensures Config() == Emit(old(Config()),
        [BusLock, WriteReg(Vol, VolumeWord(volume, balance) as bv16), BusUnlock])
    {
      if balance > BalanceMax {
        balance := BalanceMax;
      }
      var leftreg := LogApprox(LeftLevel(volume, balance) / 10);
      var rightreg := LogApprox(RightLevel(volume, balance) / 10);
      Io([BusLock, WriteReg(Vol, PackBytes(leftreg, rightreg) as bv16), BusUnlock]);
    }

    /** Write the bass and treble boosts, with both ranges at 15, to SCI_BASS. */
    method SetBass()
      modifies this
      ensures Config() == Emit(old(Config()), [BusLock, WriteReg(Bass, BassWord(bass, treble)), BusUnlock])
      ensures Settings() == old(Settings())
    {
      Io([BusLock, WriteReg(Bass, BassWord(bass, treble)), BusUnlock]);
    }
  }
}
