/**
 * The VS1053 operations around the feed engine (drivers/audio/vs1053.c):
 * enqueueing a buffer, the first pop in vs1053_start, the DREQ interrupt
 * handler, pause and resume, as functions of a `Run`.
 */
module Vs1053Control {
  import opened Wrappers
  import opened Vs1053Feed
  import opened Vs1053FeedProps

  const Ok: int := 0
  /** What a failed sem_wait returns (ERROR). */
  const SemError: int := -1
  /** -ENOMEM */
  const NoMemory: int := -12

  // ---------------------------------------------------------------------
  // vs1053_enqueuebuffer

  /**
   * Under the queue lock, rewind the buffer and append it to the queue,
   * then tell the worker if its message queue exists. A refused lock
   * changes nothing and is returned.
   */
  function Enqueue(r: Run, apb: ApBuffer): (Run, int)
  {
    var ok := SemOk(r);
    var r1 := AfterSem(r);
    if !ok then (r1, SemError)
    else
      var inbox := if r1.dev.mqOpen then r1.env.inbox + [Enqueued] else r1.env.inbox;
      (r1.(dev := r1.dev.(apbq := r1.dev.apbq + [apb.(curbyte := 0)]), env := r1.env.(inbox := inbox)), Ok)
  }

  /**
   * A granted enqueue appends the rewound buffer at the tail, leaves every
   * queued buffer where it was and posts ENQUEUE exactly when the message
   * queue is open; a refused one changes nothing but the lock oracle.
   */
  lemma EnqueueAppends(r: Run, apb: ApBuffer)
    ensures var (s, ret) := Enqueue(r, apb);
      && (ret == Ok <==> SemOk(r))
      && (ret != Ok ==> ret == SemError && s.dev == r.dev && s.env.inbox == r.env.inbox)
      && (ret == Ok ==>
            && s.dev == r.dev.(apbq := r.dev.apbq + [apb.(curbyte := 0)])
            && Ids(s.dev.apbq) == Ids(r.dev.apbq) + [apb.id]
            && s.env.inbox == r.env.inbox + (if r.dev.mqOpen then [Enqueued] else []))
      && s.log == r.log
  {
    if SemOk(r) {
      IdsAppend(r.dev.apbq, apb.(curbyte := 0));
    }
  }

  lemma {:induction false} IdsAppend(q: seq<ApBuffer>, b: ApBuffer)
    ensures Ids(q + [b]) == Ids(q) + [b.id]
  {
    if q != [] {
      assert (q + [b])[1..] == q[1..] + [b];
      IdsAppend(q[1..], b);
    }
  }

  /** Enqueueing a well-formed buffer keeps the device invariant. */
  lemma EnqueueKeepsInv(r: Run, apb: ApBuffer)
    requires Inv(r.dev) && WellFormed(apb.(curbyte := 0))
    ensures Inv(Enqueue(r, apb).0.dev)
  {
    var q := r.dev.apbq + [apb.(curbyte := 0)];
    assert forall i :: 0 <= i < |r.dev.apbq| ==> q[i] == r.dev.apbq[i];
  }

  // ---------------------------------------------------------------------
  // vs1053_start: message queue creation and the first pop

  /**
   * The first pop, under the queue lock: the head becomes the active
   * buffer and is referenced, even when the queue is empty and the head is
   * NULL. The flag says whether the lock was granted.
   */
  function StartPop(r: Run): (Run, bool)
  {
    var ok := SemOk(r);
    var r1 := AfterSem(r);
    if !ok then (r1, false)
    else if r1.dev.apbq == [] then
      (Emit(r1, [Reference(None)]).(dev := r1.dev.(pBuf := None)), true)
    else
      var head := r1.dev.apbq[0];
      (Emit(r1, [Reference(Some(head.id))]).(dev := r1.dev.(pBuf := Some(head), apbq := r1.dev.apbq[1..])), true)
  }

  /**
   * vs1053_start from creating the message queue to creating the worker,
   * with the status a refused queue lock makes it return: `semFailRet`.
   * `mqOk` is whether mq_open succeeded and `createRet` what
   * pthread_create returns.  A failed mq_open still stores its NULL result
   * in the device, so any queue handle left open by an earlier start is lost.
   */
  function StartWith(r: Run, mqOk: bool, createRet: int, semFailRet: int): (Run, int)
  {
    if !mqOk then (r.(dev := r.dev.(mqOpen := false)), NoMemory)
    else
      var (r1, popped) := StartPop(r.(dev := r.dev.(mqOpen := true)));
      (r1, if popped then createRet else semFailRet)
  }

  /**
   * vs1053_start as written: `ret = (sem_wait(...) == OK)` stores the
   * comparison, so a refused lock makes the function return 0, that is OK.
   */
  function Start(r: Run, mqOk: bool, createRet: int): (Run, int)
  {
    StartWith(r, mqOk, createRet, 0)
  }

  /** vs1053_start as evidently intended: a refused lock returns sem_wait's error. */
  function StartIntended(r: Run, mqOk: bool, createRet: int): (Run, int)
  {
    StartWith(r, mqOk, createRet, SemError)
  }

  /**
   * The pop takes the head of the queue: the active buffer becomes the old
   * head (none for an empty queue), the queue loses exactly its head, and
   * the reference is taken on whatever was popped, a NULL included.
   */
  lemma StartPopTakesHead(r: Run)
    requires SemOk(r)
    ensures var (s, popped) := StartPop(r);
      && popped
      && s.dev.pBuf == (if r.dev.apbq == [] then None else Some(r.dev.apbq[0]))
      && s.dev.apbq == (if r.dev.apbq == [] then [] else r.dev.apbq[1..])
      && Delta(r, s) == [Reference(if r.dev.apbq == [] then None else Some(r.dev.apbq[0].id))]
  {
  }

  /** After the pop, the active buffer and the queue still form the device invariant. */
  lemma StartPopKeepsInv(r: Run)
    requires Inv(r.dev)
    ensures Inv(StartPop(r).0.dev)
  {
    if SemOk(r) && r.dev.apbq != [] {
      var q := r.dev.apbq;
      assert WellFormed(q[0]);
      assert forall i :: 0 <= i < |q[1..]| ==> q[1..][i] == q[i + 1];
    }
  }

  /**
   * As written, a refused queue lock is reported as success: start returns
   * OK although no buffer was popped and no worker was created.
   */
  lemma StartSemFailureReportsOk(r: Run, createRet: int)
    requires !SemOk(r)
    ensures var (s, ret) := Start(r, true, createRet);
      ret == Ok && s.dev.pBuf == r.dev.pBuf && s.log == r.log
  {
  }

  /**
   * As intended, start returns OK only when the queue lock was granted and
   * the worker was created, and an error whenever the lock is refused.
   */
  lemma StartIntendedStatus(r: Run, mqOk: bool, createRet: int)
    ensures var (s, ret) := StartIntended(r, mqOk, createRet);
      && (ret == Ok <==> mqOk && SemOk(r.(dev := r.dev.(mqOpen := true))) && createRet == Ok)
      && (mqOk && !SemOk(r) ==> ret == SemError)
      && (!mqOk ==> ret == NoMemory && s == r.(dev := r.dev.(mqOpen := false)))
  {
  }

  /**
   * A failed mq_open leaves the device without a message queue, whatever
   * an earlier start left open: start returns -ENOMEM, touches neither the
   * buffers nor the log, and a following granted enqueue posts no ENQUEUE.
   */
  lemma StartFailedOpenClosesQueue(r: Run, createRet: int, apb: ApBuffer)
    ensures var (s, ret) := Start(r, false, createRet);
      && ret == NoMemory && !s.dev.mqOpen
      && s.dev.pBuf == r.dev.pBuf && s.dev.apbq == r.dev.apbq && s.log == r.log
      && Enqueue(s, apb).0.env.inbox == s.env.inbox
  {
  }

  // ---------------------------------------------------------------------
  // vs1053_dreq_isr, vs1053_pause, vs1053_resume

  /** The DREQ interrupt posts a DATA_REQUEST to the worker only while running. */
  function DreqIsr(r: Run): Run
  {
    if r.dev.running then r.(env := r.env.(inbox := r.env.inbox + [DataRequest])) else r
  }

  lemma IsrPostsOnlyWhenRunning(r: Run)
    ensures DreqIsr(r).dev == r.dev && DreqIsr(r).log == r.log
    ensures DreqIsr(r).env.inbox == r.env.inbox + (if r.dev.running then [DataRequest] else [])
  {
  }

  /** vs1053_pause: a running device is marked paused and its DREQ interrupt disabled. */
  function Pause(r: Run): Run
  {
    if !r.dev.running then r
    else Emit(r, [DreqIrq(false)]).(dev := r.dev.(paused := true))
  }

  /** vs1053_resume: a running device is unpaused, fed, and its DREQ interrupt enabled. */
  function Resume(r: Run): Run
    requires Inv(r.dev)
  {
    if !r.dev.running then r
    else Emit(Feed(r.(dev := r.dev.(paused := false))), [DreqIrq(true)])
  }

  /**
   * Once a running device is paused, feeding it does nothing at all, and
   * resuming it clears the pause and ends with the interrupt enabled;
   * neither touches a device that is not running.
   */
  lemma PauseSilencesFeed(r: Run)
    requires Inv(r.dev)
    ensures r.dev.running ==> Feed(Pause(r)).log == Pause(r).log && Feed(Pause(r)).dev == Pause(r).dev
    ensures r.dev.running ==>
      (!Resume(Pause(r)).dev.paused && Resume(Pause(r)).log[|Resume(Pause(r)).log| - 1] == DreqIrq(true))
    ensures !r.dev.running ==> Pause(r) == r && Resume(r) == r
  {
    if r.dev.running {
      FeedGate(Pause(r));
    }
  }
}
