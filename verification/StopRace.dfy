/**
 The race between the host thread and the worker, step by step: the host in
 `start` and `stop`, the worker in its lambda and in `recover_xrun`, with the
 stop token, `backend_state_mutex` and the card between them. Every access to
 something shared is a step of its own and any interleaving is a run.
 */
module StopRace {
  import opened Alsa
  import opened AlsaControl
  import opened Session

  datatype Mutex = Free | ByHost | ByWorker

  /** Where the host thread is. `Idle` is any time it has no worker. */
  datatype Host =
    | Idle
    | Preparing | PreparingCapture                    // start: prepare_backend
    | Streaming                                       // state == Running
    | Locking | Dropping | DroppingCapture(ok: bool)  // stop: the token is set, then lock and drop
    | Unlocking(ok: bool) | Joining(ok: bool)

  /** Where the worker is. A block is written behind k others into a stream that
      has not started, first by the start of the thread, later by a recovery. */
  datatype Worker =
    | NoThread | Done
    | FirstSwitch
    | Check(k: nat, recovery: bool) | Put(k: nat, left: nat, recovery: bool)
    | Lock | Recheck | StartingCapture | StartingPlayback | Unlock(ok: bool)
    | LoopCheck | Reading(left: nat) | Waiting | ReadCheck(result: AudioResult)
    | Switch | Sending(left: nat) | SendCheck(result: AudioResult)
    | RecoverCheck | Repreparing | RepreparingCapture

  datatype Sys = Sys(
    host: Host,
    worker: Worker,
    stop: bool,             // the stop token
    mutex: Mutex,
    capture: bool,          // capture_enabled
    card: Card,
    accepted: nat,          // frames the card ever accepted
    starts: nat,            // successful starts of playback
    dropped: bool           // the last stop dropped every stream, and no start was called since
  )

  const BLOCKS := ALSA_BUFFER_SIZE / ASIO_BUFFER_SIZE

  predicate Init(s: Sys) {
    && s.host == Idle && s.worker == NoThread && s.mutex == Free && !s.dropped
    && Settings(s)
  }

  /** A card set up by createBuffers. */
  predicate Settings(s: Sys) {
    && Sound(s.card) && NeverAutoStarts(s.card)
    && s.card.buffer == ALSA_BUFFER_SIZE && s.card.availMin == ALSA_PERIOD_SIZE
    && (s.card.linked ==> s.capture)
  }

  // ---------- Steps of the card and of the host ----------

  predicate TimePasses(s: Sys, t: Sys) {
    Elapsed(s.card, t.card) && t == s.(card := t.card)
  }

  predicate StartCalled(s: Sys, t: Sys) {
    s.host == Idle && t == s.(host := Preparing, dropped := false)
  }

  predicate Separate(s: Sys) {
    s.capture && !s.card.linked
  }

  function Spawned(s: Sys): Sys {
    s.(host := Streaming, worker := FirstSwitch, stop := false)
  }

  ghost predicate HostStep(s: Sys, t: Sys) {
    match s.host
    case Idle => StartCalled(s, t)
    case Preparing =>
      || (PreparePlayback(s.card, t.card, true) &&
          t == if Separate(s) then s.(host := PreparingCapture, card := t.card)
               else Spawned(s).(card := t.card))
      || t == s.(host := Idle)
    case PreparingCapture =>
      || (!s.card.linked && PrepareCapture(s.card, t.card, true) && t == Spawned(s).(card := t.card))
      || t == s.(host := Idle)
    case Streaming => t == s.(host := Locking, stop := true)
    case Locking => s.mutex == Free && t == s.(host := Dropping, mutex := ByHost)
    case Dropping =>
      exists ok :: DropPlayback(s.card, t.card, ok) &&
                   t == if Separate(s) then s.(host := DroppingCapture(ok), card := t.card)
                        else s.(host := Unlocking(ok), card := t.card, dropped := ok)
    case DroppingCapture(before) =>
      !s.card.linked &&
      exists ok :: DropCapture(s.card, t.card, ok) &&
                   t == s.(host := Unlocking(before && ok), card := t.card, dropped := before && ok)
    case Unlocking(ok) => t == s.(host := Joining(ok), mutex := Free)
    case Joining(ok) => s.worker == Done && t == s.(host := Idle, worker := NoThread)
  }

  // ---------- Steps of the worker ----------

  function Go(s: Sys, w: Worker): Sys {
    s.(worker := w)
  }

  /** A check of the stop token. */
  function UnlessStopped(s: Sys, w: Worker): Sys {
    Go(s, if s.stop then Done else w)
  }

  /** After the last frame of a block: a start checks the token once more before
      it takes the lock, a recovery only between blocks. */
  function AfterPut(k: nat, recovery: bool): Worker {
    if recovery && k + 1 == BLOCKS then Lock else Check(k + 1, recovery)
  }

  function Result(r: int): AudioResult {
    if r == -EPIPE then Xrun else Error
  }

  /** Where a transfer of `left` frames goes after a reply: on while frames are
      missing, to `finished`, or to `failed`; an interrupted call is repeated. */
  function AfterPutReply(k: nat, left: nat, recovery: bool, r: int): Worker {
    if 0 < r < left then Put(k, left - r, recovery)
    else if r > 0 then AfterPut(k, recovery)
    else if r == -EINTR then Put(k, left, recovery)
    else Done
  }

  function AfterSendReply(left: nat, r: int): Worker {
    if 0 < r < left then Sending(left - r)
    else if r > 0 then SendCheck(Ok)
    else if r == -EINTR then Sending(left)
    else SendCheck(Result(r))
  }

  function AfterReadReply(left: nat, r: int): Worker {
    if 0 < r < left then Reading(left - r)
    else if r > 0 then ReadCheck(Ok)
    else if r == -EINTR then Reading(left)
    else ReadCheck(Result(r))
  }

  function AfterWaitReply(r: int): Worker {
    if r > 0 then ReadCheck(Ok)
    else if r == -EINTR then Waiting
    else ReadCheck(Result(r))
  }

  predicate Write(s: Sys, t: Sys, left: nat, r: int, next: Worker) {
    && Writei(s.card, left, t.card, r)
    && t == Go(s, next).(card := t.card, accepted := s.accepted + if r > 0 then r else 0)
  }

  ghost predicate WorkerStep(s: Sys, t: Sys) {
    match s.worker
    case NoThread => false
    case Done => false
    case FirstSwitch => t == Go(s, Check(0, false))
    case Check(k, recovery) =>
      t == UnlessStopped(s, if k == BLOCKS then Lock else Put(k, ASIO_BUFFER_SIZE, recovery))
    case Put(k, left, recovery) =>
      exists r: int :: Write(s, t, left, r, AfterPutReply(k, left, recovery, r))
    case Lock => s.mutex == Free && t == Go(s, Recheck).(mutex := ByWorker)
    case Recheck =>
      t == Go(s, if s.stop then Unlock(false) else if Separate(s) then StartingCapture else StartingPlayback)
    case StartingCapture =>
      !s.card.linked &&
      exists ok :: StartCapture(s.card, t.card, ok) &&
                   t == Go(s, if ok then StartingPlayback else Unlock(false)).(card := t.card)
    case StartingPlayback =>
      exists ok :: StartPlayback(s.card, t.card, ok) &&
                   t == Go(s, Unlock(ok)).(card := t.card, starts := if ok then s.starts + 1 else s.starts)
    case Unlock(ok) => t == Go(s, if ok then LoopCheck else Done).(mutex := Free)
    case LoopCheck => t == UnlessStopped(s, if s.capture then Reading(ASIO_BUFFER_SIZE) else Waiting)
    case Reading(left) =>
      exists r: int :: Readi(s.card, left, t.card, r) && t == Go(s, AfterReadReply(left, r)).(card := t.card)
    case Waiting =>
      exists r: int :: Wait(s.card, t.card, r) && t == Go(s, AfterWaitReply(r)).(card := t.card)
    case ReadCheck(result) =>
      t == UnlessStopped(s, match result case Ok => Switch case Xrun => RecoverCheck case Error => Done)
    case Switch => t == Go(s, Sending(ASIO_BUFFER_SIZE))
    case Sending(left) =>
      exists r: int :: Write(s, t, left, r, AfterSendReply(left, r))
    case SendCheck(result) =>
      t == UnlessStopped(s, match result case Ok => LoopCheck case Xrun => RecoverCheck case Error => Done)
    case RecoverCheck => t == UnlessStopped(s, Repreparing)
    case Repreparing =>
      || (PreparePlayback(s.card, t.card, true) &&
          t == Go(s, if Separate(s) then RepreparingCapture else Check(0, true)).(card := t.card))
      || t == Go(s, Done)
    case RepreparingCapture =>
      || (!s.card.linked && PrepareCapture(s.card, t.card, true) && t == Go(s, Check(0, true)).(card := t.card))
      || t == Go(s, Done)
  }

  ghost predicate Next(s: Sys, t: Sys) {
    TimePasses(s, t) || HostStep(s, t) || WorkerStep(s, t)
  }

  ghost predicate IsRun(run: seq<Sys>) {
    && run != [] && Init(run[0])
    && forall i :: 0 <= i < |run| - 1 ==> Next(run[i], run[i + 1])
  }

  // ---------- The invariant ----------

  predicate HoldsMutex(w: Worker) {
    w.Recheck? || w.StartingCapture? || w.StartingPlayback? || w.Unlock?
  }

  predicate Locked(h: Host) {
    h.Dropping? || h.DroppingCapture? || h.Unlocking?
  }

  predicate MutexInv(s: Sys) {
    && (s.mutex == ByWorker <==> HoldsMutex(s.worker))
    && (s.mutex == ByHost <==> Locked(s.host))
  }

  predicate ThreadInv(s: Sys) {
    && (s.worker == NoThread <==> s.host in {Idle, Preparing, PreparingCapture})
    && (s.worker != NoThread ==> (s.stop <==> s.host != Streaming))
    && (s.dropped ==> s.host in {Idle, Unlocking(true), Joining(true)})
    && (s.host in {Unlocking(true), Joining(true)} ==> s.dropped)
  }

  /** Nothing queued or captured yet is lost or added: a stream that is still to
      be started holds exactly the blocks written so far. */
  predicate Holds(s: Sys, frames: nat) {
    && (s.card.playback.state == Prepared ==> s.card.playback.fill == frames)
    && s.card.playback.state in {Prepared, Setup}
    && (s.capture ==> s.card.capture.state in {Prepared, Setup})
  }

  predicate Begun(s: Sys) {
    s.card.playback.state != Prepared && (s.capture ==> s.card.capture.state != Prepared)
  }

  /** Some stream in use has stopped, or all of them when they stop together. */
  predicate SomeStopped(s: Sys) {
    s.card.playback.state != Running || (s.capture && s.card.capture.state != Running)
  }

  /** Without capture a pass begins only once a period is free. */
  predicate RoomForABlock(s: Sys) {
    !s.capture ==> s.card.playback.fill <= OUTPUT_LATENCY
  }

  predicate FillInv(s: Sys) {
    match s.worker
    case NoThread => s.host == PreparingCapture ==> s.card.playback == Stream(Prepared, 0)
    case Done => true
    case FirstSwitch => Holds(s, 0)
    case Check(k, recovery) => k <= (if recovery then BLOCKS - 1 else BLOCKS) && Holds(s, k * ASIO_BUFFER_SIZE)
    case Put(k, left, _) =>
      k < BLOCKS && 0 < left <= ASIO_BUFFER_SIZE && Holds(s, (k + 1) * ASIO_BUFFER_SIZE - left)
    case Lock => Holds(s, ALSA_BUFFER_SIZE)
    case Recheck => Holds(s, ALSA_BUFFER_SIZE)
    case StartingCapture => Separate(s) && Holds(s, ALSA_BUFFER_SIZE)
    case StartingPlayback =>
      && s.card.playback.state in {Prepared, Setup}
      && (s.card.playback.state == Prepared ==> s.card.playback.fill == ALSA_BUFFER_SIZE)
      && (Separate(s) ==> s.card.capture.state != Prepared)
    case Unlock(ok) => ok ==> Begun(s)
    case Reading(left) => s.capture && 0 < left <= ASIO_BUFFER_SIZE && Begun(s)
    case Sending(left) => 0 < left <= ASIO_BUFFER_SIZE && Begun(s)
    case ReadCheck(result) =>
      Begun(s) && (result == Xrun ==> SomeStopped(s)) && (result == Ok ==> RoomForABlock(s))
    case Switch => Begun(s) && RoomForABlock(s)
    case SendCheck(result) => Begun(s) && (result == Xrun ==> SomeStopped(s))
    case RecoverCheck => Begun(s) && SomeStopped(s)
    case Repreparing => Begun(s) && SomeStopped(s)
    case RepreparingCapture =>
      && Separate(s) && s.card.playback.state in {Prepared, Setup} && s.card.capture.state != Prepared
      && (s.card.playback.state == Prepared ==> s.card.playback.fill == 0)
    case _ => Begun(s)
  }

  /** Where a dropped stream may have been prepared again: on the way from a
      prepare to the next check of the token. */
  predicate MayBePrepared(w: Worker) {
    w in {RepreparingCapture, Check(0, true), Done, NoThread}
  }

  predicate IsDown(s: Stream, w: Worker) {
    s == EMPTY || (s == Stream(Prepared, 0) && MayBePrepared(w))
  }

  predicate DownInv(s: Sys) {
    && (s.host == DroppingCapture(true) || s.dropped ==> IsDown(s.card.playback, s.worker))
    && (s.dropped && s.capture ==> IsDown(s.card.capture, s.worker))
    && (s.dropped && s.host == Joining(true) ==>
          !s.worker.StartingCapture? && !s.worker.StartingPlayback? && s.worker != Unlock(true))
  }

  predicate Inv(s: Sys) {
    Settings(s) && MutexInv(s) && ThreadInv(s) && FillInv(s) && DownInv(s)
  }

  lemma InitInv(s: Sys)
    requires Init(s)
    ensures Inv(s)
  {
  }

  lemma TimeKeepsInv(s: Sys, t: Sys)
    requires Inv(s) && TimePasses(s, t)
    ensures Inv(t)
  {
  }

  lemma DropKeepsInv(s: Sys, t: Sys)
    requires Inv(s) && s.host.Dropping? && HostStep(s, t)
    ensures Inv(t)
  {
  }

  lemma DropCaptureKeepsInv(s: Sys, t: Sys)
    requires Inv(s) && s.host.DroppingCapture? && HostStep(s, t)
    ensures Inv(t)
  {
  }

  lemma PrepareKeepsInv(s: Sys, t: Sys)
    requires Inv(s) && (s.host.Preparing? || s.host.PreparingCapture?) && HostStep(s, t)
    ensures Inv(t)
  {
  }

  lemma OtherHostStepKeepsInv(s: Sys, t: Sys)
    requires Inv(s) && HostStep(s, t)
    requires s.host.Idle? || s.host.Streaming? || s.host.Locking? || s.host.Unlocking? || s.host.Joining?
    ensures Inv(t)
  {
  }

  lemma HostKeepsInv(s: Sys, t: Sys)
    requires Inv(s) && HostStep(s, t)
    ensures Inv(t)
  {
    hide Inv, HostStep;
    match s.host
    case Dropping => DropKeepsInv(s, t);
    case DroppingCapture(_) => DropCaptureKeepsInv(s, t);
    case Preparing => PrepareKeepsInv(s, t);
    case PreparingCapture => PrepareKeepsInv(s, t);
    case _ => OtherHostStepKeepsInv(s, t);
  }

  lemma PutKeepsInv(s: Sys, t: Sys, r: int)
    requires Inv(s) && s.worker.Put?
    requires Write(s, t, s.worker.left, r, AfterPutReply(s.worker.k, s.worker.left, s.worker.recovery, r))
    ensures Inv(t)
  {
  }

  lemma SendKeepsInv(s: Sys, t: Sys, r: int)
    requires Inv(s) && s.worker.Sending?
    requires Write(s, t, s.worker.left, r, AfterSendReply(s.worker.left, r))
    ensures Inv(t)
  {
  }

  lemma ReadKeepsInv(s: Sys, t: Sys, r: int)
    requires Inv(s) && s.worker.Reading?
    requires Readi(s.card, s.worker.left, t.card, r)
    requires t == Go(s, AfterReadReply(s.worker.left, r)).(card := t.card)
    ensures Inv(t)
  {
  }

  lemma StartKeepsInv(s: Sys, t: Sys)
    requires Inv(s) && (s.worker.StartingCapture? || s.worker.StartingPlayback?) && WorkerStep(s, t)
    ensures Inv(t)
  {
  }

  lemma ReprepareKeepsInv(s: Sys, t: Sys)
    requires Inv(s) && (s.worker.Repreparing? || s.worker.RepreparingCapture?) && WorkerStep(s, t)
    ensures Inv(t)
  {
  }

  lemma MutexStepKeepsInv(s: Sys, t: Sys)
    requires Inv(s) && (s.worker.Lock? || s.worker.Recheck? || s.worker.Unlock?) && WorkerStep(s, t)
    ensures Inv(t)
  {
  }

  lemma WorkerKeepsInv(s: Sys, t: Sys)
    requires Inv(s) && WorkerStep(s, t)
    ensures Inv(t)
  {
    hide Inv, Write, Readi;
    match s.worker
    case Put(k, left, recovery) =>
      var r: int :| Write(s, t, left, r, AfterPutReply(k, left, recovery, r));
      PutKeepsInv(s, t, r);
    case Sending(left) =>
      var r: int :| Write(s, t, left, r, AfterSendReply(left, r));
      SendKeepsInv(s, t, r);
    case Reading(left) =>
      var r: int :| Readi(s.card, left, t.card, r) && t == Go(s, AfterReadReply(left, r)).(card := t.card);
      ReadKeepsInv(s, t, r);
    case StartingCapture => StartKeepsInv(s, t);
    case StartingPlayback => StartKeepsInv(s, t);
    case Repreparing => ReprepareKeepsInv(s, t);
    case RepreparingCapture => ReprepareKeepsInv(s, t);
    case Lock => MutexStepKeepsInv(s, t);
    case Recheck => MutexStepKeepsInv(s, t);
    case Unlock(_) => MutexStepKeepsInv(s, t);
    case w => if AtCheck(w) { CheckKeepsInv(s, t); } else { OtherStepKeepsInv(s, t); }
  }

  lemma OtherStepKeepsInv(s: Sys, t: Sys)
    requires Inv(s) && WorkerStep(s, t)
    requires s.worker.FirstSwitch? || s.worker.Waiting? || s.worker.Switch? || s.worker.NoThread? || s.worker.Done?
    ensures Inv(t)
  {
  }

  predicate AtCheck(w: Worker) {
    w.Check? || w.LoopCheck? || w.ReadCheck? || w.SendCheck? || w.RecoverCheck?
  }

  lemma CheckKeepsInv(s: Sys, t: Sys)
    requires Inv(s) && AtCheck(s.worker) && WorkerStep(s, t)
    ensures Inv(t)
  {
  }

  lemma NextKeepsInv(s: Sys, t: Sys)
    requires Inv(s) && Next(s, t)
    ensures Inv(t)
  {
    hide Inv, HostStep, WorkerStep;
    if TimePasses(s, t) {
      TimeKeepsInv(s, t);
    } else if HostStep(s, t) {
      HostKeepsInv(s, t);
    } else {
      WorkerKeepsInv(s, t);
    }
  }

  lemma {:induction false} RunKeepsInv(run: seq<Sys>, i: nat)
    requires IsRun(run) && i < |run|
    ensures Inv(run[i])
  {
    if i == 0 {
      InitInv(run[0]);
    } else {
      RunKeepsInv(run, i - 1);
      assert Next(run[i - 1], run[i - 1 + 1]);
      NextKeepsInv(run[i - 1], run[i]);
    }
  }

  // ---------- Stop is final ----------

  lemma NothingHappensAfterDrop(s: Sys, t: Sys)
    requires Inv(s) && s.dropped && Next(s, t) && !StartCalled(s, t)
    ensures t.dropped && t.accepted == s.accepted && t.starts == s.starts
  {
    if WorkerStep(s, t) {
      DroppedWorkerStep(s, t);
    }
  }

  lemma DroppedMeansDown(s: Sys)
    requires Inv(s)
    ensures s.dropped ==> Down(s.card, s.capture) && NothingRuns(s.card, s.capture)
  {
  }

  lemma DroppedWorkerStep(s: Sys, t: Sys)
    requires Inv(s) && s.dropped && WorkerStep(s, t)
    ensures t.dropped && t.accepted == s.accepted && t.starts == s.starts
    ensures Rank(t.worker) < Rank(s.worker) <= 3
  {
    match s.worker
    case Put(k, left, recovery) =>
      var r: int :| Write(s, t, left, r, AfterPutReply(k, left, recovery, r));
    case Sending(left) =>
      var r: int :| Write(s, t, left, r, AfterSendReply(left, r));
    case Reading(left) =>
      var r: int :| Readi(s.card, left, t.card, r) && t == Go(s, AfterReadReply(left, r)).(card := t.card);
    case _ =>
  }

  /** How many steps a worker has left once the streams were dropped. */
  function Rank(w: Worker): nat {
    match w
    case NoThread => 0
    case Done => 0
    case FirstSwitch => 2
    case Lock => 3
    case Recheck => 2
    case Reading(_) => 2
    case Waiting => 2
    case Switch => 3
    case Sending(_) => 2
    case Repreparing => 3
    case RepreparingCapture => 2
    case _ => 1
  }

  /** Once a stop dropped the streams, and until `start` is called again, no
      frame is accepted, no start succeeds and every stream in use is empty and
      does not run, however the threads and the card go on. */
  lemma {:induction false} StopIsFinal(run: seq<Sys>, i: nat, j: nat)
    requires IsRun(run) && i <= j < |run| && run[i].dropped
    requires forall k :: i <= k < j ==> !StartCalled(run[k], run[k + 1])
    ensures run[j].dropped && run[j].accepted == run[i].accepted && run[j].starts == run[i].starts
    ensures Down(run[j].card, run[j].capture) && NothingRuns(run[j].card, run[j].capture)
    decreases j - i
  {
    hide Inv, HostStep, WorkerStep, TimePasses, Init, StartCalled, NothingRuns, Down;
    RunKeepsInv(run, j);
    DroppedMeansDown(run[j]);
    if i < j {
      StopIsFinal(run, i, j - 1);
      RunKeepsInv(run, j - 1);
      assert Next(run[j - 1], run[j - 1 + 1]);
      NothingHappensAfterDrop(run[j - 1], run[j]);
    }
  }

  /** `stop` returns OK exactly when every stream was dropped; then the thread is
      gone, nothing runs and nothing is queued. */
  lemma StopReturns(run: seq<Sys>, i: nat)
    requires IsRun(run) && i < |run| && run[i].host.Joining? && run[i].worker == Done
    ensures run[i].host.ok <==> run[i].dropped
    ensures run[i].host.ok ==> Down(run[i].card, run[i].capture) && NothingRuns(run[i].card, run[i].capture)
    ensures forall t :: HostStep(run[i], t) ==> t.host == Idle && t.worker == NoThread
  {
    RunKeepsInv(run, i);
  }

  /** The worker is at a call that may put it to sleep. */
  predicate MaySleep(s: Sys) {
    match s.worker
    case Put(_, left, _) => WriteMaySleep(s.card, left)
    case Sending(left) => WriteMaySleep(s.card, left)
    case Reading(left) => ReadMaySleep(s.card, left)
    case Waiting => WaitMaySleep(s.card)
    case Lock => s.mutex != Free
    case _ => false
  }

  /** The worker sleeps only where something is about to wake it: on a stream that
      runs, or while the host holds the mutex for a drop. */
  lemma SleepsOnlyWhileAwaited(run: seq<Sys>, i: nat)
    requires IsRun(run) && i < |run| && MaySleep(run[i])
    ensures match run[i].worker
            case Reading(_) => run[i].card.capture.state == Running
            case Lock => run[i].mutex == ByHost && Locked(run[i].host)
            case w => (w.Sending? || w.Waiting?) && run[i].card.playback.state == Running
  {
    RunKeepsInv(run, i);
  }

  /** After a successful drop the join cannot hang: no call of the worker can put
      it to sleep any more, on the card or on the mutex, and it is done after at
      most three more steps. */
  lemma JoinEnds(run: seq<Sys>, i: nat)
    requires IsRun(run) && i < |run| && run[i].host == Joining(true)
    ensures !MaySleep(run[i])
    ensures if run[i].worker == Done then exists t :: HostStep(run[i], t) else exists t :: WorkerStep(run[i], t)
    ensures forall t :: WorkerStep(run[i], t) ==> Rank(t.worker) < Rank(run[i].worker) <= 3
  {
    var s := run[i];
    RunKeepsInv(run, i);
    if s.worker == Done {
      assert HostStep(s, s.(host := Idle, worker := NoThread));
    } else {
      DroppedWorkerCanStep(s);
    }
    forall t | WorkerStep(s, t)
      ensures Rank(t.worker) < Rank(s.worker) <= 3
    {
      DroppedWorkerStep(s, t);
    }
  }

  lemma DroppedWorkerCanStep(s: Sys)
    requires Inv(s) && s.host == Joining(true) && s.worker != Done
    ensures exists t :: WorkerStep(s, t)
  {
    var t := match s.worker
      case FirstSwitch => Go(s, Check(0, false))
      case Lock => Go(s, Recheck).(mutex := ByWorker)
      case Recheck => Go(s, Unlock(false))
      case Unlock(_) => Go(s, Done).(mutex := Free)
      case Reading(_) => Go(s, ReadCheck(Error))
      case Waiting => Go(s, ReadCheck(Error))
      case Switch => Go(s, Sending(ASIO_BUFFER_SIZE))
      case Sending(_) => Go(s, SendCheck(Error))
      case _ => Go(s, Done);
    match s.worker {
      case Put(k, left, recovery) => assert Write(s, t, left, -1, AfterPutReply(k, left, recovery, -1));
      case Sending(left) => assert Write(s, t, left, -1, AfterSendReply(left, -1));
      case Reading(left) =>
        assert Readi(s.card, left, t.card, -1) && t == Go(s, AfterReadReply(left, -1)).(card := t.card);
      case Waiting => assert Wait(s.card, t.card, -1);
      case _ =>
    }
    assert WorkerStep(s, t);
  }

  // ---------- Priming ----------

  /** No start finds more or less than a full ring, on the first start, after a
      stop and in every recovery. */
  lemma StartsFindAFullRing(run: seq<Sys>, i: nat)
    requires IsRun(run) && i + 1 < |run| && run[i].starts != run[i + 1].starts
    ensures run[i].card.playback == Stream(Prepared, ALSA_BUFFER_SIZE) && run[i].mutex == ByWorker
  {
    RunKeepsInv(run, i);
    var s, t := run[i], run[i + 1];
    assert Next(run[i], run[i + 1]);
    assert !TimePasses(s, t) && !HostStep(s, t);
    assert s.worker.StartingPlayback?;
  }

  /** A write into a stream that has not started finds room for all its frames,
      so it cannot block, and does not start the stream; no other write or read
      ever meets a prepared stream, so none starts one by itself. */
  lemma PrimingFits(run: seq<Sys>, i: nat)
    requires IsRun(run) && i < |run|
    ensures var s := run[i];
            && (s.worker.Put? ==> !MaySleep(s))
            && (s.worker.Put? && s.card.playback.state == Prepared ==>
                  && s.card.playback.fill + s.worker.left <= s.card.buffer
                  && forall r: nat :: r <= s.worker.left ==> Queued(s.card, r).playback.state == Prepared)
            && (s.worker.Sending? ==> s.card.playback.state != Prepared)
            && (s.worker.Reading? ==> s.card.capture.state != Prepared)
  {
    RunKeepsInv(run, i);
  }

  // ---------- Threads ----------

  /** Starting and dropping exclude each other, and outside start and stop there
      is a worker exactly while the host is streaming: buffers are created and
      cleared only with no worker about. */
  lemma ThreadsExclude(run: seq<Sys>, i: nat)
    requires IsRun(run) && i < |run|
    ensures !(Locked(run[i].host) && HoldsMutex(run[i].worker))
    ensures run[i].host == Idle ==> run[i].worker == NoThread && run[i].mutex == Free
    ensures run[i].host == Streaming ==> run[i].worker != NoThread && !run[i].stop
    ensures run[i].host.Joining? && (exists t :: HostStep(run[i], t)) ==> run[i].worker == Done
    ensures run[i].worker == FirstSwitch ==> NothingRuns(run[i].card, run[i].capture)
  {
    RunKeepsInv(run, i);
  }

  // ---------- What a prepare can do ----------

  /** `start` gets to a new worker, with nothing in between its steps. */
  ghost predicate CanStart(s: Sys) {
    exists m, t :: HostStep(s, m) && (t == m || HostStep(m, t)) && t.host == Streaming
  }

  /** A recovery gets to its first block, with nothing in between its steps. */
  ghost predicate CanReprepare(s: Sys) {
    exists m, t :: WorkerStep(s, m) && (t == m || WorkerStep(m, t)) && t.worker == Check(0, true)
  }

  /** A start can succeed exactly when no stream in use runs, and so always after
      a stop that returned OK. */
  lemma RestartAfterStop(run: seq<Sys>, i: nat)
    requires IsRun(run) && i + 1 < |run| && StartCalled(run[i], run[i + 1])
    ensures CanStart(run[i + 1]) <==> NothingRuns(run[i + 1].card, run[i + 1].capture)
    ensures run[i].dropped ==> CanStart(run[i + 1])
  {
    RunKeepsInv(run, i);
    var s := run[i + 1];
    if NothingRuns(s.card, s.capture) {
      var card := WithPlayback(s.card, Stream(Prepared, 0));
      if Separate(s) {
        var m := s.(host := PreparingCapture, card := card);
        var t := Spawned(m).(card := card.(capture := Stream(Prepared, 0)));
        assert HostStep(s, m) && HostStep(m, t);
      } else {
        var t := Spawned(s).(card := card);
        assert HostStep(s, t);
      }
    }
  }

  /** A recovery can succeed exactly when no stream in use runs. Some stream has
      always stopped, and all of them have unless capture runs on its own: then
      the other stream may be running still. */
  lemma RecoveryNeedsStoppedStreams(run: seq<Sys>, i: nat)
    requires IsRun(run) && i < |run| && run[i].worker == Repreparing
    ensures CanReprepare(run[i]) <==> NothingRuns(run[i].card, run[i].capture)
    ensures SomeStopped(run[i])
    ensures !Separate(run[i]) ==> CanReprepare(run[i])
  {
    RunKeepsInv(run, i);
    if NothingRuns(run[i].card, run[i].capture) {
      ReprepareSucceeds(run[i]);
    }
  }

  lemma ReprepareSucceeds(s: Sys)
    requires s.worker == Repreparing && NothingRuns(s.card, s.capture)
    ensures CanReprepare(s)
  {
    var card := WithPlayback(s.card, Stream(Prepared, 0));
    if Separate(s) {
      var m := Go(s, RepreparingCapture).(card := card);
      var t := Go(m, Check(0, true)).(card := card.(capture := Stream(Prepared, 0)));
      assert WorkerStep(s, m) && WorkerStep(m, t);
    } else {
      var t := Go(s, Check(0, true)).(card := card);
      assert WorkerStep(s, t);
    }
  }

  // ---------- What the worker gets done ----------

  /** Steps of the worker alone. */
  ghost predicate ByWorkerOnly(path: seq<Sys>) {
    path != [] && forall i :: 0 <= i < |path| - 1 ==> WorkerStep(path[i], path[i + 1])
  }

  ghost predicate WorkerLeads(s: Sys, t: Sys) {
    exists path :: ByWorkerOnly(path) && path[0] == s && path[|path| - 1] == t
  }

  lemma Stays(s: Sys)
    ensures WorkerLeads(s, s)
  {
    assert ByWorkerOnly([s]) && [s][0] == s;
  }

  lemma WorkerLeadsOn(s: Sys, t: Sys, u: Sys)
    requires WorkerLeads(s, t) && WorkerStep(t, u)
    ensures WorkerLeads(s, u)
  {
    hide WorkerStep;
    var path :| ByWorkerOnly(path) && path[0] == s && path[|path| - 1] == t;
    var longer := path + [u];
    forall i | 0 <= i < |longer| - 1
      ensures WorkerStep(longer[i], longer[i + 1])
    {
      if i < |path| - 1 {
        assert WorkerStep(path[i], path[i + 1]);
      }
    }
    assert ByWorkerOnly(longer) && longer[0] == s && longer[|longer| - 1] == u;
  }

  /** A stream to be started that holds this many frames. */
  predicate Primed(s: Sys, frames: nat) {
    && Settings(s) && s.card.playback == Stream(Prepared, frames)
    && (s.capture ==> s.card.capture.state == Prepared)
  }

  /** One block is accepted into a primed stream, in one write or in two. */
  lemma PutsABlock(from: Sys, s: Sys, n: nat) returns (t: Sys)
    requires WorkerLeads(from, s) && s.worker.Check? && s.worker.k < BLOCKS && !s.stop
    requires Primed(s, s.worker.k * ASIO_BUFFER_SIZE) && 0 < n <= ASIO_BUFFER_SIZE
    ensures WorkerLeads(from, t) && Primed(t, (s.worker.k + 1) * ASIO_BUFFER_SIZE)
    ensures t == Go(s, AfterPut(s.worker.k, s.worker.recovery))
                 .(card := t.card, accepted := s.accepted + ASIO_BUFFER_SIZE)
    ensures t.card.capture == s.card.capture && t.card.linked == s.card.linked
  {
    hide WorkerLeads;
    var k, recovery, all := s.worker.k, s.worker.recovery, ASIO_BUFFER_SIZE;
    t := Go(s, Put(k, all, recovery));
    WorkerLeadsOn(from, s, t);
    var u := Go(t, AfterPutReply(k, all, recovery, n)).(card := Queued(t.card, n), accepted := t.accepted + n);
    assert Write(t, u, all, n, AfterPutReply(k, all, recovery, n));
    WorkerLeadsOn(from, t, u);
    t := u;
    if n < all {
      var left := all - n;
      u := Go(t, AfterPutReply(k, left, recovery, left))
           .(card := Queued(t.card, left), accepted := t.accepted + left);
      assert Write(t, u, left, left, AfterPutReply(k, left, recovery, left));
      WorkerLeadsOn(from, t, u);
      t := u;
    }
  }

  /** From the lock to the head of the loop. */
  lemma StartsTheStreams(from: Sys, s: Sys) returns (t: Sys)
    requires WorkerLeads(from, s) && s.worker == Lock && !s.stop && s.mutex == Free && Primed(s, ALSA_BUFFER_SIZE)
    ensures WorkerLeads(from, t)
    ensures t == Go(s, LoopCheck).(card := t.card, starts := s.starts + 1)
    ensures t.card.playback == Stream(Running, ALSA_BUFFER_SIZE)
    ensures s.capture ==> t.card.capture.state == Running
    ensures t.card.linked == s.card.linked
  {
    hide WorkerLeads;
    t := Go(s, Recheck).(mutex := ByWorker);
    WorkerLeadsOn(from, s, t);
    if Separate(s) {
      var u := Go(t, StartingCapture);
      WorkerLeadsOn(from, t, u);
      var card := s.card.(capture := s.card.capture.(state := Running));
      assert StartCapture(u.card, card, true);
      t := Go(u, StartingPlayback).(card := card);
      WorkerLeadsOn(from, u, t);
    } else {
      var u := Go(t, StartingPlayback);
      WorkerLeadsOn(from, t, u);
      t := u;
    }
    var card := WithPlayback(t.card, Stream(Running, ALSA_BUFFER_SIZE));
    assert StartPlayback(t.card, card, true);
    var u := Go(t, Unlock(true)).(card := card, starts := t.starts + 1);
    WorkerLeadsOn(from, t, u);
    t := Go(u, LoopCheck).(mutex := Free);
    WorkerLeadsOn(from, u, t);
  }

  /** The outcome of a start: two blocks accepted, one start, everything in use runs. */
  predicate FullyStarted(s: Sys, t: Sys) {
    && t.worker == LoopCheck && t.mutex == Free && t.host == s.host && t.stop == s.stop
    && t.capture == s.capture && t.card.linked == s.card.linked
    && t.accepted == s.accepted + 128 && t.starts == s.starts + 1
    && t.card.playback == Stream(Running, 128) && (s.capture ==> t.card.capture.state == Running)
  }

  lemma FillsAndStarts(from: Sys, s: Sys, n: nat)
    requires WorkerLeads(from, s) && s.worker.Check? && s.worker.k == 0 && !s.stop && s.mutex == Free && Primed(s, 0)
    requires 0 < n <= ASIO_BUFFER_SIZE
    ensures exists t :: WorkerLeads(from, t) && FullyStarted(s, t)
  {
    hide WorkerLeads;
    var t := PutsABlock(from, s, n);
    t := PutsABlock(from, t, n);
    if t.worker.Check? {
      var u := Go(t, Lock);
      WorkerLeadsOn(from, t, u);
      t := u;
    }
    t := StartsTheStreams(from, t);
  }

  /** A new worker, and a recovery that is past its prepare, can fill the ring and
      start the streams whenever no stop is under way, linked or not, with capture or
      without, and whether its writes are short or not. */
  lemma StartCompletes(run: seq<Sys>, i: nat, n: nat)
    requires IsRun(run) && i < |run| && run[i].worker in {FirstSwitch, Check(0, true)}
    requires !run[i].stop && 0 < n <= ASIO_BUFFER_SIZE
    requires run[i].card.playback.state == Prepared && (run[i].capture ==> run[i].card.capture.state == Prepared)
    ensures exists t :: WorkerLeads(run[i], t) && FullyStarted(run[i], t)
  {
    RunKeepsInv(run, i);
    var s := run[i];
    Stays(s);
    if s.worker == FirstSwitch {
      WorkerLeadsOn(s, s, Go(s, Check(0, false)));
      FillsAndStarts(s, Go(s, Check(0, false)), n);
    } else {
      FillsAndStarts(s, s, n);
    }
  }

  /** So can a worker that saw an xrun, exactly because no stream in use runs any more. */
  lemma RecoveryCompletes(run: seq<Sys>, i: nat, n: nat)
    requires IsRun(run) && i < |run| && run[i].worker in {ReadCheck(Xrun), SendCheck(Xrun)}
    requires !run[i].stop && 0 < n <= ASIO_BUFFER_SIZE
    requires NothingRuns(run[i].card, run[i].capture)
    ensures exists t :: WorkerLeads(run[i], t) && FullyStarted(run[i], t)
  {
    hide WorkerLeads;
    RunKeepsInv(run, i);
    var s := run[i];
    Stays(s);
    WorkerLeadsOn(s, s, Go(s, RecoverCheck));
    var t := Go(s, Repreparing);
    WorkerLeadsOn(s, Go(s, RecoverCheck), t);
    var card := WithPlayback(s.card, Stream(Prepared, 0));
    if Separate(s) {
      var m := Go(t, RepreparingCapture).(card := card);
      WorkerLeadsOn(s, t, m);
      card := card.(capture := Stream(Prepared, 0));
      t := m;
    }
    var u := Go(t, Check(0, true)).(card := card);
    WorkerLeadsOn(s, t, u);
    FillsAndStarts(s, u, n);
  }

  /** A pass gets done: a block is read, if there is capture, and one is sent. */
  lemma PassCompletes(run: seq<Sys>, i: nat, n: nat)
    requires IsRun(run) && i < |run| && run[i].worker == LoopCheck && !run[i].stop && 0 < n <= ASIO_BUFFER_SIZE
    requires run[i].card.playback.state == Running && run[i].card.playback.fill <= ASIO_BUFFER_SIZE
    requires run[i].capture ==> run[i].card.capture.state == Running && run[i].card.capture.fill >= ASIO_BUFFER_SIZE
    ensures exists t :: WorkerLeads(run[i], t) && t.worker == LoopCheck && t.accepted == run[i].accepted + 64
              && t.card.playback == Stream(Running, run[i].card.playback.fill + 64)
              && (run[i].capture ==> t.card.capture == Stream(Running, run[i].card.capture.fill - 64))
  {
    hide WorkerLeads;
    RunKeepsInv(run, i);
    var s := run[i];
    Stays(s);
    var t := TakesABlock(s, s, n);
    t := SendsABlock(s, t, n);
  }

  lemma TakesABlock(from: Sys, s: Sys, n: nat) returns (t: Sys)
    requires WorkerLeads(from, s) && s.worker == LoopCheck && !s.stop && 0 < n <= ASIO_BUFFER_SIZE && Settings(s)
    requires s.card.playback.state == Running && s.card.playback.fill <= ASIO_BUFFER_SIZE
    requires s.capture ==> s.card.capture.state == Running && s.card.capture.fill >= ASIO_BUFFER_SIZE
    ensures WorkerLeads(from, t)
    ensures var taken := if s.capture then Stream(Running, s.card.capture.fill - 64) else s.card.capture;
            t == Go(s, Switch).(card := s.card.(capture := taken))
  {
    hide WorkerLeads;
    var all := ASIO_BUFFER_SIZE;
    t := Go(s, if s.capture then Reading(all) else Waiting);
    WorkerLeadsOn(from, s, t);
    if s.capture {
      var u := Go(t, AfterReadReply(all, n)).(card := Unread(t.card, n));
      assert Readi(t.card, all, u.card, n);
      WorkerLeadsOn(from, t, u);
      t := u;
      if n < all {
        var left := all - n;
        u := Go(t, AfterReadReply(left, left)).(card := Unread(t.card, left));
        assert Readi(t.card, left, u.card, left);
        WorkerLeadsOn(from, t, u);
        t := u;
      }
    } else {
      var u := Go(t, AfterWaitReply(1));
      assert Wait(t.card, u.card, 1) && u == Go(t, AfterWaitReply(1)).(card := u.card);
      WorkerLeadsOn(from, t, u);
      t := u;
    }
    WorkerLeadsOn(from, t, Go(t, Switch));
    t := Go(t, Switch);
  }

  function Unread(c: Card, n: nat): Card
    requires n <= c.capture.fill
  {
    c.(capture := c.capture.(fill := c.capture.fill - n))
  }

  lemma SendsABlock(from: Sys, s: Sys, n: nat) returns (t: Sys)
    requires WorkerLeads(from, s) && s.worker == Switch && !s.stop && 0 < n <= ASIO_BUFFER_SIZE && Settings(s)
    requires s.card.playback.state == Running && s.card.playback.fill <= ASIO_BUFFER_SIZE
    ensures WorkerLeads(from, t)
    ensures t == Go(s, LoopCheck).(card := Queued(s.card, 64), accepted := s.accepted + 64)
  {
    hide WorkerLeads;
    var all := ASIO_BUFFER_SIZE;
    t := Go(s, Sending(all));
    WorkerLeadsOn(from, s, t);
    var u := Go(t, AfterSendReply(all, n)).(card := Queued(t.card, n), accepted := t.accepted + n);
    assert Write(t, u, all, n, AfterSendReply(all, n));
    WorkerLeadsOn(from, t, u);
    t := u;
    if n < all {
      var left := all - n;
      u := Go(t, AfterSendReply(left, left)).(card := Queued(t.card, left), accepted := t.accepted + left);
      assert Write(t, u, left, left, AfterSendReply(left, left));
      WorkerLeadsOn(from, t, u);
      t := u;
    }
    WorkerLeadsOn(from, t, Go(t, LoopCheck));
    t := Go(t, LoopCheck);
  }

  // ---------- What a stop leaves behind ----------

  /** From the drop of playback to the join. */
  predicate Stopping(h: Host) {
    Locked(h) || h.Joining?
  }

  predicate StopOk(s: Sys) {
    s.host == Joining(true) && s.worker == Done
  }

  /** The worker is about to prepare a stream, which it does without the mutex. */
  predicate AtPrepare(w: Worker) {
    w.Repreparing? || w.RepreparingCapture?
  }

  /** Any number of steps within one stop. */
  ghost predicate InOneStop(path: seq<Sys>) {
    && path != [] && (forall i :: 0 <= i < |path| ==> Stopping(path[i].host))
    && forall i :: 0 <= i < |path| - 1 ==> Next(path[i], path[i + 1])
  }

  ghost predicate LeadsTo(s: Sys, t: Sys) {
    exists path :: InOneStop(path) && path[0] == s && path[|path| - 1] == t
  }

  /** A worker that is not about to prepare will not, because the token is set; what
      was dropped stays as the drop left it. */
  predicate StaysDropped(s: Sys) {
    && !AtPrepare(s.worker)
    && (s.host == DroppingCapture(true) ==> s.card.playback == EMPTY)
    && (s.host in {Unlocking(true), Joining(true)} ==> Dropped(s.card, s.capture))
  }

  lemma HostKeepsDropped(s: Sys, t: Sys)
    requires Inv(s) && StaysDropped(s) && Stopping(s.host) && HostStep(s, t) && Stopping(t.host)
    ensures StaysDropped(t)
  {
  }

  lemma WorkerKeepsDropped(s: Sys, t: Sys)
    requires Inv(s) && StaysDropped(s) && Stopping(s.host) && WorkerStep(s, t)
    ensures StaysDropped(t)
  {
  }

  lemma TimeKeepsDropped(s: Sys, t: Sys)
    requires StaysDropped(s) && TimePasses(s, t)
    ensures StaysDropped(t)
  {
  }

  lemma HostKeepsSettings(s: Sys, t: Sys)
    requires HostStep(s, t)
    ensures t.capture == s.capture && t.card.linked == s.card.linked
  {
  }

  lemma WorkerKeepsSettings(s: Sys, t: Sys)
    requires WorkerStep(s, t)
    ensures t.capture == s.capture && t.card.linked == s.card.linked
  {
  }

  lemma StepInOneStop(s: Sys, t: Sys)
    requires Inv(s) && Stopping(s.host) && Next(s, t) && Stopping(t.host)
    ensures Inv(t) && t.capture == s.capture && t.card.linked == s.card.linked
    ensures StaysDropped(s) ==> StaysDropped(t)
  {
    hide Inv, HostStep, WorkerStep, StaysDropped, Stopping;
    NextKeepsInv(s, t);
    if HostStep(s, t) {
      HostKeepsSettings(s, t);
      if StaysDropped(s) { HostKeepsDropped(s, t); }
    } else if WorkerStep(s, t) {
      WorkerKeepsSettings(s, t);
      if StaysDropped(s) { WorkerKeepsDropped(s, t); }
    } else if StaysDropped(s) {
      TimeKeepsDropped(s, t);
    }
  }

  lemma {:induction false} PathInOneStop(path: seq<Sys>, k: nat)
    requires InOneStop(path) && k < |path| && Inv(path[0])
    ensures Inv(path[k]) && path[k].capture == path[0].capture && path[k].card.linked == path[0].card.linked
    ensures StaysDropped(path[0]) ==> StaysDropped(path[k])
  {
    if k > 0 {
      hide Inv, Next, StaysDropped;
      PathInOneStop(path, k - 1);
      assert Next(path[k - 1], path[k - 1 + 1]);
      StepInOneStop(path[k - 1], path[k]);
    }
  }

  lemma LeadsOn(s: Sys, t: Sys, u: Sys)
    requires LeadsTo(s, t) && Next(t, u) && Stopping(u.host)
    ensures LeadsTo(s, u)
  {
    hide Next;
    var path :| InOneStop(path) && path[0] == s && path[|path| - 1] == t;
    var longer := path + [u];
    forall i | 0 <= i < |longer| - 1
      ensures Next(longer[i], longer[i + 1])
    {
      if i < |path| - 1 {
        assert Next(path[i], path[i + 1]);
      }
    }
    assert InOneStop(longer) && longer[0] == s && longer[|longer| - 1] == u;
  }

  /** Everything is dropped while the worker does nothing. */
  lemma DropsAll(s: Sys)
    requires Inv(s) && s.host == Dropping
    ensures LeadsTo(s, s.(host := Joining(true), mutex := Free, dropped := true,
                          card := if Separate(s) then s.card.(playback := EMPTY, capture := EMPTY)
                                  else WithPlayback(s.card, EMPTY)))
  {
    assert InOneStop([s]) && [s][0] == s;
    assert LeadsTo(s, s);
    hide LeadsTo;
    var card := WithPlayback(s.card, EMPTY);
    assert DropPlayback(s.card, card, true);
    var unlocking := s.(host := Unlocking(true), card := card, dropped := true);
    if Separate(s) {
      var next := s.(host := DroppingCapture(true), card := card);
      assert HostStep(s, next);
      LeadsOn(s, s, next);
      unlocking := unlocking.(card := card.(capture := EMPTY));
      assert DropCapture(card, unlocking.card, true);
      assert HostStep(next, unlocking);
      LeadsOn(s, next, unlocking);
    } else {
      assert HostStep(s, unlocking);
      LeadsOn(s, s, unlocking);
    }
    var joining := unlocking.(host := Joining(true), mutex := Free);
    assert HostStep(unlocking, joining);
    LeadsOn(s, unlocking, joining);
  }

  /** After the drops the worker prepares one stream and ends. */
  lemma PreparesAfterwards(s: Sys) returns (t: Sys)
    requires Inv(s) && s.host == Dropping && AtPrepare(s.worker)
    ensures LeadsTo(s, t) && StopOk(t) && !Dropped(t.card, t.capture)
    ensures Separate(s) ==> !Agreeing(t.card, t.capture)
  {
    hide LeadsTo;
    var card := if Separate(s) then s.card.(playback := EMPTY, capture := EMPTY) else WithPlayback(s.card, EMPTY);
    var joining := s.(host := Joining(true), mutex := Free, dropped := true, card := card);
    DropsAll(s);
    var again := if s.worker.RepreparingCapture? then card.(capture := Stream(Prepared, 0))
                 else WithPlayback(card, Stream(Prepared, 0));
    var next := Go(joining, if s.worker.Repreparing? && Separate(s) then RepreparingCapture else Check(0, true))
                .(card := again);
    assert WorkerStep(joining, next);
    LeadsOn(s, joining, next);
    t := Go(next, Done);
    assert WorkerStep(next, t);
    LeadsOn(s, next, t);
  }

  /** Whether a stop that returns OK is sure to leave every stream in use as the drop
      left it, and in agreement, is settled when playback is dropped: it is exactly
      when the worker is not just then about to prepare a stream; linked streams
      always agree. */
  lemma SetUpExactlyWithoutPrepare(run: seq<Sys>, i: nat)
    requires IsRun(run) && i < |run| && run[i].host == Dropping
    ensures (forall t :: LeadsTo(run[i], t) && StopOk(t) ==> Dropped(t.card, t.capture)) <==>
            !AtPrepare(run[i].worker)
    ensures (forall t :: LeadsTo(run[i], t) && StopOk(t) ==> Agreeing(t.card, t.capture)) <==>
            !AtPrepare(run[i].worker) || !Separate(run[i])
  {
    var s := run[i];
    RunKeepsInv(run, i);
    if AtPrepare(s.worker) {
      var t := PreparesAfterwards(s);
    }
    forall t | LeadsTo(s, t) && StopOk(t)
      ensures !AtPrepare(s.worker) ==> Dropped(t.card, t.capture)
      ensures !AtPrepare(s.worker) || !Separate(s) ==> Agreeing(t.card, t.capture)
    {
      LeadsToKeeps(s, t);
    }
  }

  lemma LeadsToKeeps(s: Sys, t: Sys)
    requires Inv(s) && s.host == Dropping && LeadsTo(s, t) && StopOk(t)
    ensures !AtPrepare(s.worker) ==> Dropped(t.card, t.capture)
    ensures !AtPrepare(s.worker) || !Separate(s) ==> Agreeing(t.card, t.capture)
  {
    var path :| InOneStop(path) && path[0] == s && path[|path| - 1] == t;
    PathInOneStop(path, |path| - 1);
  }

  // ---------- States that do occur ----------

  /** As createBuffers leaves the card. */
  predicate Created(s: Sys) {
    && Init(s) && s.card.playback == Stream(Prepared, 0)
    && (s.capture ==> s.card.capture == Stream(Prepared, 0))
  }

  ghost predicate Reachable(s: Sys) {
    exists run :: IsRun(run) && Created(run[0]) && run[|run| - 1] == s
  }

  lemma Then(s: Sys, t: Sys)
    requires Reachable(s) && Next(s, t)
    ensures Reachable(t)
  {
    var run :| IsRun(run) && Created(run[0]) && run[|run| - 1] == s;
    var longer := run + [t];
    forall i | 0 <= i < |longer| - 1
      ensures Next(longer[i], longer[i + 1])
    {
      if i < |run| - 1 {
        assert Next(run[i], run[i + 1]);
      }
    }
    assert IsRun(longer) && Created(longer[0]) && longer[|longer| - 1] == t;
  }

  lemma HostThen(s: Sys, t: Sys)
    requires Reachable(s) && HostStep(s, t)
    ensures Reachable(t)
  {
    Then(s, t);
  }

  lemma WorkerThen(s: Sys, t: Sys)
    requires Reachable(s) && WorkerStep(s, t)
    ensures Reachable(t)
  {
    Then(s, t);
  }

  lemma TimeThen(s: Sys, card: Card)
    requires Reachable(s) && Elapsed(s.card, card)
    ensures Reachable(s.(card := card))
  {
    Then(s, s.(card := card));
  }

  lemma ReadThen(s: Sys, card: Card, r: int)
    requires Reachable(s) && s.worker.Reading? && Readi(s.card, s.worker.left, card, r)
    ensures Reachable(Go(s, AfterReadReply(s.worker.left, r)).(card := card))
  {
    WorkerThen(s, Go(s, AfterReadReply(s.worker.left, r)).(card := card));
  }

  lemma WaitThen(s: Sys, r: int)
    requires Reachable(s) && s.worker.Waiting? && Wait(s.card, s.card, r)
    ensures Reachable(Go(s, AfterWaitReply(r)))
  {
    var t := Go(s, AfterWaitReply(r));
    assert Wait(s.card, t.card, r) && t == Go(s, AfterWaitReply(r)).(card := t.card);
    WorkerThen(s, t);
  }

  lemma XrunInSend(s: Sys)
    requires Reachable(s) && s.worker.Sending? && s.card.playback.state == XRun
    ensures Reachable(Go(s, SendCheck(Xrun)))
  {
    var t := Go(s, SendCheck(Xrun));
    assert Write(s, t, s.worker.left, -EPIPE, AfterSendReply(s.worker.left, -EPIPE));
    WorkerThen(s, t);
  }

  function CardWith(playback: Stream, capture: Stream): Card {
    Card(playback, capture, false, ALSA_BUFFER_SIZE, ALSA_PERIOD_SIZE, ALSA_BUFFER_SIZE + 1, 0,
         48_000, Params(48_000, ALSA_PERIOD_SIZE, ALSA_BUFFER_SIZE))
  }

  /** The worker at the head of the loop for the first time, streams not linked. */
  function Playing(capture: bool): Sys {
    Sys(Streaming, LoopCheck, false, Free, capture,
        CardWith(Stream(Running, ALSA_BUFFER_SIZE), if capture then Stream(Running, 0) else EMPTY),
        ALSA_BUFFER_SIZE, 1, false)
  }

  /** The block k of the priming, from its check to the next. */
  lemma PrimesABlock(s: Sys, k: nat)
    requires Reachable(s) && s.worker == Check(k, false) && k < BLOCKS && !s.stop
    requires s.card.playback.state == Prepared && NeverAutoStarts(s.card)
    requires s.card.playback.fill + ASIO_BUFFER_SIZE <= s.card.buffer
    ensures Reachable(Go(s, Check(k + 1, false)).(card := Queued(s.card, ASIO_BUFFER_SIZE),
                                                   accepted := s.accepted + ASIO_BUFFER_SIZE))
  {
    var n := ASIO_BUFFER_SIZE;
    var put := Go(s, Put(k, n, false));
    Then(s, put);
    var t := Go(put, Check(k + 1, false)).(card := Queued(s.card, n), accepted := s.accepted + n);
    assert Write(put, t, n, n, AfterPutReply(k, n, false, n));
    Then(put, t);
  }

  lemma Spawns(capture: bool, card: Card)
    requires card == CardWith(Stream(Prepared, 0), if capture then Stream(Prepared, 0) else EMPTY)
    ensures Reachable(Sys(Streaming, FirstSwitch, false, Free, capture, card, 0, 0, false))
  {
    var idle := Sys(Idle, NoThread, false, Free, capture, card, 0, 0, false);
    assert IsRun([idle]) && Created([idle][0]);
    hide Reachable, IsRun;
    var preparing := idle.(host := Preparing);
    HostThen(idle, preparing);
    if capture {
      var next := idle.(host := PreparingCapture);
      HostThen(preparing, next);
      HostThen(next, Spawned(next));
    } else {
      HostThen(preparing, Spawned(preparing));
    }
  }

  lemma Fills(capture: bool, card: Card)
    requires card == CardWith(Stream(Prepared, ALSA_BUFFER_SIZE), if capture then Stream(Prepared, 0) else EMPTY)
    ensures Reachable(Sys(Streaming, Recheck, false, ByWorker, capture, card, ALSA_BUFFER_SIZE, 0, false))
  {
    hide Reachable;
    var empty := CardWith(Stream(Prepared, 0), card.capture);
    var s := Sys(Streaming, FirstSwitch, false, Free, capture, empty, 0, 0, false);
    Spawns(capture, empty);
    WorkerThen(s, Go(s, Check(0, false)));
    PrimesABlock(Go(s, Check(0, false)), 0);
    var half := Queued(empty, ASIO_BUFFER_SIZE);
    PrimesABlock(Go(s, Check(1, false)).(card := half, accepted := ASIO_BUFFER_SIZE), 1);
    var full := Go(s, Check(2, false)).(card := card, accepted := ALSA_BUFFER_SIZE);
    WorkerThen(full, Go(full, Lock));
    WorkerThen(Go(full, Lock), Go(full, Recheck).(mutex := ByWorker));
  }

  /** A session gets to the head of the loop. */
  lemma Plays(capture: bool)
    ensures Reachable(Playing(capture))
  {
    hide Reachable;
    var full := Stream(Prepared, ALSA_BUFFER_SIZE);
    var card := CardWith(full, if capture then Stream(Prepared, 0) else EMPTY);
    var s := Sys(Streaming, Recheck, false, ByWorker, capture, card, ALSA_BUFFER_SIZE, 0, false);
    Fills(capture, card);
    var started := CardWith(full, Playing(capture).card.capture);
    var next := Go(s, StartingPlayback).(card := started);
    if capture {
      WorkerThen(s, Go(s, StartingCapture));
      assert StartCapture(card, started, true);
      WorkerThen(Go(s, StartingCapture), next);
    } else {
      WorkerThen(s, next);
    }
    var t := Playing(capture).(worker := Unlock(true), mutex := ByWorker);
    assert StartPlayback(started, t.card, true);
    WorkerThen(next, t);
    WorkerThen(t, Playing(capture));
  }

  /** The loop begins with a read when there is capture, else with a wait. */
  lemma EntersTheLoop(capture: bool)
    ensures Reachable(Go(Playing(capture), if capture then Reading(ASIO_BUFFER_SIZE) else Waiting))
  {
    Plays(capture);
    WorkerThen(Playing(capture), Go(Playing(capture), if capture then Reading(ASIO_BUFFER_SIZE) else Waiting));
  }

  /** From an xrun that was seen to the prepare of the recovery. */
  lemma Recovers(s: Sys)
    requires Reachable(s) && s.worker in {ReadCheck(Xrun), SendCheck(Xrun)} && !s.stop
    ensures Reachable(Go(s, Repreparing))
  {
    WorkerThen(s, Go(s, RecoverCheck));
    WorkerThen(Go(s, RecoverCheck), Go(s, Repreparing));
  }

  /** A whole stop up to the join, with a drop that succeeds or fails. */
  lemma Stops(s: Sys, ok: bool)
    requires Reachable(s) && s.host == Streaming && s.mutex == Free && !Separate(s)
    ensures Reachable(s.(host := Joining(ok), stop := true, dropped := ok,
                         card := if ok then WithPlayback(s.card, EMPTY) else s.card))
  {
    hide Reachable;
    var locking := s.(host := Locking, stop := true);
    HostThen(s, locking);
    var dropping := locking.(host := Dropping, mutex := ByHost);
    HostThen(locking, dropping);
    var card := if ok then WithPlayback(s.card, EMPTY) else s.card;
    var unlocking := dropping.(host := Unlocking(ok), card := card, dropped := ok);
    assert DropPlayback(s.card, card, ok);
    HostThen(dropping, unlocking);
    HostThen(unlocking, unlocking.(host := Joining(ok), mutex := Free));
  }

  lemma {:induction false} PathIsReachable(path: seq<Sys>)
    requires ByWorkerOnly(path) && Reachable(path[0])
    ensures Reachable(path[|path| - 1])
  {
    var n := |path| - 1;
    if n > 0 {
      assert WorkerStep(path[n - 1], path[n - 1 + 1]);
      PathIsReachable(path[..n]);
      WorkerThen(path[n - 1], path[n]);
    }
  }

  lemma LedIsReachable(s: Sys, t: Sys)
    requires Reachable(s) && WorkerLeads(s, t)
    ensures Reachable(t)
  {
    var path :| ByWorkerOnly(path) && path[0] == s && path[|path| - 1] == t;
    PathIsReachable(path);
  }

  /** Linked streams: a session starts. */
  lemma LinkedSessionStarts() returns (s: Sys)
    ensures Reachable(s) && s.card.linked && s.capture && s.host == Streaming && !s.stop && s.worker == LoopCheck
    ensures s.starts == 1 && s.accepted == 128 && s.card.playback.state == s.card.capture.state == Running
  {
    var card := CardWith(Stream(Prepared, 0), Stream(Prepared, 0)).(linked := true);
    var idle := Sys(Idle, NoThread, false, Free, true, card, 0, 0, false);
    assert IsRun([idle]) && Created([idle][0]);
    assert Reachable(idle);
    var spawned := SpawnsLinked(idle);
    var run :| IsRun(run) && Created(run[0]) && run[|run| - 1] == spawned;
    StartCompletes(run, |run| - 1, ASIO_BUFFER_SIZE);
    s :| WorkerLeads(spawned, s) && FullyStarted(spawned, s);
    LedIsReachable(spawned, s);
  }

  lemma SpawnsLinked(idle: Sys) returns (s: Sys)
    requires Reachable(idle) && idle.host == Idle && idle.card.linked && idle.capture
    requires idle.card.playback == idle.card.capture == Stream(Prepared, 0)
    ensures Reachable(s) && s == Spawned(idle).(dropped := false)
  {
    hide Reachable;
    var preparing := idle.(host := Preparing, dropped := false);
    HostThen(idle, preparing);
    s := Spawned(preparing);
    assert PreparePlayback(idle.card, idle.card, true);
    HostThen(preparing, s);
  }

  /** Linked streams: after an xrun the session starts again. */
  lemma LinkedSessionRecovers()
    ensures exists s ::
              && Reachable(s) && s.card.linked && s.worker == LoopCheck && s.starts == 2 && s.accepted == 256
              && s.card.playback.state == s.card.capture.state == Running
  {
    var s := LinkedSessionStarts();
    var seen := LinkedXrun(s);
    var run :| IsRun(run) && Created(run[0]) && run[|run| - 1] == seen;
    RecoveryCompletes(run, |run| - 1, ASIO_BUFFER_SIZE);
    var t :| WorkerLeads(seen, t) && FullyStarted(seen, t);
    LedIsReachable(seen, t);
  }

  lemma LinkedXrun(s: Sys) returns (t: Sys)
    requires Reachable(s) && s.worker == LoopCheck && s.capture && s.card.linked && !s.stop
    requires s.card.playback.state == s.card.capture.state == Running
    ensures Reachable(t) && t == Go(s, ReadCheck(Xrun)).(card := t.card) && NothingRuns(t.card, true)
    ensures t.card.linked
  {
    hide Reachable;
    t := Go(s, Reading(ASIO_BUFFER_SIZE));
    WorkerThen(s, t);
    var card := s.card.(playback := s.card.playback.(state := XRun), capture := s.card.capture.(state := XRun));
    TimeThen(t, card);
    t := t.(card := card);
    ReadThen(t, card, -EPIPE);
    t := Go(t, ReadCheck(Xrun));
  }

  // ---------- What goes wrong, and how tight the bounds are ----------

  /** A callback without capture finds no more queued than the output latency,
      and may find exactly that much. */
  lemma LatencyIsBound(run: seq<Sys>, i: nat)
    requires IsRun(run) && i < |run| && run[i].worker == Switch && !run[i].capture
    ensures run[i].card.playback.fill <= OUTPUT_LATENCY
  {
    RunKeepsInv(run, i);
  }

  lemma LatencyIsReached()
    ensures exists s :: Reachable(s) && s.worker == Switch && !s.capture && s.card.playback.fill == OUTPUT_LATENCY
  {
    hide Reachable;
    EntersTheLoop(false);
    var s := Go(Playing(false), Waiting);
    var card := CardWith(Stream(Running, OUTPUT_LATENCY), EMPTY);
    TimeThen(s, card);
    WaitThen(s.(card := card), 1);
    var have := Go(s, ReadCheck(Ok)).(card := card);
    WorkerThen(have, Go(have, Switch));
  }

  /** Streams that are not linked: capture overran, playback goes on. */
  lemma OverrunIsReached()
    ensures var over := CardWith(Playing(true).card.playback, Stream(XRun, 0));
            Reachable(Go(Playing(true), Repreparing).(card := over))
  {
    hide Reachable;
    EntersTheLoop(true);
    var s := Go(Playing(true), Reading(ASIO_BUFFER_SIZE));
    var card := CardWith(s.card.playback, Stream(XRun, 0));
    TimeThen(s, card);
    ReadThen(s.(card := card), card, -EPIPE);
    Recovers(Go(s, ReadCheck(Xrun)).(card := card));
  }

  /** There the prepare of the recovery ends the worker. */
  lemma OverrunEndsTheWorker()
    ensures exists s ::
              && Reachable(s) && s.worker == Repreparing && !s.stop
              && s.card.capture.state == XRun && s.card.playback.state == Running
              && forall t :: WorkerStep(s, t) ==> t.worker == Done
  {
    hide Reachable;
    OverrunIsReached();
    assert Reachable(Go(Playing(true), Repreparing).(card := CardWith(Playing(true).card.playback, Stream(XRun, 0))));
  }

  /** Streams that are not linked: playback underruns, capture goes on, and the
      second prepare of the recovery ends the worker unless capture stops first. */
  lemma UnderrunEndsTheWorker()
    ensures exists s ::
              && Reachable(s) && s.worker == Repreparing && !s.stop
              && s.card.playback.state == XRun && s.card.capture.state == Running
              && (exists m :: WorkerStep(s, m) && m.worker == RepreparingCapture)
              && forall m, t :: WorkerStep(s, m) && WorkerStep(m, t) ==> t.worker == Done
  {
    hide Reachable;
    SendsAfterAnUnderrun();
    var under := CardWith(Stream(XRun, 0), Stream(Running, 0));
    var s := Go(Playing(true), Sending(ASIO_BUFFER_SIZE)).(card := under);
    XrunInSend(s);
    Recovers(Go(s, SendCheck(Xrun)));
    var end := Go(s, Repreparing);
    var m := Go(end, RepreparingCapture).(card := CardWith(Stream(Prepared, 0), Stream(Running, 0)));
    assert WorkerStep(end, m);
    assert Reachable(end);
  }

  /** A block was read and handed over, and playback ran dry meanwhile. */
  lemma SendsAfterAnUnderrun()
    ensures var under := CardWith(Stream(XRun, 0), Stream(Running, 0));
            Reachable(Go(Playing(true), Sending(ASIO_BUFFER_SIZE)).(card := under))
  {
    hide Reachable;
    var n := ASIO_BUFFER_SIZE;
    EntersTheLoop(true);
    var s := Go(Playing(true), Reading(n));
    var captured := CardWith(Stream(Running, n), Stream(Running, n));
    TimeThen(s, captured);
    var taken := CardWith(Stream(Running, n), Stream(Running, 0));
    ReadThen(s.(card := captured), taken, n);
    var have := Go(s, ReadCheck(Ok)).(card := taken);
    WorkerThen(have, Go(have, Switch));
    WorkerThen(Go(have, Switch), Go(have, Sending(n)));
    TimeThen(Go(have, Sending(n)), CardWith(Stream(XRun, 0), Stream(Running, 0)));
  }

  /** A stop whose drop succeeds while the worker is on its way into a recovery:
      it returns OK and playback is prepared again. */
  lemma StoppedButPrepared()
    ensures exists s ::
              && Reachable(s) && s.host == Joining(true) && s.worker == Done
              && s.card.playback == Stream(Prepared, 0)
  {
    hide Reachable;
    EntersTheLoop(false);
    var s := Go(Playing(false), Waiting);
    var under := CardWith(Stream(XRun, 0), EMPTY);
    TimeThen(s, under);
    WaitThen(s.(card := under), -EPIPE);
    Recovers(Go(s, ReadCheck(Xrun)).(card := under));
    var recovering := Go(s, Repreparing).(card := under);
    Stops(recovering, true);
    var joining := recovering.(host := Joining(true), stop := true, card := CardWith(EMPTY, EMPTY), dropped := true);
    var again := Go(joining, Check(0, true)).(card := CardWith(Stream(Prepared, 0), EMPTY));
    WorkerThen(joining, again);
    WorkerThen(again, Go(again, Done));
  }

  /** Streams that are not linked: between their two drops the worker prepares
      playback, and the drops are over with the streams in different states. */
  lemma PreparedBetweenTheDrops()
    ensures exists s ::
              && Reachable(s) && s.host == Unlocking(true) && Separate(s)
              && s.card.playback == Stream(Prepared, 0) && s.card.capture == EMPTY
  {
    hide Reachable;
    OverrunIsReached();
    var over := CardWith(Playing(true).card.playback, Stream(XRun, 0));
    var s := Go(Playing(true), Repreparing).(card := over);
    var locking := s.(host := Locking, stop := true);
    HostThen(s, locking);
    var dropping := locking.(host := Dropping, mutex := ByHost);
    HostThen(locking, dropping);
    var half := dropping.(host := DroppingCapture(true), card := CardWith(EMPTY, Stream(XRun, 0)));
    assert DropPlayback(over, half.card, true);
    HostThen(dropping, half);
    var again := Go(half, RepreparingCapture).(card := CardWith(Stream(Prepared, 0), Stream(XRun, 0)));
    WorkerThen(half, again);
    var dropped := again.(host := Unlocking(true), card := CardWith(Stream(Prepared, 0), EMPTY), dropped := true);
    assert DropCapture(again.card, dropped.card, true);
    HostThen(again, dropped);
  }

  /** After a stop that could not drop the streams a start may be refused for as
      long as they run. */
  lemma FailedStopRefusesStart()
    ensures exists s ::
              && Reachable(s) && s.host == Preparing && s.card.playback.state == Running
              && forall t :: HostStep(s, t) ==> t.host == Idle
  {
    hide Reachable;
    Plays(false);
    Stops(Playing(false), false);
    var s := Playing(false).(host := Joining(false), stop := true);
    WorkerThen(s, Go(s, Done));
    var idle := s.(host := Idle, worker := NoThread);
    HostThen(Go(s, Done), idle);
    HostThen(idle, idle.(host := Preparing));
    assert Reachable(idle.(host := Preparing));
  }
}
