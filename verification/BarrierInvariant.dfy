// The inductive invariant of the round barrier, for any number of workers and rounds.
module BarrierInvariant {
  import opened Sums
  import opened RoundBarrier

  // ----- per worker

  predicate HoldsMutex(pc: WorkerPc) {
    pc.Check? || pc.Unlock1? || pc.Decrement? || pc.CheckZero? || pc.Broadcast? || pc.Unlock2?
  }

  // Between one decrement and the next flip a worker has nothing in hand.
  predicate Between(w: Worker) {
    w.seen == w.begun == w.returned == w.reported
  }

  // Where a worker stands in its rounds: it has reported all the accepted starts or all but one.
  predicate RoundOk(w: Worker, starts: nat, exiting: bool) {
    && w.reported <= starts <= w.reported + 1
    && w.flag == w.seen % 2
    && match w.pc
       case Unborn => Between(w) && w.reported == 0
       case Lock1 => Between(w)
       case Check => Between(w)
       case Sleep => Between(w)
       case Woken => Between(w)
       case Unlock1 => Between(w) && (w.reported + 1 == starts || exiting)
       case Flip => Between(w) && (w.reported + 1 == starts || exiting)
       case ExitTest => w.seen == w.reported + 1 && w.begun == w.returned == w.reported
                        && (w.reported + 1 == starts || exiting)
       case SetRunning => w.seen == w.reported + 1 == starts && w.begun == w.returned == w.reported
       case CallTest => w.seen == w.reported + 1 == starts && w.begun == w.returned == w.reported
       case InTest => w.seen == w.begun == w.reported + 1 == starts && w.returned == w.reported
       case Lock2 => w.seen == w.begun == w.returned == w.reported + 1 == starts
       case Decrement => w.seen == w.begun == w.returned == w.reported + 1 == starts
       case CheckZero => Between(w) && w.reported == starts
       case Broadcast => Between(w) && w.reported == starts
       case Unlock2 => Between(w) && w.reported == starts
       case SetStop => Between(w)
       case SetFinished => exiting && w.seen == w.reported + 1 && w.begun == w.returned == w.reported
       case Exited => exiting && w.seen == w.reported + 1 && w.begun == w.returned == w.reported
  }

  // The status field: RUNNING from before the call until after the second unlock.
  predicate StatusOk(w: Worker) {
    match w.pc
    case CallTest => w.status == Running
    case InTest => w.status == Running
    case Lock2 => w.status == Running
    case Decrement => w.status == Running
    case CheckZero => w.status == Running && w.reported >= 1
    case Broadcast => w.status == Running && w.reported >= 1
    case Unlock2 => w.status == Running && w.reported >= 1
    case SetStop => w.status == Running && w.reported >= 1
    case Exited => w.status == Finished
    case _ => w.status == if w.reported == 0 then NotStarted else Stop
  }

  // A broadcast that will wake every sleeping worker is still to come, from the mutex holder.
  predicate BroadcastDue(m: MasterPc) {
    m.StartCount? || m.StartBroadcast? || m.ExitBroadcast?
  }

  // No lost wakeup: a worker asleep with its predicate true has a broadcast coming.
  predicate SleepOk(w: Worker, starts: nat, exiting: bool, m: MasterPc) {
    w.pc.Sleep? && (w.seen != starts || exiting) ==> BroadcastDue(m)
  }

  predicate WorkerInv(w: Worker, i: nat, mutex: Mutex, starts: nat, exiting: bool, m: MasterPc) {
    && RoundOk(w, starts, exiting) && StatusOk(w) && SleepOk(w, starts, exiting, m)
    && (mutex == ByWorker(i) <==> HoldsMutex(w.pc))
    && (w.pc.Unborn? <==> m.Creating? && i >= m.k)
    && (m.StartCount? ==> w.reported + 1 == starts)
  }

  ghost predicate Workers(s: State) {
    forall i: nat :: i < |s.workers| ==>
      WorkerInv(s.workers[i], i, s.mutex, s.starts, s.exitFlag == 1, s.master)
  }

  // ----- master and counters

  predicate MasterHolds(m: MasterPc) {
    m.StartFlip? || m.StartCount? || m.StartBroadcast? || m.StartUnlock? || m.WaitCheck? || m.WaitUnlock?
    || m.ExitSet? || m.ExitBroadcast? || m.ExitUnlock?
  }

  predicate AfterExit(m: MasterPc) {
    m.ExitBroadcast? || m.ExitUnlock? || m.Join? || m.Done?
  }

  predicate MasterInv(s: State) {
    && |s.workers| < 0x8000_0000
    && s.runFlag == s.starts % 2
    && (s.exitFlag == 0 || s.exitFlag == 1) && (s.exitFlag == 1 <==> AfterExit(s.master))
    && (s.mutex == ByMaster <==> MasterHolds(s.master))
    && (s.mutex.ByWorker? ==> s.mutex.i < |s.workers|)
    && (s.master.Creating? ==> s.master.k <= |s.workers| && s.starts == 0)
    && (s.master.StartLock? || s.master.StartFlip? || s.master.StartCount? || s.master.WaitUnlock? ==>
          s.numRunning == 0)
    && (s.master.Join? ==> s.master.k <= |s.workers|
                           && forall i :: 0 <= i < s.master.k ==> s.workers[i].pc.Exited?)
    && (s.master.Done? ==> forall i :: 0 <= i < |s.workers| ==> s.workers[i].pc.Exited?)
  }

  // The worker that makes the count zero broadcasts before the master can go on sleeping.
  ghost predicate WaitOk(s: State) {
    s.master.WaitSleep? && s.numRunning == 0 ==>
      exists i: nat :: i < |s.workers| && (s.workers[i].pc.CheckZero? || s.workers[i].pc.Broadcast?)
  }

  function Lag(w: Worker, starts: nat): nat {
    if w.reported == starts then 0 else 1
  }

  function Lags(ws: seq<Worker>, starts: nat): (xs: seq<nat>)
    ensures |xs| == |ws|
  {
    seq(|ws|, i requires 0 <= i < |ws| => Lag(ws[i], starts))
  }

  // Conservation: the count is the number of workers that have not reported the current round.
  ghost predicate Counted(s: State) {
    s.numRunning == if s.master.StartCount? then 0 else Sum(Lags(s.workers, s.starts))
  }

  ghost predicate Inv(s: State) {
    MasterInv(s) && Workers(s) && WaitOk(s) && Counted(s)
  }

  // ----- preservation

  lemma LagsUpdate(ws: seq<Worker>, i: nat, w: Worker, starts: nat)
    requires i < |ws|
    ensures Sum(Lags(ws[i := w], starts)) + Lag(ws[i], starts) == Sum(Lags(ws, starts)) + Lag(w, starts)
  {
    assert Lags(ws[i := w], starts) == Lags(ws, starts)[i := Lag(w, starts)];
    SumUpdate(Lags(ws, starts), i, Lag(w, starts));
  }

  lemma AllReported(s: State)
    requires Counted(s) && s.numRunning == 0 && !s.master.StartCount?
    ensures forall i :: 0 <= i < |s.workers| ==> s.workers[i].reported == s.starts
  {
    SumZero(Lags(s.workers, s.starts));
    forall i | 0 <= i < |s.workers|
      ensures s.workers[i].reported == s.starts
    {
      assert Lags(s.workers, s.starts)[i] == 0;
    }
  }

  lemma InitInv(s: State, n: nat)
    requires Init(s, n)
    ensures Inv(s)
  {
    SumZero(Lags(s.workers, s.starts));
  }

  // A worker that does not move is not disturbed by another locking or unlocking.
  lemma BystanderKeeps(w: Worker, j: nat, i: nat, mutex: Mutex, mutex': Mutex, starts: nat, exiting: bool, m: MasterPc)
    requires WorkerInv(w, j, mutex, starts, exiting, m) && i != j
    requires mutex' == mutex || (mutex.Free? && mutex' == ByWorker(i)) || (mutex == ByWorker(i) && mutex'.Free?)
    ensures WorkerInv(w, j, mutex', starts, exiting, m)
  {
  }

  // What a quiet step leaves to the moving worker itself.
  ghost predicate OwnKept(s: State, s': State, i: nat)
    requires i < |s.workers| && i < |s'.workers|
  {
    && WorkerInv(s'.workers[i], i, s'.mutex, s'.starts, s'.exitFlag == 1, s'.master)
    && s'.workers[i].reported == s.workers[i].reported
    && (s'.mutex == s.mutex || (s.mutex.Free? && s'.mutex == ByWorker(i)) || (s.mutex == ByWorker(i) && s'.mutex.Free?))
  }

  predicate BeforeTest(pc: WorkerPc) {
    pc.Lock1? || pc.Check? || pc.Woken? || pc.Unlock1? || pc.Flip?
  }

  // Up to the flip: comparing one bit tells whether a start has been accepted since the last report.
  lemma OwnStepBeforeTest(s: State, i: nat)
    requires Inv(s) && WorkerEnabled(s, i) && BeforeTest(s.workers[i].pc)
    ensures OwnKept(s, WorkerNext(s, i), i)
  {
    hide WaitOk, Counted;
    assert WorkerInv(s.workers[i], i, s.mutex, s.starts, s.exitFlag == 1, s.master);
  }

  predicate AfterReport(pc: WorkerPc) {
    pc.CheckZero? || pc.Unlock2? || pc.SetStop?
  }

  lemma OwnStepAfterReport(s: State, i: nat)
    requires Inv(s) && WorkerEnabled(s, i) && AfterReport(s.workers[i].pc)
    ensures OwnKept(s, WorkerNext(s, i), i)
  {
    hide WaitOk, Counted;
    assert WorkerInv(s.workers[i], i, s.mutex, s.starts, s.exitFlag == 1, s.master);
  }

  lemma OwnStepInTest(s: State, i: nat)
    requires Inv(s) && WorkerEnabled(s, i) && !BeforeTest(s.workers[i].pc) && !AfterReport(s.workers[i].pc)
    requires !s.workers[i].pc.Decrement? && !s.workers[i].pc.Broadcast?
    ensures OwnKept(s, WorkerNext(s, i), i)
  {
    hide WaitOk, Counted;
    assert WorkerInv(s.workers[i], i, s.mutex, s.starts, s.exitFlag == 1, s.master);
  }

  lemma HolderIs(s: State, i: nat)
    requires Workers(s) && i < |s.workers|
    ensures HoldsMutex(s.workers[i].pc) <==> s.mutex == ByWorker(i)
  {
    assert WorkerInv(s.workers[i], i, s.mutex, s.starts, s.exitFlag == 1, s.master);
  }

  lemma QuietKeepsMaster(s: State, i: nat)
    requires MasterInv(s) && WorkerEnabled(s, i)
    requires !s.workers[i].pc.Decrement? && !s.workers[i].pc.Broadcast?
    requires HoldsMutex(s.workers[i].pc) <==> s.mutex == ByWorker(i)
    ensures MasterInv(WorkerNext(s, i))
  {
    var s' := WorkerNext(s, i);
    forall j | 0 <= j < |s.workers| && s.workers[j].pc.Exited?
      ensures s'.workers[j].pc.Exited?
    {
    }
  }

  lemma QuietWaitOk(s: State, i: nat)
    requires Inv(s) && WorkerEnabled(s, i)
    requires !s.workers[i].pc.Decrement? && !s.workers[i].pc.Broadcast?
    ensures WaitOk(WorkerNext(s, i))
  {
    hide Workers, Counted, MasterInv;
    var s' := WorkerNext(s, i);
    if s.master.WaitSleep? && s.numRunning == 0 {
      var j: nat :| j < |s.workers| && (s.workers[j].pc.CheckZero? || s.workers[j].pc.Broadcast?);
      assert s'.workers[j].pc.CheckZero? || s'.workers[j].pc.Broadcast?;
    }
  }

  // A step of one worker that is neither a decrement nor a broadcast.
  lemma QuietWorkerKeeps(s: State, i: nat)
    requires Inv(s) && WorkerEnabled(s, i)
    requires !s.workers[i].pc.Decrement? && !s.workers[i].pc.Broadcast?
    ensures Inv(WorkerNext(s, i))
  {
    hide MasterInv, RoundOk, StatusOk, SleepOk, WaitOk, WorkerInv, Sum;
    var s' := WorkerNext(s, i);
    if BeforeTest(s.workers[i].pc) {
      OwnStepBeforeTest(s, i);
    } else if AfterReport(s.workers[i].pc) {
      OwnStepAfterReport(s, i);
    } else {
      OwnStepInTest(s, i);
    }
    HolderIs(s, i);
    QuietKeepsMaster(s, i);
    QuietWaitOk(s, i);
    LagsUpdate(s.workers, i, s'.workers[i], s.starts);
    forall j: nat | j < |s'.workers|
      ensures WorkerInv(s'.workers[j], j, s'.mutex, s'.starts, s'.exitFlag == 1, s'.master)
    {
      if j != i {
        BystanderKeeps(s.workers[j], j, i, s.mutex, s'.mutex, s.starts, s.exitFlag == 1, s.master);
      }
    }
  }

  lemma DecrementKeeps(s: State, i: nat)
    requires Inv(s) && WorkerEnabled(s, i) && s.workers[i].pc.Decrement?
    ensures Inv(WorkerNext(s, i)) && s.numRunning >= 1
  {
    var s' := WorkerNext(s, i);
    LagsUpdate(s.workers, i, s'.workers[i], s.starts);
    forall j: nat | j < |s'.workers|
      ensures WorkerInv(s'.workers[j], j, s'.mutex, s'.starts, s'.exitFlag == 1, s'.master)
    {
      assert WorkerInv(s.workers[j], j, s.mutex, s.starts, s.exitFlag == 1, s.master);
      assert WorkerInv(s.workers[i], i, s.mutex, s.starts, s.exitFlag == 1, s.master);
    }
    assert s'.workers[i].pc.CheckZero?;
  }

  lemma RousedLags(s: State)
    ensures Lags(WakeAll(s).workers, s.starts) == Lags(s.workers, s.starts)
  {
  }

  lemma BroadcastKeeps(s: State, i: nat)
    requires Inv(s) && WorkerEnabled(s, i) && s.workers[i].pc.Broadcast?
    ensures Inv(WorkerNext(s, i))
  {
    var s' := WorkerNext(s, i);
    RousedLags(s);
    LagsUpdate(WakeAll(s).workers, i, s'.workers[i], s.starts);
    forall j: nat | j < |s'.workers|
      ensures WorkerInv(s'.workers[j], j, s'.mutex, s'.starts, s'.exitFlag == 1, s'.master)
    {
      assert WorkerInv(s.workers[j], j, s.mutex, s.starts, s.exitFlag == 1, s.master);
      assert WorkerInv(s.workers[i], i, s.mutex, s.starts, s.exitFlag == 1, s.master);
    }
  }

  lemma WakeKeeps(s: State, i: nat)
    requires Inv(s) && i < |s.workers| && s.workers[i].pc.Sleep?
    ensures Inv(WithWorker(s, i, s.workers[i].(pc := Woken)))
  {
    var s' := WithWorker(s, i, s.workers[i].(pc := Woken));
    LagsUpdate(s.workers, i, s'.workers[i], s.starts);
    forall j: nat | j < |s'.workers|
      ensures WorkerInv(s'.workers[j], j, s'.mutex, s'.starts, s'.exitFlag == 1, s'.master)
    {
      assert WorkerInv(s.workers[j], j, s.mutex, s.starts, s.exitFlag == 1, s.master);
    }
    if j: nat :| j < |s.workers| && (s.workers[j].pc.CheckZero? || s.workers[j].pc.Broadcast?) {
      assert s'.workers[j] == s.workers[j];
    }
  }

  // The master's own steps that change no worker and no counter.
  lemma QuietMasterKeeps(s: State)
    requires Inv(s) && MasterEnabled(s)
    requires !s.master.Creating? && !s.master.StartFlip? && !s.master.StartCount?
    requires !s.master.StartBroadcast? && !s.master.ExitBroadcast?
    ensures Inv(MasterNext(s))
  {
    hide Sum, Lags, StatusOk;
    var s' := MasterNext(s);
    QuietMasterInv(s);
    QuietMasterWaits(s);
    forall j: nat | j < |s'.workers|
      ensures WorkerInv(s'.workers[j], j, s'.mutex, s'.starts, s'.exitFlag == 1, s'.master)
    {
      hide MasterInv;
      assert WorkerInv(s.workers[j], j, s.mutex, s.starts, s.exitFlag == 1, s.master);
      MasterMoves(s.workers[j], j, s.mutex, s'.mutex, s.starts, s.exitFlag == 1, s'.exitFlag == 1, s.master, s'.master);
    }
  }

  lemma QuietMasterInv(s: State)
    requires Inv(s) && MasterEnabled(s)
    requires !s.master.Creating? && !s.master.StartFlip? && !s.master.StartCount?
    requires !s.master.StartBroadcast? && !s.master.ExitBroadcast?
    ensures var s' := MasterNext(s);
            && MasterInv(s')
            && (s'.mutex == s.mutex || (s.mutex.Free? && s'.mutex == ByMaster) || (s.mutex == ByMaster && s'.mutex.Free?))
            && (s'.exitFlag == 1 <==> s.exitFlag == 1 || s.master.ExitSet?)
  {
    hide Workers, WaitOk, Counted;
  }

  // The master falls asleep only when the count is not zero.
  lemma QuietMasterWaits(s: State)
    requires Inv(s) && MasterEnabled(s)
    requires !s.master.Creating? && !s.master.StartFlip? && !s.master.StartCount?
    requires !s.master.StartBroadcast? && !s.master.ExitBroadcast?
    ensures WaitOk(MasterNext(s)) && Counted(MasterNext(s))
  {
    hide Workers, MasterInv;
  }

  lemma MasterMoves(w: Worker, j: nat, mutex: Mutex, mutex': Mutex, starts: nat,
                    exiting: bool, exiting': bool, m: MasterPc, m': MasterPc)
    requires WorkerInv(w, j, mutex, starts, exiting, m)
    requires mutex' == mutex || (mutex.Free? && mutex' == ByMaster) || (mutex == ByMaster && mutex'.Free?)
    requires !m.Creating? && !m'.Creating? && !m'.StartCount?
    requires BroadcastDue(m) ==> BroadcastDue(m')
    requires exiting' == exiting || m'.ExitBroadcast?
    requires exiting ==> exiting'
    ensures WorkerInv(w, j, mutex', starts, exiting', m')
  {
  }

  lemma CreateKeeps(s: State)
    requires Inv(s) && MasterEnabled(s) && s.master.Creating?
    ensures Inv(MasterNext(s))
  {
    hide Sum, Lags;
    var s' := MasterNext(s);
    if s.master.k < |s.workers| { LagsUpdate(s.workers, s.master.k, s'.workers[s.master.k], s.starts); }
    forall j: nat | j < |s'.workers|
      ensures WorkerInv(s'.workers[j], j, s'.mutex, s'.starts, s'.exitFlag == 1, s'.master)
    {
      assert WorkerInv(s.workers[j], j, s.mutex, s.starts, s.exitFlag == 1, s.master);
    }
  }

  // Accepting a start: every worker has reported the previous round and has nothing in hand.
  lemma StartNeedsAllReported(s: State)
    requires Inv(s) && s.master.StartFlip?
    ensures MasterNext(s).starts == s.starts + 1
    ensures forall i :: 0 <= i < |s.workers| ==> s.workers[i].reported == s.starts && Between(s.workers[i])
  {
    AllReported(s);
    forall i: nat | i < |s.workers|
      ensures Between(s.workers[i])
    {
      assert WorkerInv(s.workers[i], i, s.mutex, s.starts, s.exitFlag == 1, s.master);
    }
  }

  lemma FlipKeeps(s: State)
    requires Inv(s) && s.master.StartFlip?
    ensures Inv(MasterNext(s))
  {
    var s' := MasterNext(s);
    AllReported(s);
    forall j: nat | j < |s'.workers|
      ensures WorkerInv(s'.workers[j], j, s'.mutex, s'.starts, s'.exitFlag == 1, s'.master)
    {
      assert WorkerInv(s.workers[j], j, s.mutex, s.starts, s.exitFlag == 1, s.master);
    }
  }

  lemma CountKeeps(s: State)
    requires Inv(s) && s.master.StartCount?
    ensures Inv(MasterNext(s))
  {
    var s' := MasterNext(s);
    forall j: nat | j < |s'.workers|
      ensures WorkerInv(s'.workers[j], j, s'.mutex, s'.starts, s'.exitFlag == 1, s'.master)
      ensures Lags(s'.workers, s'.starts)[j] == 1
    {
      assert WorkerInv(s.workers[j], j, s.mutex, s.starts, s.exitFlag == 1, s.master);
    }
    SumOfOnes(Lags(s'.workers, s'.starts));
  }

  lemma MasterBroadcastKeeps(s: State)
    requires Inv(s) && (s.master.StartBroadcast? || s.master.ExitBroadcast?)
    ensures Inv(MasterNext(s))
  {
    var s' := MasterNext(s);
    RousedLags(s);
    forall j: nat | j < |s'.workers|
      ensures WorkerInv(s'.workers[j], j, s'.mutex, s'.starts, s'.exitFlag == 1, s'.master)
    {
      assert WorkerInv(s.workers[j], j, s.mutex, s.starts, s.exitFlag == 1, s.master);
    }
  }

  lemma InvokeKeeps(s: State, op: Op)
    requires Inv(s) && s.master.Ready?
    ensures Inv(Next(s, Invoke(op)))
  {
    var s' := Next(s, Invoke(op));
    forall j: nat | j < |s'.workers|
      ensures WorkerInv(s'.workers[j], j, s'.mutex, s'.starts, s'.exitFlag == 1, s'.master)
    {
      assert WorkerInv(s.workers[j], j, s.mutex, s.starts, s.exitFlag == 1, s.master);
    }
  }

  lemma MasterWakeKeeps(s: State)
    requires Inv(s) && s.master.WaitSleep?
    ensures Inv(Next(s, MasterWake))
  {
    var s' := Next(s, MasterWake);
    forall j: nat | j < |s'.workers|
      ensures WorkerInv(s'.workers[j], j, s'.mutex, s'.starts, s'.exitFlag == 1, s'.master)
    {
      assert WorkerInv(s.workers[j], j, s.mutex, s.starts, s.exitFlag == 1, s.master);
    }
  }

  lemma StepKeeps(s: State, a: Action)
    requires Inv(s) && Enabled(s, a)
    ensures Inv(Next(s, a))
  {
    hide Inv, WorkerNext, MasterNext;
    match a
    case WorkerStep(i) =>
      if s.workers[i].pc.Decrement? { DecrementKeeps(s, i); }
      else if s.workers[i].pc.Broadcast? { BroadcastKeeps(s, i); }
      else { QuietWorkerKeeps(s, i); }
    case WorkerWake(i) => WakeKeeps(s, i);
    case MasterStep =>
      if s.master.Creating? { CreateKeeps(s); }
      else if s.master.StartFlip? { FlipKeeps(s); }
      else if s.master.StartCount? { CountKeeps(s); }
      else if s.master.StartBroadcast? || s.master.ExitBroadcast? { MasterBroadcastKeeps(s); }
      else { QuietMasterKeeps(s); }
    case MasterWake => MasterWakeKeeps(s);
    case Invoke(op) => InvokeKeeps(s, op);
  }

  // Every state of every run satisfies the invariant, whatever the number of workers and rounds.
  lemma {:induction false} RunKeeps(states: seq<State>, actions: seq<Action>, workers: nat, n: nat)
    requires IsRun(states, actions) && Init(states[0], workers) && n <= |actions|
    ensures Inv(states[n])
  {
    if n == 0 {
      InitInv(states[0], workers);
    } else {
      RunKeeps(states, actions, workers, n - 1);
      StepKeeps(states[n - 1], actions[n - 1]);
    }
  }
}
