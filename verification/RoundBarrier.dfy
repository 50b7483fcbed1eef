// The test-group round barrier of concurrent_utils.c as a step system: one master thread calling
// test_group_thread_create, then test_group_start and test_group_wait in any order, then
// test_group_exit once; and any number of worker threads. A step is one lock, unlock, condition
// wait, broadcast, or shared read or write.
//
// `starts` and the four counters of a worker are history: no guard and no shared write reads them.
module RoundBarrier {

  datatype Status = NotStarted | Running | Stop | Finished

  datatype WorkerPc =
    | Unborn
    | Lock1        // pthread_mutex_lock before the wait loop
    | Check        // holding the mutex, at the wait loop's test
    | Sleep        // inside pthread_cond_wait, mutex released
    | Woken        // signalled (or spuriously woken), mutex not yet reacquired
    | Unlock1
    | Flip         // run_flag_l = run_flag_l ^ 1
    | ExitTest     // the unlocked read of exit_flag
    | SetRunning
    | CallTest
    | InTest
    | Lock2
    | Decrement
    | CheckZero
    | Broadcast
    | Unlock2
    | SetStop
    | SetFinished
    | Exited

  // flag: run_flag_l. seen: flips of it. begun, returned, reported: test calls begun, test calls
  // returned, decrements made.
  datatype Worker = Worker(pc: WorkerPc, flag: nat, status: Status,
                           seen: nat, begun: nat, returned: nat, reported: nat)

  datatype MasterPc =
    | Creating(k: nat)
    | Ready
    | StartRead | StartLock | StartFlip | StartCount | StartBroadcast | StartUnlock
    | WaitLock | WaitCheck | WaitSleep | WaitWoken | WaitUnlock
    | ExitLock | ExitSet | ExitBroadcast | ExitUnlock
    | Join(k: nat)
    | Done

  datatype Mutex = Free | ByMaster | ByWorker(i: nat)

  datatype State = State(
    runFlag: nat, exitFlag: nat, numRunning: nat, mutex: Mutex,
    workers: seq<Worker>, master: MasterPc, starts: nat)

  datatype Op = Start | Wait | Exit

  // Wake actions end a condition wait: after a broadcast they are not needed, without one they are
  // the spurious wakeups POSIX permits.
  datatype Action = WorkerStep(i: nat) | WorkerWake(i: nat) | MasterStep | MasterWake | Invoke(op: Op)

  function Toggle(b: nat): nat {
    if b == 0 then 1 else 0
  }

  function Minus1(x: nat): (r: nat) {
    if x == 0 then 0xFFFF_FFFF else x - 1
  }

  predicate WorkerEnabled(s: State, i: nat) {
    && i < |s.workers|
    && match s.workers[i].pc
       case Unborn => false
       case Sleep => false
       case Exited => false
       case Lock1 => s.mutex.Free?
       case Woken => s.mutex.Free?
       case Lock2 => s.mutex.Free?
       case _ => true
  }

  predicate MasterEnabled(s: State) {
    match s.master
    case Ready => false
    case WaitSleep => false
    case Done => false
    case StartLock => s.mutex.Free?
    case WaitLock => s.mutex.Free?
    case WaitWoken => s.mutex.Free?
    case ExitLock => s.mutex.Free?
    case Creating(k) => k <= |s.workers|
    case Join(k) => k >= |s.workers| || s.workers[k].pc.Exited?
    case _ => true
  }

  predicate Enabled(s: State, a: Action) {
    match a
    case WorkerStep(i) => WorkerEnabled(s, i)
    case WorkerWake(i) => i < |s.workers| && s.workers[i].pc.Sleep?
    case MasterStep => MasterEnabled(s)
    case MasterWake => s.master.WaitSleep?
    case Invoke(_) => s.master.Ready?
  }

  function Roused(w: Worker): Worker {
    if w.pc.Sleep? then w.(pc := Woken) else w
  }

  function RouseAll(ws: seq<Worker>): (r: seq<Worker>)
    ensures |r| == |ws|
  {
    seq(|ws|, i requires 0 <= i < |ws| => Roused(ws[i]))
  }

  // pthread_cond_broadcast: everybody asleep on the condition variable is woken.
  function WakeAll(s: State): State {
    s.(workers := RouseAll(s.workers),
    master := if s.master.WaitSleep? then WaitWoken else s.master)
  }

  function WithWorker(s: State, i: nat, w: Worker): State
    requires i < |s.workers|
  {
    s.(workers := s.workers[i := w])
  }

  function WorkerNext(s: State, i: nat): State
    requires WorkerEnabled(s, i)
  {
    var w := s.workers[i];
    match w.pc
    case Lock1 => WithWorker(s, i, w.(pc := Check)).(mutex := ByWorker(i))
    case Woken => WithWorker(s, i, w.(pc := Check)).(mutex := ByWorker(i))
    case Check =>
      if s.runFlag == w.flag && s.exitFlag == 0
      then WithWorker(s, i, w.(pc := Sleep)).(mutex := Free)
      else WithWorker(s, i, w.(pc := Unlock1))
    case Unlock1 => WithWorker(s, i, w.(pc := Flip)).(mutex := Free)
    case Flip => WithWorker(s, i, w.(pc := ExitTest, flag := Toggle(w.flag), seen := w.seen + 1))
    case ExitTest => WithWorker(s, i, w.(pc := if s.exitFlag == 0 then SetRunning else SetFinished))
    case SetRunning => WithWorker(s, i, w.(pc := CallTest, status := Running))
    case CallTest => WithWorker(s, i, w.(pc := InTest, begun := w.begun + 1))
    case InTest => WithWorker(s, i, w.(pc := Lock2, returned := w.returned + 1))
    case Lock2 => WithWorker(s, i, w.(pc := Decrement)).(mutex := ByWorker(i))
    case Decrement =>
      WithWorker(s, i, w.(pc := CheckZero, reported := w.reported + 1)).(numRunning := Minus1(s.numRunning))
    case CheckZero => WithWorker(s, i, w.(pc := if s.numRunning == 0 then Broadcast else Unlock2))
    case Broadcast => WithWorker(WakeAll(s), i, w.(pc := Unlock2))
    case Unlock2 => WithWorker(s, i, w.(pc := SetStop)).(mutex := Free)
    case SetStop => WithWorker(s, i, w.(pc := Lock1, status := Stop))
    case SetFinished => WithWorker(s, i, w.(pc := Exited, status := Finished))
  }

  function MasterNext(s: State): State
    requires MasterEnabled(s)
  {
    match s.master
    case Creating(k) =>
      if k < |s.workers|
      then WithWorker(s, k, s.workers[k].(pc := Lock1)).(master := Creating(k + 1))
      else s.(master := Ready)
    case StartRead => s.(master := if s.numRunning != 0 then Ready else StartLock)
    case StartLock => s.(master := StartFlip, mutex := ByMaster)
    case StartFlip => s.(master := StartCount, runFlag := Toggle(s.runFlag), starts := s.starts + 1)
    case StartCount => s.(master := StartBroadcast, numRunning := |s.workers|)
    case StartBroadcast => WakeAll(s).(master := StartUnlock)
    case StartUnlock => s.(master := Ready, mutex := Free)
    case WaitLock => s.(master := WaitCheck, mutex := ByMaster)
    case WaitWoken => s.(master := WaitCheck, mutex := ByMaster)
    case WaitCheck =>
      if s.numRunning != 0 then s.(master := WaitSleep, mutex := Free) else s.(master := WaitUnlock)
    case WaitUnlock => s.(master := Ready, mutex := Free)
    case ExitLock => s.(master := ExitSet, mutex := ByMaster)
    case ExitSet => s.(master := ExitBroadcast, exitFlag := 1)
    case ExitBroadcast => WakeAll(s).(master := ExitUnlock)
    case ExitUnlock => s.(master := Join(0), mutex := Free)
    case Join(k) => s.(master := if k < |s.workers| then Join(k + 1) else Done)
  }

  function Next(s: State, a: Action): State
    requires Enabled(s, a)
  {
    match a
    case WorkerStep(i) => WorkerNext(s, i)
    case WorkerWake(i) => WithWorker(s, i, s.workers[i].(pc := Woken))
    case MasterStep => MasterNext(s)
    case MasterWake => s.(master := WaitWoken)
    case Invoke(op) =>
      s.(master := match op case Start => StartRead case Wait => WaitLock case Exit => ExitLock)
  }

  // After test_group_create and the adds: n tests, no thread yet. num_test is an int.
  predicate Init(s: State, n: nat) {
    && n < 0x8000_0000
    && s == State(0, 0, 0, Free, seq(n, _ => Worker(Unborn, 0, NotStarted, 0, 0, 0, 0)), Creating(0), 0)
  }

  ghost predicate IsRun(states: seq<State>, actions: seq<Action>) {
    && |states| == |actions| + 1
    && forall i :: 0 <= i < |actions| ==>
         Enabled(states[i], actions[i]) && states[i + 1] == Next(states[i], actions[i])
  }
}
