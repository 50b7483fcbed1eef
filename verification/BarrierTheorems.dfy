// What the test group guarantees to its caller, over whole runs.
module BarrierTheorems {
  import opened Sums
  import opened RoundBarrier
  import opened BarrierInvariant

  // One bit is enough: at every wait-loop test of every run, comparing run_flag with run_flag_l is
  // comparing the number of accepted starts with the number the worker has answered.
  lemma OneBitIsEnough(states: seq<State>, actions: seq<Action>, workers: nat, n: nat, i: nat)
    requires IsRun(states, actions) && Init(states[0], workers) && n <= |actions|
    requires i < |states[n].workers| && states[n].workers[i].pc.Check?
    ensures var s, w := states[n], states[n].workers[i];
            && (s.starts == w.seen || s.starts == w.seen + 1)
            && (s.runFlag == w.flag <==> s.starts == w.seen)
  {
    RunKeeps(states, actions, workers, n);
    var s := states[n];
    assert WorkerInv(s.workers[i], i, s.mutex, s.starts, s.exitFlag == 1, s.master);
  }

  // On every run, a worker's calls never run ahead of the accepted starts nor fall behind by more
  // than one, and a call begins only as the one call of the current round.
  lemma CallsFollowStarts(states: seq<State>, actions: seq<Action>, workers: nat, n: nat, i: nat)
    requires IsRun(states, actions) && Init(states[0], workers) && n <= |actions|
    requires i < |states[n].workers|
    ensures var s, w := states[n], states[n].workers[i];
            && w.returned <= w.begun <= s.starts <= w.returned + 1
            && (n < |actions| && actions[n] == WorkerStep(i) && states[n + 1].workers[i].begun != w.begun ==>
                  states[n + 1].workers[i].begun == s.starts)
  {
    RunKeeps(states, actions, workers, n);
    var s := states[n];
    assert WorkerInv(s.workers[i], i, s.mutex, s.starts, s.exitFlag == 1, s.master);
    if n < |actions| && actions[n] == WorkerStep(i) { CallCounts(s, i); }
  }

  // Only a call raises `begun`, and then by one.
  lemma CallCounts(s: State, i: nat)
    requires WorkerEnabled(s, i) && Inv(s)
    ensures i < |WorkerNext(s, i).workers|
    ensures WorkerNext(s, i).workers[i].begun != s.workers[i].begun ==>
              s.workers[i].pc.CallTest? && WorkerNext(s, i).workers[i].begun == s.workers[i].begun + 1 == s.starts
  {
    hide WaitOk, Counted, MasterInv;
    assert WorkerInv(s.workers[i], i, s.mutex, s.starts, s.exitFlag == 1, s.master);
  }

  // The countdown never underflows.
  lemma NoUnderflow(s: State, i: nat)
    requires Inv(s) && i < |s.workers| && s.workers[i].pc.Decrement?
    ensures 1 <= s.numRunning <= |s.workers|
    ensures Next(s, WorkerStep(i)).numRunning == s.numRunning - 1
  {
    DecrementKeeps(s, i);
    SumAtMost(Lags(s.workers, s.starts), 1);
  }

  // The countdown is the number of workers still to report the current round.
  lemma CountdownCounts(s: State)
    requires Inv(s) && !s.master.StartCount?
    ensures s.numRunning == |set i | 0 <= i < |s.workers| && s.workers[i].reported != s.starts|
  {
    LagsAreASet(s.workers, s.starts);
  }

  lemma {:induction false} LagsAreASet(ws: seq<Worker>, starts: nat)
    ensures Sum(Lags(ws, starts)) == |set i | 0 <= i < |ws| && ws[i].reported != starts|
  {
    if |ws| > 0 {
      var n := |ws| - 1;
      var front := ws[..n];
      LagsAreASet(front, starts);
      assert Lags(ws, starts) == Lags(front, starts) + [Lag(ws[n], starts)];
      SumSnoc(Lags(front, starts), Lag(ws[n], starts));
      var before := set i | 0 <= i < |front| && front[i].reported != starts;
      var all := set i | 0 <= i < |ws| && ws[i].reported != starts;
      if ws[n].reported != starts {
        assert all == before + {n};
      } else {
        assert all == before;
      }
    }
  }

  lemma {:induction false} SumSnoc(xs: seq<nat>, v: nat)
    ensures Sum(xs + [v]) == Sum(xs) + v
  {
    if |xs| > 0 {
      assert (xs + [v])[1..] == xs[1..] + [v];
      SumSnoc(xs[1..], v);
    }
  }

  // The barrier: test_group_wait is about to return only when every call of every accepted round
  // has returned and no later call has begun; and its last step does return.
  lemma WaitIsABarrier(s: State)
    requires Inv(s) && s.master.WaitUnlock?
    ensures forall i :: 0 <= i < |s.workers| ==>
              s.workers[i].begun == s.workers[i].returned == s.starts
    ensures Enabled(s, MasterStep) && Next(s, MasterStep) == s.(master := Ready, mutex := Free)
  {
    AllReported(s);
    forall i: nat | i < |s.workers|
      ensures s.workers[i].begun == s.workers[i].returned == s.starts
    {
      assert WorkerInv(s.workers[i], i, s.mutex, s.starts, s.exitFlag == 1, s.master);
    }
  }

  // At that moment a worker's status may still be TEST_RUNNING: exactly when it has reported but
  // not yet stored TEST_STOP.
  lemma StatusWhenWaitReturns(s: State, i: nat)
    requires Inv(s) && s.master.WaitUnlock? && i < |s.workers| && s.starts >= 1
    ensures s.workers[i].status == Running <==> s.workers[i].pc.SetStop?
    ensures s.workers[i].status == Stop <==> !s.workers[i].pc.SetStop?
  {
    AllReported(s);
    assert WorkerInv(s.workers[i], i, s.mutex, s.starts, s.exitFlag == 1, s.master);
  }

  // ----- no lost wakeup, no deadlock

  // Worker i sleeps although the condition of its wait loop is already over.
  predicate AsleepReady(s: State, i: nat)
    requires i < |s.workers|
  {
    s.workers[i].pc.Sleep? && !(s.runFlag == s.workers[i].flag && s.exitFlag == 0)
  }

  // In every state of every run, no worker and no master sleeps with its condition over unless a
  // broadcast is still to come.
  lemma NoLostWakeup(states: seq<State>, actions: seq<Action>, workers: nat, n: nat)
    requires IsRun(states, actions) && Init(states[0], workers) && n <= |actions|
    ensures var s := states[n];
            && (forall i :: 0 <= i < |s.workers| && AsleepReady(s, i) ==> BroadcastDue(s.master))
            && (s.master.WaitSleep? && s.numRunning == 0 ==>
                  s.mutex.ByWorker? && s.mutex.i < |s.workers|
                  && (s.workers[s.mutex.i].pc.CheckZero? || s.workers[s.mutex.i].pc.Broadcast?))
  {
    RunKeeps(states, actions, workers, n);
    SleepersAwaitBroadcast(states[n]);
  }

  lemma SleepersAwaitBroadcast(s: State)
    requires Inv(s)
    ensures forall i :: 0 <= i < |s.workers| && AsleepReady(s, i) ==> BroadcastDue(s.master)
    ensures s.master.WaitSleep? && s.numRunning == 0 ==>
              s.mutex.ByWorker? && s.mutex.i < |s.workers|
              && (s.workers[s.mutex.i].pc.CheckZero? || s.workers[s.mutex.i].pc.Broadcast?)
  {
    forall i: nat | i < |s.workers| && AsleepReady(s, i)
      ensures BroadcastDue(s.master)
    {
      assert WorkerInv(s.workers[i], i, s.mutex, s.starts, s.exitFlag == 1, s.master);
    }
    if s.master.WaitSleep? && s.numRunning == 0 {
      var i: nat :| i < |s.workers| && (s.workers[i].pc.CheckZero? || s.workers[i].pc.Broadcast?);
      assert WorkerInv(s.workers[i], i, s.mutex, s.starts, s.exitFlag == 1, s.master);
    }
  }

  // A worker that owes a report, or that has been told to exit, is not asleep once the broadcast
  // has gone out.
  lemma OwingWorkerMoves(s: State, i: nat)
    requires Inv(s) && i < |s.workers| && s.mutex.Free? && !s.master.Creating?
    requires !BroadcastDue(s.master)
    requires (s.workers[i].reported != s.starts && s.exitFlag == 0)
             || (s.exitFlag == 1 && !s.workers[i].pc.Exited?)
    ensures WorkerEnabled(s, i)
  {
    assert WorkerInv(s.workers[i], i, s.mutex, s.starts, s.exitFlag == 1, s.master);
  }

  // Whenever the master is blocked, on the mutex, in wait or in join, some worker can step; and so
  // it can while the master makes no call, as long as a report is owed.
  lemma BlockedMasterHasAWorker(s: State) returns (i: nat)
    requires Inv(s) && !MasterEnabled(s) && !s.master.Done?
    requires s.master.Ready? ==> s.numRunning != 0
    ensures WorkerEnabled(s, i)
  {
    if s.mutex.ByWorker? {
      i := s.mutex.i;
      assert WorkerInv(s.workers[i], i, s.mutex, s.starts, s.exitFlag == 1, s.master);
    } else if s.master.Join? {
      i := s.master.k;
      OwingWorkerMoves(s, i);
    } else {
      SleepersAwaitBroadcast(s);
      SumZero(Lags(s.workers, s.starts));
      i :| i < |s.workers| && Lags(s.workers, s.starts)[i] != 0;
      OwingWorkerMoves(s, i);
    }
  }

  // ----- a round ends

  function RoundRank(pc: WorkerPc): nat {
    match pc
    case SetStop => 13
    case Sleep => 13
    case Lock1 => 12
    case Woken => 12
    case Check => 11
    case Unlock1 => 10
    case Flip => 9
    case ExitTest => 8
    case SetRunning => 7
    case CallTest => 6
    case InTest => 5
    case Lock2 => 4
    case Decrement => 3
    case _ => 0
  }

  function Owed(w: Worker, starts: nat): nat {
    if w.reported == starts then 0 else RoundRank(w.pc)
  }

  function Owes(ws: seq<Worker>, starts: nat): (xs: seq<nat>)
    ensures |xs| == |ws|
  {
    seq(|ws|, i requires 0 <= i < |ws| => Owed(ws[i], starts))
  }

  // Steps left to the workers that have not reported the current round.
  function RoundWork(s: State): nat {
    Sum(Owes(s.workers, s.starts))
  }

  lemma OwesUpdate(ws: seq<Worker>, i: nat, w: Worker, starts: nat)
    requires i < |ws|
    ensures Sum(Owes(ws[i := w], starts)) + Owed(ws[i], starts) == Sum(Owes(ws, starts)) + Owed(w, starts)
  {
    assert Owes(ws[i := w], starts) == Owes(ws, starts)[i := Owed(w, starts)];
    SumUpdate(Owes(ws, starts), i, Owed(w, starts));
  }

  function IsOwing(s: State, a: Action): nat {
    if a.WorkerStep? && a.i < |s.workers| && s.workers[a.i].reported != s.starts then 1 else 0
  }

  // Until the next accepted start or the exit, no step adds work to the round, and each step of a
  // worker that has not reported removes some.
  lemma RoundWorkDrops(s: State, a: Action)
    requires Inv(s) && Enabled(s, a) && s.exitFlag == 0 && !s.master.Creating?
    requires !(a.MasterStep? && s.master.StartFlip?)
    ensures RoundWork(Next(s, a)) + IsOwing(s, a) <= RoundWork(s)
  {
    match a
    case WorkerStep(i) => WorkerRoundWork(s, i);
    case WorkerWake(i) => OwesUpdate(s.workers, i, s.workers[i].(pc := Woken), s.starts);
    case MasterStep =>
      RousedOwes(s.workers, s.starts);
      assert s.master.StartBroadcast? || s.master.ExitBroadcast? || Next(s, a).workers == s.workers;
    case MasterWake =>
    case Invoke(_) =>
  }

  lemma RousedOwes(ws: seq<Worker>, starts: nat)
    ensures Sum(Owes(RouseAll(ws), starts)) <= Sum(Owes(ws, starts))
  {
    SumMonotone(Owes(RouseAll(ws), starts), Owes(ws, starts));
  }

  lemma WorkerRoundWork(s: State, i: nat)
    requires Inv(s) && WorkerEnabled(s, i) && s.exitFlag == 0
    ensures RoundWork(WorkerNext(s, i)) + IsOwing(s, WorkerStep(i)) <= RoundWork(s)
  {
    hide Sum, Owes, WaitOk, Counted;
    var w := s.workers[i];
    var s' := WorkerNext(s, i);
    assert WorkerInv(w, i, s.mutex, s.starts, s.exitFlag == 1, s.master);
    if w.pc.Broadcast? {
      RousedOwes(s.workers, s.starts);
      OwesUpdate(RouseAll(s.workers), i, s'.workers[i], s.starts);
    } else {
      OwesUpdate(s.workers, i, s'.workers[i], s.starts);
    }
  }

  function OwingSteps(states: seq<State>, actions: seq<Action>): nat
    requires |states| == |actions| + 1
    decreases |actions|
  {
    if |actions| == 0 then 0
    else IsOwing(states[|actions| - 1], actions[|actions| - 1])
         + OwingSteps(states[..|actions|], actions[..|actions| - 1])
  }

  // A round needs at most 13 steps of each worker that has to report it, however the threads
  // interleave and however many spurious wakeups there are.
  lemma {:induction false} RoundIsBounded(states: seq<State>, actions: seq<Action>)
    requires IsRun(states, actions) && Inv(states[0]) && !states[0].master.Creating?
    requires forall i :: 0 <= i < |actions| ==>
               states[i].exitFlag == 0 && !(actions[i].MasterStep? && states[i].master.StartFlip?)
    ensures Inv(states[|actions|]) && !states[|actions|].master.Creating?
    ensures OwingSteps(states, actions) + RoundWork(states[|actions|]) <= RoundWork(states[0])
    ensures RoundWork(states[0]) <= 13 * |states[0].workers|
    decreases |actions|
  {
    hide Next, Enabled;
    SumAtMost(Owes(states[0].workers, states[0].starts), 13);
    var n := |actions|;
    if n > 0 {
      var ss, aa := states[..n], actions[..n - 1];
      RoundIsBounded(ss, aa);
      RoundWorkDrops(states[n - 1], actions[n - 1]);
      StepKeeps(states[n - 1], actions[n - 1]);
      NoMoreCreating(states[n - 1], actions[n - 1]);
    }
  }

  lemma NoMoreCreating(s: State, a: Action)
    requires Enabled(s, a) && !s.master.Creating?
    ensures !Next(s, a).master.Creating?
  {
  }

  // ----- every call returns

  predicate InWait(m: MasterPc) {
    m.WaitLock? || m.WaitCheck? || m.WaitSleep? || m.WaitWoken?
  }

  // The master is creating the threads, or between a call and its return; for an exit, between the
  // call and the setting of exit_flag.
  predicate Calling(m: MasterPc) {
    !m.Ready? && !AfterExit(m)
  }

  predicate IsWake(a: Action) {
    a.WorkerWake? || a.MasterWake?
  }

  // Steps a worker has left in the round. A worker that may still broadcast carries `bonus`, which
  // pays for waking everybody up.
  function WaitRank(w: Worker, starts: nat, bonus: nat): nat {
    if w.reported != starts then bonus + RoundRank(w.pc)
    else match w.pc
         case CheckZero => bonus + 2
         case Broadcast => bonus + 1
         case Unlock2 => 5
         case SetStop => 4
         case Lock1 => 3
         case Woken => 3
         case Check => 2
         case _ => 0
  }

  function WaitRanks(ws: seq<Worker>, starts: nat, bonus: nat): (xs: seq<nat>)
    ensures |xs| == |ws|
  {
    seq(|ws|, i requires 0 <= i < |ws| => WaitRank(ws[i], starts, bonus))
  }

  function Bonus(workers: nat): nat {
    4 * workers + 9
  }

  // The most that WaitRanks can add up to: what accepting a start may add.
  function RoundBudget(workers: nat): nat {
    workers * (4 * workers + 22)
  }

  function MasterCallRank(m: MasterPc, workers: nat): nat {
    match m
    case Creating(k) => if k <= workers then 4 * (workers - k) + 1 else 0
    case StartRead => RoundBudget(workers) + 3 * workers + 6
    case StartLock => RoundBudget(workers) + 3 * workers + 5
    case StartFlip => RoundBudget(workers) + 3 * workers + 4
    case StartCount => 3 * workers + 3
    case StartBroadcast => 3 * workers + 2
    case StartUnlock => 1
    case WaitLock => 4
    case WaitWoken => 4
    case WaitCheck => 3
    case WaitUnlock => 1
    case ExitLock => 2
    case ExitSet => 1
    case _ => 0
  }

  function CallWork(s: State): nat {
    Sum(WaitRanks(s.workers, s.starts, Bonus(|s.workers|))) + MasterCallRank(s.master, |s.workers|)
  }

  lemma WaitRanksUpdate(ws: seq<Worker>, i: nat, w: Worker, starts: nat, bonus: nat)
    requires i < |ws|
    ensures Sum(WaitRanks(ws[i := w], starts, bonus)) + WaitRank(ws[i], starts, bonus)
            == Sum(WaitRanks(ws, starts, bonus)) + WaitRank(w, starts, bonus)
  {
    assert WaitRanks(ws[i := w], starts, bonus) == WaitRanks(ws, starts, bonus)[i := WaitRank(w, starts, bonus)];
    SumUpdate(WaitRanks(ws, starts, bonus), i, WaitRank(w, starts, bonus));
  }

  lemma RousedWaitRanks(ws: seq<Worker>, starts: nat, bonus: nat)
    ensures Sum(WaitRanks(RouseAll(ws), starts, bonus)) <= Sum(WaitRanks(ws, starts, bonus)) + 3 * |ws|
  {
    SumWithin(WaitRanks(ws, starts, bonus), WaitRanks(RouseAll(ws), starts, bonus), 3);
  }

  // A worker's own step lowers its rank; the broadcast lowers it by the whole bonus.
  lemma WaitRankDrops(s: State, i: nat)
    requires Inv(s) && WorkerEnabled(s, i) && Calling(s.master)
    ensures i < |WorkerNext(s, i).workers|
    ensures var bonus := Bonus(|s.workers|);
            WaitRank(WorkerNext(s, i).workers[i], s.starts, bonus)
            + (if s.workers[i].pc.Broadcast? then bonus - 4 else 1)
            <= WaitRank(s.workers[i], s.starts, bonus)
  {
    hide WaitOk, Counted, StatusOk, SleepOk;
    assert WorkerInv(s.workers[i], i, s.mutex, s.starts, s.exitFlag == 1, s.master);
  }

  lemma WorkerCallWork(s: State, i: nat)
    requires Inv(s) && WorkerEnabled(s, i) && Calling(s.master)
    ensures CallWork(WorkerNext(s, i)) < CallWork(s)
  {
    hide Sum, WaitRanks, WaitRank, Inv, RouseAll, RoundBudget;
    var s' := WorkerNext(s, i);
    var bonus := Bonus(|s.workers|);
    WaitRankDrops(s, i);
    if s.workers[i].pc.Broadcast? {
      RousedWaitRanks(s.workers, s.starts, bonus);
      RouseSparesAwake(s.workers, i);
      WaitRanksUpdate(RouseAll(s.workers), i, s'.workers[i], s.starts, bonus);
    } else {
      WaitRanksUpdate(s.workers, i, s'.workers[i], s.starts, bonus);
    }
  }

  lemma RouseSparesAwake(ws: seq<Worker>, i: nat)
    requires i < |ws| && !ws[i].pc.Sleep?
    ensures RouseAll(ws)[i] == ws[i]
  {
  }

  lemma WaitRanksBound(ws: seq<Worker>, starts: nat)
    ensures Sum(WaitRanks(ws, starts, Bonus(|ws|))) <= RoundBudget(|ws|)
  {
    SumAtMost(WaitRanks(ws, starts, Bonus(|ws|)), 4 * |ws| + 22);
  }

  lemma MasterCallWork(s: State)
    requires Inv(s) && MasterEnabled(s) && Calling(s.master)
    ensures CallWork(MasterNext(s)) < CallWork(s) && |MasterNext(s).workers| == |s.workers|
  {
    hide Sum, WaitRanks, RoundBudget, WaitOk, Counted, RouseAll;
    var s' := MasterNext(s);
    match s.master
    case Creating(k) => CreateCallWork(s);
    case StartFlip => WaitRanksBound(s.workers, s'.starts);
    case StartBroadcast => RousedWaitRanks(s.workers, s.starts, Bonus(|s.workers|));
    case _ =>
  }

  lemma CreateCallWork(s: State)
    requires Inv(s) && MasterEnabled(s) && s.master.Creating?
    ensures CallWork(MasterNext(s)) < CallWork(s)
  {
    hide Sum, WaitRanks, RoundBudget, WaitOk, Counted;
    var k := s.master.k;
    if k < |s.workers| {
      var w := s.workers[k].(pc := Lock1);
      assert WorkerInv(s.workers[k], k, s.mutex, s.starts, s.exitFlag == 1, s.master);
      WaitRanksUpdate(s.workers, k, w, s.starts, Bonus(|s.workers|));
      assert MasterNext(s).workers == s.workers[k := w];
    }
  }

  // During the creation of the threads and during every call, every step but a spurious wakeup
  // lowers one measure over all the threads, and a spurious wakeup raises it by at most 4.
  lemma CallWorkDrops(s: State, a: Action)
    requires Inv(s) && Enabled(s, a) && Calling(s.master)
    ensures CallWork(Next(s, a)) + 1 <= CallWork(s) + (if IsWake(a) then 5 else 0)
    ensures |Next(s, a).workers| == |s.workers|
  {
    hide Sum, WaitRanks, Inv, MasterNext;
    match a
    case WorkerStep(i) => WorkerCallWork(s, i);
    case WorkerWake(i) =>
      WaitRanksUpdate(s.workers, i, s.workers[i].(pc := Woken), s.starts, Bonus(|s.workers|));
    case MasterStep => MasterCallWork(s);
    case MasterWake =>
  }

  // The master cannot be left inside a call: something other than a spurious wakeup can happen.
  lemma CallIsNeverStuck(s: State) returns (a: Action)
    requires Inv(s) && Calling(s.master)
    ensures Enabled(s, a) && !IsWake(a)
  {
    if MasterEnabled(s) {
      a := MasterStep;
    } else {
      var i := BlockedMasterHasAWorker(s);
      a := WorkerStep(i);
    }
  }

  function Wakes(actions: seq<Action>): nat {
    if |actions| == 0 then 0
    else Wakes(actions[..|actions| - 1]) + (if IsWake(actions[|actions| - 1]) then 1 else 0)
  }

  // Every call returns: a run that stays inside one, or inside the creation of the threads, is no
  // longer than a bound on the workers alone plus 5 for each spurious wakeup, and it can always be
  // continued by a real step.
  lemma {:induction false} CallReturns(states: seq<State>, actions: seq<Action>) returns (a: Action)
    requires IsRun(states, actions) && Inv(states[0])
    requires forall k :: 0 <= k <= |actions| ==> Calling(states[k].master)
    ensures Inv(states[|actions|])
    ensures |actions| + CallWork(states[|actions|]) <= CallWork(states[0]) + 5 * Wakes(actions)
    ensures CallWork(states[0]) <= 2 * RoundBudget(|states[0].workers|) + 4 * |states[0].workers| + 6
    ensures InWait(states[0].master) ==> CallWork(states[0]) <= RoundBudget(|states[0].workers|) + 4
    ensures Enabled(states[|actions|], a) && !IsWake(a)
    decreases |actions|
  {
    hide Next, Enabled, Inv, RoundBudget, WaitRanks;
    var n := |actions|;
    if n > 0 {
      var _ := CallReturns(states[..n], actions[..n - 1]);
      CallWorkDrops(states[n - 1], actions[n - 1]);
      StepKeeps(states[n - 1], actions[n - 1]);
    }
    WaitRanksBound(states[0].workers, states[0].starts);
    a := CallIsNeverStuck(states[n]);
  }

  // ----- shutdown

  function ExitRank(pc: WorkerPc): nat {
    match pc
    case Unborn => 0
    case Exited => 0
    case SetFinished => 1
    case ExitTest => 2
    case Flip => 3
    case Unlock1 => 4
    case Check => 5
    case Lock1 => 6
    case Woken => 6
    case Sleep => 7
    case SetStop => 7
    case Unlock2 => 8
    case Broadcast => 9
    case CheckZero => 10
    case Decrement => 11
    case Lock2 => 12
    case InTest => 13
    case CallTest => 14
    case SetRunning => 15
  }

  function ExitRanks(ws: seq<Worker>): (xs: seq<nat>)
    ensures |xs| == |ws|
  {
    seq(|ws|, i requires 0 <= i < |ws| => ExitRank(ws[i].pc))
  }

  function MasterExitRank(s: State): nat {
    match s.master
    case ExitBroadcast => |s.workers| + 3
    case ExitUnlock => |s.workers| + 2
    case Join(k) => if k <= |s.workers| then |s.workers| - k + 1 else 1
    case _ => 0
  }

  function ExitWork(s: State): nat {
    Sum(ExitRanks(s.workers)) + MasterExitRank(s)
  }

  lemma ExitRanksUpdate(ws: seq<Worker>, i: nat, w: Worker)
    requires i < |ws|
    ensures Sum(ExitRanks(ws[i := w])) + ExitRank(ws[i].pc) == Sum(ExitRanks(ws)) + ExitRank(w.pc)
  {
    assert ExitRanks(ws[i := w]) == ExitRanks(ws)[i := ExitRank(w.pc)];
    SumUpdate(ExitRanks(ws), i, ExitRank(w.pc));
  }

  lemma RousedExitRanks(ws: seq<Worker>)
    ensures Sum(ExitRanks(RouseAll(ws))) <= Sum(ExitRanks(ws))
  {
    SumMonotone(ExitRanks(RouseAll(ws)), ExitRanks(ws));
  }

  // Once exit_flag is set every possible step, spurious wakeups included, brings the end nearer.
  lemma ExitWorkDrops(s: State, a: Action)
    requires Inv(s) && Enabled(s, a) && s.exitFlag == 1
    ensures ExitWork(Next(s, a)) < ExitWork(s) && Next(s, a).exitFlag == 1
  {
    hide Sum, ExitRanks, Workers, WaitOk, Counted, WorkerNext;
    match a
    case WorkerStep(i) => WorkerExitWork(s, i);
    case WorkerWake(i) => ExitRanksUpdate(s.workers, i, s.workers[i].(pc := Woken));
    case MasterStep => RousedExitRanks(s.workers);
    case MasterWake =>
    case Invoke(_) =>
  }

  lemma WorkerExitWork(s: State, i: nat)
    requires Inv(s) && WorkerEnabled(s, i) && s.exitFlag == 1
    ensures ExitWork(WorkerNext(s, i)) < ExitWork(s) && WorkerNext(s, i).exitFlag == 1
  {
    hide Sum, ExitRanks, WaitOk, Counted, Workers, ExitRank;
    var s' := WorkerNext(s, i);
    ExitRankDrops(s, i);
    if s.workers[i].pc.Broadcast? {
      RousedExitRanks(s.workers);
      ExitRanksUpdate(RouseAll(s.workers), i, s'.workers[i]);
    } else {
      ExitRanksUpdate(s.workers, i, s'.workers[i]);
    }
  }

  lemma ExitRankDrops(s: State, i: nat)
    requires WorkerEnabled(s, i) && s.exitFlag == 1
    ensures i < |WorkerNext(s, i).workers| && ExitRank(WorkerNext(s, i).workers[i].pc) < ExitRank(s.workers[i].pc)
  {
  }

  // Every run from the setting of exit_flag is finite, and it cannot stop before the master has
  // joined every worker, each of them TEST_FINISHED.
  lemma {:induction false} ShutdownTerminates(states: seq<State>, actions: seq<Action>)
    requires IsRun(states, actions) && Inv(states[0]) && states[0].exitFlag == 1
    ensures Inv(states[|actions|]) && states[|actions|].exitFlag == 1
    ensures |actions| + ExitWork(states[|actions|]) <= ExitWork(states[0])
    ensures (forall a :: !Enabled(states[|actions|], a)) ==>
              states[|actions|].master.Done?
    decreases |actions|
  {
    hide Next, Enabled;
    var n := |actions|;
    if n > 0 {
      ShutdownTerminates(states[..n], actions[..n - 1]);
      ExitWorkDrops(states[n - 1], actions[n - 1]);
      StepKeeps(states[n - 1], actions[n - 1]);
    }
    StuckOnlyWhenDone(states[n]);
  }

  lemma StuckOnlyWhenDone(s: State)
    requires Inv(s)
    ensures (forall a :: !Enabled(s, a)) ==> s.master.Done?
  {
    if !s.master.Done? {
      if s.master.Ready? {
        assert Enabled(s, Invoke(Wait));
      } else if MasterEnabled(s) {
        assert Enabled(s, MasterStep);
      } else {
        var i := BlockedMasterHasAWorker(s);
        assert Enabled(s, WorkerStep(i));
      }
    }
  }

  // Past its exit test a worker starts no further call; once exited it never moves again.
  predicate Leaving(s: State, w: Worker) {
    s.exitFlag == 1 && (w.pc.ExitTest? || w.pc.SetFinished? || w.pc.Exited?)
  }

  lemma NoCallAfterExit(s: State, a: Action, i: nat)
    requires Inv(s) && Enabled(s, a) && i < |s.workers| && Leaving(s, s.workers[i])
    ensures |Next(s, a).workers| == |s.workers| && Leaving(Next(s, a), Next(s, a).workers[i])
    ensures Next(s, a).workers[i].begun == s.workers[i].begun && Next(s, a).workers[i].seen == s.workers[i].seen
    ensures s.workers[i].pc.Exited? ==> Next(s, a).workers[i] == s.workers[i] && s.workers[i].status == Finished
  {
    hide WaitOk, Counted, RoundOk;
    assert WorkerInv(s.workers[i], i, s.mutex, s.starts, s.exitFlag == 1, s.master);
    if a == WorkerStep(i) {
    } else {
      UntouchedWorker(s, a, i);
      ExitFlagStays(s, a);
    }
  }

  // From the moment a worker sees exit_flag set, the rest of the run contains no further call and no
  // further flip of its own: it leaves its loop once.
  lemma {:induction false} LeavesForGood(states: seq<State>, actions: seq<Action>, i: nat, n: nat)
    requires IsRun(states, actions) && Inv(states[0]) && n <= |actions|
    requires i < |states[0].workers| && Leaving(states[0], states[0].workers[i])
    ensures Inv(states[n]) && i < |states[n].workers| && Leaving(states[n], states[n].workers[i])
    ensures states[n].workers[i].begun == states[0].workers[i].begun
    ensures states[n].workers[i].seen == states[0].workers[i].seen
  {
    if n > 0 {
      LeavesForGood(states, actions, i, n - 1);
      NoCallAfterExit(states[n - 1], actions[n - 1], i);
      StepKeeps(states[n - 1], actions[n - 1]);
    }
  }

  // Only a worker's own steps, its creation and its wakeups change it.
  lemma UntouchedWorker(s: State, a: Action, i: nat)
    requires Enabled(s, a) && i < |s.workers| && a != WorkerStep(i)
    requires !s.workers[i].pc.Sleep? && !s.master.Creating?
    ensures |Next(s, a).workers| == |s.workers| && Next(s, a).workers[i] == s.workers[i]
  {
  }

  lemma ExitFlagStays(s: State, a: Action)
    requires Enabled(s, a) && s.exitFlag == 1
    ensures Next(s, a).exitFlag == 1
  {
  }

  // After the joins: every worker has run every accepted round exactly when the countdown is zero.
  lemma FinalTally(s: State)
    requires Inv(s) && s.master.Done?
    ensures forall i :: 0 <= i < |s.workers| ==>
              s.workers[i].status == Finished && s.workers[i].begun == s.workers[i].returned
    ensures s.numRunning == 0 <==> forall i :: 0 <= i < |s.workers| ==> s.workers[i].returned == s.starts
  {
    SumZero(Lags(s.workers, s.starts));
    forall i: nat | i < |s.workers|
      ensures s.workers[i].status == Finished && s.workers[i].begun == s.workers[i].returned == s.workers[i].reported
      ensures s.workers[i].reported == s.starts <==> Lags(s.workers, s.starts)[i] == 0
    {
      assert WorkerInv(s.workers[i], i, s.mutex, s.starts, s.exitFlag == 1, s.master);
    }
  }

  // Worker w will complete every accepted round: it has reported the last one, or has passed the
  // unlocked test of exit_flag in that round.
  predicate Committed(w: Worker, starts: nat) {
    w.reported == starts || w.pc.SetRunning? || w.pc.CallTest? || w.pc.InTest? || w.pc.Lock2? || w.pc.Decrement?
  }

  lemma CommittedStays(s: State, a: Action, i: nat)
    requires Inv(s) && Enabled(s, a) && s.exitFlag == 1 && i < |s.workers|
    ensures |Next(s, a).workers| == |s.workers| && Next(s, a).starts == s.starts && Next(s, a).exitFlag == 1
    ensures Committed(Next(s, a).workers[i], s.starts) <==> Committed(s.workers[i], s.starts)
  {
    hide WaitOk, Counted, StatusOk, SleepOk;
    assert WorkerInv(s.workers[i], i, s.mutex, s.starts, s.exitFlag == 1, s.master);
  }

  // The exact condition under which an exit lets a worker run every accepted round: where the
  // worker stands when exit_flag is set decides it, on every run from there.
  lemma {:induction false} ExitRunsExactlyCommitted(states: seq<State>, actions: seq<Action>, n: nat, i: nat)
    requires IsRun(states, actions) && Inv(states[0]) && states[0].exitFlag == 1
    requires n <= |actions| && i < |states[0].workers|
    ensures Inv(states[n]) && states[n].exitFlag == 1
    ensures |states[n].workers| == |states[0].workers| && states[n].starts == states[0].starts
    ensures Committed(states[n].workers[i], states[0].starts) <==> Committed(states[0].workers[i], states[0].starts)
    ensures states[n].master.Done? ==>
              (states[n].workers[i].returned == states[0].starts <==> Committed(states[0].workers[i], states[0].starts))
  {
    hide Next, Enabled, Committed;
    if n > 0 {
      ExitRunsExactlyCommitted(states, actions, n - 1, i);
      CommittedStays(states[n - 1], actions[n - 1], i);
      StepKeeps(states[n - 1], actions[n - 1]);
    }
    if states[n].master.Done? { CommittedAtDone(states[n], i); }
  }

  lemma CommittedAtDone(s: State, i: nat)
    requires Inv(s) && s.master.Done? && i < |s.workers|
    ensures s.workers[i].returned == s.starts <==> Committed(s.workers[i], s.starts)
  {
    assert WorkerInv(s.workers[i], i, s.mutex, s.starts, s.exitFlag == 1, s.master);
  }

  predicate Exiting(m: MasterPc) {
    m.ExitLock? || m.ExitSet? || AfterExit(m)
  }

  lemma ZeroStays(s: State, a: Action)
    requires Inv(s) && Enabled(s, a) && Exiting(s.master) && s.numRunning == 0
    ensures Exiting(Next(s, a).master) && Next(s, a).numRunning == 0 && Next(s, a).starts == s.starts
  {
    if a.WorkerStep? && s.workers[a.i].pc.Decrement? { DecrementKeeps(s, a.i); }
  }

  // ----- concrete runs of one worker: what the barrier does not promise

  lemma RunAppend(ss: seq<State>, aa: seq<Action>, tt: seq<State>, bb: seq<Action>)
    requires IsRun(ss, aa) && IsRun(tt, bb) && ss[|aa|] == tt[0]
    ensures IsRun(ss + tt[1..], aa + bb)
    ensures (ss + tt[1..])[0] == ss[0] && (ss + tt[1..])[|aa + bb|] == tt[|bb|]
  {
    hide Enabled, Next;
    var states, actions := ss + tt[1..], aa + bb;
    forall i | 0 <= i < |actions|
      ensures Enabled(states[i], actions[i]) && states[i + 1] == Next(states[i], actions[i])
    {
      if i >= |aa| { assert states[i] == tt[i - |aa|] && states[i + 1] == tt[i + 1 - |aa|]; }
    }
  }

  function OneWorker(w: Worker, runFlag: nat, exitFlag: nat, numRunning: nat, m: MasterPc, starts: nat): State {
    State(runFlag, exitFlag, numRunning, Free, [w], m, starts)
  }

  const FRESH := Worker(Lock1, 0, NotStarted, 0, 0, 0, 0)
  const GONE := Worker(Exited, 1, Finished, 1, 0, 0, 0)

  lemma RouseNobody(w: Worker)
    requires !w.pc.Sleep?
    ensures RouseAll([w]) == [w]
  {
  }

  lemma CreatedRun() returns (states: seq<State>, actions: seq<Action>)
    ensures IsRun(states, actions) && Init(states[0], 1)
    ensures states[|actions|] == OneWorker(FRESH, 0, 0, 0, Ready, 0)
  {
    actions := [MasterStep, MasterStep];
    var s0 := OneWorker(FRESH.(pc := Unborn), 0, 0, 0, Creating(0), 0);
    assert s0.workers == seq(1, _ => Worker(Unborn, 0, NotStarted, 0, 0, 0, 0));
    var s1 := Next(s0, actions[0]);
    states := [s0, s1, Next(s1, actions[1])];
  }

  // A start accepted before the worker has taken any step.
  lemma StartRun() returns (states: seq<State>, actions: seq<Action>)
    ensures IsRun(states, actions) && states[0] == OneWorker(FRESH, 0, 0, 0, Ready, 0)
    ensures states[|actions|] == OneWorker(FRESH, 1, 0, 1, Ready, 1)
  {
    hide RouseAll;
    RouseNobody(FRESH);
    actions := [Invoke(Start), MasterStep, MasterStep, MasterStep, MasterStep, MasterStep, MasterStep];
    var s0 := OneWorker(FRESH, 0, 0, 0, Ready, 0);
    var s1 := OneWorker(FRESH, 0, 0, 0, StartRead, 0);
    var s2 := OneWorker(FRESH, 0, 0, 0, StartLock, 0);
    var s3 := OneWorker(FRESH, 0, 0, 0, StartFlip, 0).(mutex := ByMaster);
    var s4 := OneWorker(FRESH, 1, 0, 0, StartCount, 1).(mutex := ByMaster);
    var s5 := OneWorker(FRESH, 1, 0, 1, StartBroadcast, 1).(mutex := ByMaster);
    var s6 := OneWorker(FRESH, 1, 0, 1, StartUnlock, 1).(mutex := ByMaster);
    states := [s0, s1, s2, s3, s4, s5, s6, Next(s6, actions[6])];
  }

  lemma ExitRun() returns (states: seq<State>, actions: seq<Action>)
    ensures IsRun(states, actions) && states[0] == OneWorker(FRESH, 1, 0, 1, Ready, 1)
    ensures states[|actions|] == OneWorker(FRESH, 1, 1, 1, Join(0), 1)
  {
    hide RouseAll;
    RouseNobody(FRESH);
    actions := [Invoke(Exit), MasterStep, MasterStep, MasterStep, MasterStep];
    var s0 := OneWorker(FRESH, 1, 0, 1, Ready, 1);
    var s1 := OneWorker(FRESH, 1, 0, 1, ExitLock, 1);
    var s2 := OneWorker(FRESH, 1, 0, 1, ExitSet, 1).(mutex := ByMaster);
    var s3 := OneWorker(FRESH, 1, 1, 1, ExitBroadcast, 1).(mutex := ByMaster);
    var s4 := OneWorker(FRESH, 1, 1, 1, ExitUnlock, 1).(mutex := ByMaster);
    states := [s0, s1, s2, s3, s4, Next(s4, actions[4])];
  }

  lemma LeaveRun() returns (states: seq<State>, actions: seq<Action>)
    ensures IsRun(states, actions) && states[0] == OneWorker(FRESH, 1, 1, 1, Join(0), 1)
    ensures states[|actions|] == OneWorker(GONE, 1, 1, 1, Join(0), 1)
  {
    actions := [WorkerStep(0), WorkerStep(0), WorkerStep(0), WorkerStep(0), WorkerStep(0), WorkerStep(0)];
    var s0 := OneWorker(FRESH, 1, 1, 1, Join(0), 1);
    var s1 := OneWorker(FRESH.(pc := Check), 1, 1, 1, Join(0), 1).(mutex := ByWorker(0));
    var s2 := OneWorker(FRESH.(pc := Unlock1), 1, 1, 1, Join(0), 1).(mutex := ByWorker(0));
    var s3 := OneWorker(FRESH.(pc := Flip), 1, 1, 1, Join(0), 1);
    var s4 := OneWorker(GONE.(pc := ExitTest, status := NotStarted), 1, 1, 1, Join(0), 1);
    var s5 := OneWorker(GONE.(pc := SetFinished, status := NotStarted), 1, 1, 1, Join(0), 1);
    states := [s0, s1, s2, s3, s4, s5, Next(s5, actions[5])];
  }

  lemma JoinRun() returns (states: seq<State>, actions: seq<Action>)
    ensures IsRun(states, actions) && states[0] == OneWorker(GONE, 1, 1, 1, Join(0), 1)
    ensures states[|actions|] == OneWorker(GONE, 1, 1, 1, Done, 1)
  {
    actions := [MasterStep, MasterStep];
    var s0 := OneWorker(GONE, 1, 1, 1, Join(0), 1);
    var s1 := Next(s0, actions[0]);
    states := [s0, s1, Next(s1, actions[1])];
  }

  // An exit without a wait can skip the round: the accepted start is never run.
  lemma ExitWithoutWaitSkips() returns (states: seq<State>, actions: seq<Action>)
    ensures IsRun(states, actions) && Init(states[0], 1)
    ensures states[|actions|] == OneWorker(GONE, 1, 1, 1, Done, 1) && GONE.begun == 0
  {
    var ss, aa := CreatedRun();
    var tt, bb := StartRun();
    RunAppend(ss, aa, tt, bb);
    states, actions := ss + tt[1..], aa + bb;
    tt, bb := ExitRun();
    RunAppend(states, actions, tt, bb);
    states, actions := states + tt[1..], actions + bb;
    tt, bb := LeaveRun();
    RunAppend(states, actions, tt, bb);
    states, actions := states + tt[1..], actions + bb;
    tt, bb := JoinRun();
    RunAppend(states, actions, tt, bb);
    states, actions := states + tt[1..], actions + bb;
  }

  const CALLED := Worker(CallTest, 1, Running, 1, 0, 0, 0)
  const REPORTED := Worker(SetStop, 1, Running, 1, 1, 1, 1)

  lemma CallRun() returns (states: seq<State>, actions: seq<Action>)
    ensures IsRun(states, actions) && states[0] == OneWorker(FRESH, 1, 0, 1, Ready, 1)
    ensures states[|actions|] == OneWorker(CALLED, 1, 0, 1, Ready, 1)
  {
    actions := [WorkerStep(0), WorkerStep(0), WorkerStep(0), WorkerStep(0), WorkerStep(0), WorkerStep(0)];
    var s0 := OneWorker(FRESH, 1, 0, 1, Ready, 1);
    var s1 := OneWorker(FRESH.(pc := Check), 1, 0, 1, Ready, 1).(mutex := ByWorker(0));
    var s2 := OneWorker(FRESH.(pc := Unlock1), 1, 0, 1, Ready, 1).(mutex := ByWorker(0));
    var s3 := OneWorker(FRESH.(pc := Flip), 1, 0, 1, Ready, 1);
    var s4 := OneWorker(CALLED.(pc := ExitTest, status := NotStarted), 1, 0, 1, Ready, 1);
    var s5 := OneWorker(CALLED.(pc := SetRunning, status := NotStarted), 1, 0, 1, Ready, 1);
    states := [s0, s1, s2, s3, s4, s5, Next(s5, actions[5])];
  }

  lemma ReportRun() returns (states: seq<State>, actions: seq<Action>)
    ensures IsRun(states, actions) && states[0] == OneWorker(CALLED, 1, 0, 1, Ready, 1)
    ensures states[|actions|] == OneWorker(REPORTED.(pc := CheckZero), 1, 0, 0, Ready, 1).(mutex := ByWorker(0))
  {
    actions := [WorkerStep(0), WorkerStep(0), WorkerStep(0), WorkerStep(0)];
    var s0 := OneWorker(CALLED, 1, 0, 1, Ready, 1);
    var s1 := OneWorker(CALLED.(pc := InTest, begun := 1), 1, 0, 1, Ready, 1);
    var s2 := OneWorker(CALLED.(pc := Lock2, begun := 1, returned := 1), 1, 0, 1, Ready, 1);
    var s3 := OneWorker(CALLED.(pc := Decrement, begun := 1, returned := 1), 1, 0, 1, Ready, 1).(mutex := ByWorker(0));
    states := [s0, s1, s2, s3, Next(s3, actions[3])];
  }

  lemma SignalRun() returns (states: seq<State>, actions: seq<Action>)
    ensures IsRun(states, actions)
    ensures states[0] == OneWorker(REPORTED.(pc := CheckZero), 1, 0, 0, Ready, 1).(mutex := ByWorker(0))
    ensures states[|actions|] == OneWorker(REPORTED, 1, 0, 0, Ready, 1)
  {
    hide RouseAll;
    RouseNobody(REPORTED.(pc := Broadcast));
    actions := [WorkerStep(0), WorkerStep(0), WorkerStep(0)];
    var s0 := OneWorker(REPORTED.(pc := CheckZero), 1, 0, 0, Ready, 1).(mutex := ByWorker(0));
    var s1 := OneWorker(REPORTED.(pc := Broadcast), 1, 0, 0, Ready, 1).(mutex := ByWorker(0));
    var s2 := OneWorker(REPORTED.(pc := Unlock2), 1, 0, 0, Ready, 1).(mutex := ByWorker(0));
    states := [s0, s1, s2, Next(s2, actions[2])];
  }

  lemma WaitRun() returns (states: seq<State>, actions: seq<Action>)
    ensures IsRun(states, actions) && states[0] == OneWorker(REPORTED, 1, 0, 0, Ready, 1)
    ensures states[|actions|] == OneWorker(REPORTED, 1, 0, 0, Ready, 1) && |actions| == 4
    ensures states[3].master == WaitUnlock && actions[3] == MasterStep
  {
    actions := [Invoke(Wait), MasterStep, MasterStep, MasterStep];
    var s0 := OneWorker(REPORTED, 1, 0, 0, Ready, 1);
    var s1 := Next(s0, actions[0]);
    var s2 := Next(s1, actions[1]);
    var s3 := Next(s2, actions[2]);
    states := [s0, s1, s2, s3, Next(s3, actions[3])];
  }

  // A wait can return while a test's status still reads TEST_RUNNING.
  lemma WaitReturnsBeforeStop() returns (states: seq<State>, actions: seq<Action>)
    ensures IsRun(states, actions) && Init(states[0], 1) && |actions| >= 4
    ensures states[|actions| - 1].master == WaitUnlock && states[|actions|].master == Ready
    ensures states[|actions|].workers == [REPORTED] && REPORTED.status == Running
  {
    var ss, aa := CreatedRun();
    var tt, bb := StartRun();
    RunAppend(ss, aa, tt, bb);
    states, actions := ss + tt[1..], aa + bb;
    tt, bb := CallRun();
    RunAppend(states, actions, tt, bb);
    states, actions := states + tt[1..], actions + bb;
    tt, bb := ReportRun();
    RunAppend(states, actions, tt, bb);
    states, actions := states + tt[1..], actions + bb;
    tt, bb := SignalRun();
    RunAppend(states, actions, tt, bb);
    states, actions := states + tt[1..], actions + bb;
    tt, bb := WaitRun();
    RunAppend(states, actions, tt, bb);
    states, actions := states + tt[1..], actions + bb;
  }
}
