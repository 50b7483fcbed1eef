// What each call of the test group does, from the call to its return, over whole runs.
module BarrierCalls {
  import opened RoundBarrier
  import opened BarrierInvariant
  import opened BarrierTheorems

  predicate InCall(m: MasterPc, op: Op) {
    match op
    case Start =>
      m.StartRead? || m.StartLock? || m.StartFlip? || m.StartCount? || m.StartBroadcast? || m.StartUnlock?
    case Wait => InWait(m) || m.WaitUnlock?
    case Exit => Exiting(m)
  }

  // The call of `op` made at step n has returned at state m, and not before.
  ghost predicate ReturnsAt(states: seq<State>, actions: seq<Action>, op: Op, n: nat, m: nat) {
    && n < m <= |actions| < |states|
    && actions[n] == Invoke(op)
    && states[m].master.Ready?
    && forall k :: n < k < m ==> !states[k].master.Ready?
  }

  // A call ends only by returning, and an exit does not even do that.
  lemma CallStep(s: State, a: Action, op: Op)
    requires Enabled(s, a) && InCall(s.master, op)
    ensures InCall(Next(s, a).master, op)
            || (Next(s, a).master.Ready? && a.MasterStep? && (s.master.StartRead? || s.master.StartUnlock? || s.master.WaitUnlock?))
    ensures op.Exit? ==> InCall(Next(s, a).master, op)
    ensures !op.Start? ==> Next(s, a).starts == s.starts
    ensures |Next(s, a).workers| == |s.workers|
  {
  }

  // From the call on, the master stays inside it until it is Ready again.
  lemma {:induction false} CallGoesOn(states: seq<State>, actions: seq<Action>, op: Op, n: nat, k: nat)
    requires IsRun(states, actions) && n < k <= |actions| && actions[n] == Invoke(op)
    requires forall j :: n < j < k ==> !states[j].master.Ready?
    ensures InCall(states[k].master, op) || (states[k].master.Ready? && !op.Exit? && n + 1 < k)
    ensures states[k].master.Ready? ==>
              actions[k - 1] == MasterStep && InCall(states[k - 1].master, op)
              && (states[k - 1].master.StartRead? || states[k - 1].master.StartUnlock? || states[k - 1].master.WaitUnlock?)
    ensures !op.Start? ==> states[k].starts == states[n].starts
    ensures |states[k].workers| == |states[n].workers|
    decreases k
  {
    hide Next, Enabled;
    if k == n + 1 {
      CallIsMade(states[n], op);
    } else {
      CallGoesOn(states, actions, op, n, k - 1);
      CallStep(states[k - 1], actions[k - 1], op);
    }
  }

  // A call can be made exactly between calls, whatever the workers are doing, and does nothing yet.
  lemma CallIsMade(s: State, op: Op)
    ensures Enabled(s, Invoke(op)) <==> s.master.Ready?
    ensures Enabled(s, Invoke(op)) ==>
              InCall(Next(s, Invoke(op)).master, op) && Next(s, Invoke(op)) == s.(master := Next(s, Invoke(op)).master)
  {
  }

  // ----- test_group_wait

  // Whenever a wait returns, on any run, every worker has made and finished its call of every
  // accepted round, no later call has begun, and no start was accepted meanwhile.
  lemma EveryWaitIsABarrier(states: seq<State>, actions: seq<Action>, workers: nat, n: nat, m: nat)
    requires IsRun(states, actions) && Init(states[0], workers) && ReturnsAt(states, actions, Wait, n, m)
    ensures |states[m].workers| == |states[n].workers| && states[m].starts == states[n].starts
    ensures forall i :: 0 <= i < |states[m].workers| ==>
              states[m].workers[i].begun == states[m].workers[i].returned == states[n].starts
  {
    hide Inv;
    CallGoesOn(states, actions, Wait, n, m);
    RunKeeps(states, actions, workers, m - 1);
    WaitIsABarrier(states[m - 1]);
    assert states[m] == Next(states[m - 1], MasterStep);
  }

  // ----- test_group_start

  // The unlocked read of the countdown is still to come at step j, and k is when it happens.
  lemma StartReadsAt(states: seq<State>, actions: seq<Action>, workers: nat, j: nat, m: nat) returns (k: nat)
    requires IsRun(states, actions) && Init(states[0], workers)
    requires j < m <= |actions| && states[j].master.StartRead? && states[m].master.Ready?
    ensures j <= k < m && actions[k] == MasterStep && states[k].master.StartRead?
    ensures states[k].starts == states[j].starts && states[k].runFlag == states[j].runFlag
    ensures states[j].numRunning == 0 ==> states[k].numRunning == 0
    decreases m - j
  {
    hide Next, Enabled, Inv;
    if actions[j] == MasterStep {
      k := j;
    } else {
      RunKeeps(states, actions, workers, j);
      ReadPends(states[j], actions[j]);
      k := StartReadsAt(states, actions, workers, j + 1, m);
    }
  }

  lemma ReadPends(s: State, a: Action)
    requires Inv(s) && Enabled(s, a) && s.master.StartRead? && a != MasterStep
    ensures Next(s, a).master.StartRead? && Next(s, a).starts == s.starts && Next(s, a).runFlag == s.runFlag
    ensures s.numRunning == 0 ==> Next(s, a).numRunning == 0
  {
    if a.WorkerStep? && s.workers[a.i].pc.Decrement? { NoUnderflow(s, a.i); }
  }

  // The start has been let past the read of the countdown.
  predicate Accepted(s: State, starts: nat, flag: nat) {
    match s.master
    case StartLock => s.starts == starts && s.runFlag == flag
    case StartFlip => s.starts == starts && s.runFlag == flag
    case StartCount => s.starts == starts + 1 && s.runFlag == Toggle(flag)
    case StartBroadcast => s.starts == starts + 1 && s.runFlag == Toggle(flag)
    case StartUnlock => s.starts == starts + 1 && s.runFlag == Toggle(flag)
    case Ready => s.starts == starts + 1 && s.runFlag == Toggle(flag)
    case _ => false
  }

  lemma AcceptedStep(s: State, a: Action, starts: nat, flag: nat)
    requires Enabled(s, a) && Accepted(s, starts, flag) && !s.master.Ready?
    ensures Accepted(Next(s, a), starts, flag)
  {
  }

  lemma {:induction false} AcceptedUntil(states: seq<State>, actions: seq<Action>, k: nat, m: nat, starts: nat, flag: nat)
    requires IsRun(states, actions) && k <= m <= |actions| && Accepted(states[k], starts, flag)
    requires forall j :: k <= j < m ==> !states[j].master.Ready?
    ensures Accepted(states[m], starts, flag)
    decreases m
  {
    hide Next, Enabled, Accepted;
    if k < m {
      AcceptedUntil(states, actions, k, m - 1, starts, flag);
      AcceptedStep(states[m - 1], actions[m - 1], starts, flag);
    }
  }

  // What a start does: it reads the countdown once, without the lock. If it reads zero, exactly one
  // more start has been accepted and the flag bit is the other one when it returns; otherwise it
  // returns at once and has changed nothing. Called with the countdown at zero it reads zero.
  lemma StartOutcome(states: seq<State>, actions: seq<Action>, workers: nat, n: nat, m: nat) returns (k: nat)
    requires IsRun(states, actions) && Init(states[0], workers) && ReturnsAt(states, actions, Start, n, m)
    ensures n < k < m && states[k].master == StartRead && actions[k] == MasterStep
    ensures states[n].numRunning == 0 ==> states[k].numRunning == 0
    ensures states[k].numRunning == 0 ==>
              states[m].starts == states[n].starts + 1 && states[m].runFlag == Toggle(states[n].runFlag)
    ensures states[k].numRunning != 0 ==>
              m == k + 1 && states[m] == states[k].(master := Ready)
              && states[m].starts == states[n].starts && states[m].runFlag == states[n].runFlag
  {
    assert states[n + 1] == Next(states[n], Invoke(Start));
    k := StartReadsAt(states, actions, workers, n + 1, m);
    assert states[k + 1] == Next(states[k], MasterStep);
    if states[k].numRunning == 0 {
      AcceptedUntil(states, actions, k + 1, m, states[n].starts, states[n].runFlag);
    }
  }

  // While the master makes no call the countdown, once zero, rests at zero.
  lemma {:induction false} CountdownRests(states: seq<State>, actions: seq<Action>, workers: nat, m: nat, n: nat)
    requires IsRun(states, actions) && Init(states[0], workers) && m <= n <= |actions|
    requires states[m].master.Ready? && states[m].numRunning == 0
    requires forall k :: m <= k < n ==> !actions[k].Invoke?
    ensures states[n].master.Ready? && states[n].numRunning == 0 && states[n].starts == states[m].starts
    decreases n
  {
    hide Next, Enabled, Inv;
    if m < n {
      CountdownRests(states, actions, workers, m, n - 1);
      RunKeeps(states, actions, workers, n - 1);
      ZeroCountStays(states[n - 1], actions[n - 1]);
    }
  }

  lemma ZeroCountStays(s: State, a: Action)
    requires Inv(s) && Enabled(s, a) && s.master.Ready? && s.numRunning == 0 && !a.Invoke?
    ensures Next(s, a).master.Ready? && Next(s, a).numRunning == 0 && Next(s, a).starts == s.starts
  {
    if a.WorkerStep? && s.workers[a.i].pc.Decrement? { NoUnderflow(s, a.i); }
  }

  // The caller's cycle: a start that follows a wait, with no other call between, is accepted. The
  // wait is called at n and returns at m; the start is called at n' and returns at m'.
  lemma StartAfterWait(states: seq<State>, actions: seq<Action>, workers: nat, n: nat, m: nat, n': nat, m': nat)
    requires IsRun(states, actions) && Init(states[0], workers)
    requires ReturnsAt(states, actions, Wait, n, m) && ReturnsAt(states, actions, Start, n', m')
    requires m <= n' && forall k :: m <= k < n' ==> !actions[k].Invoke?
    ensures states[m'].starts == states[n].starts + 1
    ensures states[m'].runFlag == Toggle(states[n'].runFlag)
  {
    hide Inv;
    CallGoesOn(states, actions, Wait, n, m);
    RunKeeps(states, actions, workers, m - 1);
    WaitLeavesZero(states[m - 1]);
    assert states[m] == Next(states[m - 1], MasterStep);
    CountdownRests(states, actions, workers, m, n');
    var _ := StartOutcome(states, actions, workers, n', m');
  }

  lemma WaitLeavesZero(s: State)
    requires Inv(s) && s.master.WaitUnlock?
    ensures Next(s, MasterStep).numRunning == 0
  {
  }

  // ----- test_group_exit

  // From an exit call on, the master never makes another call; and where the run can go no further
  // exit_flag is set, every worker has been joined, and every worker is TEST_FINISHED.
  lemma ExitIsFinal(states: seq<State>, actions: seq<Action>, n: nat, k: nat)
    requires IsRun(states, actions) && Inv(states[0]) && n < k <= |actions| && actions[n] == Invoke(Exit)
    ensures Exiting(states[k].master) && states[k].starts == states[n].starts
    ensures |states[k].workers| == |states[n].workers|
    ensures (forall a :: !Enabled(states[k], a)) ==>
              && states[k].exitFlag == 1 && states[k].master.Done?
              && forall i :: 0 <= i < |states[k].workers| ==>
                   states[k].workers[i].pc.Exited? && states[k].workers[i].status == Finished
  {
    hide Next, Enabled;
    InvThroughout(states, actions, k);
    ExitGoesOn(states, actions, n, k);
    StuckOnlyWhenDone(states[k]);
    if states[k].master.Done? { FinalTally(states[k]); }
  }

  lemma {:induction false} InvThroughout(states: seq<State>, actions: seq<Action>, k: nat)
    requires IsRun(states, actions) && Inv(states[0]) && k <= |actions|
    ensures Inv(states[k])
  {
    hide Next, Enabled, Inv;
    if k > 0 {
      InvThroughout(states, actions, k - 1);
      StepKeeps(states[k - 1], actions[k - 1]);
    }
  }

  lemma {:induction false} ExitGoesOn(states: seq<State>, actions: seq<Action>, n: nat, k: nat)
    requires IsRun(states, actions) && n < k <= |actions| && actions[n] == Invoke(Exit)
    ensures Exiting(states[k].master) && states[k].starts == states[n].starts
    ensures |states[k].workers| == |states[n].workers|
    decreases k
  {
    hide Next, Enabled;
    if k == n + 1 {
      CallIsMade(states[n], Exit);
    } else {
      ExitGoesOn(states, actions, n, k - 1);
      CallStep(states[k - 1], actions[k - 1], Exit);
    }
  }

  // An exit called when the countdown is zero (as it is right after a wait) skips no test: when the
  // joins are over each worker's completed calls equal the accepted starts.
  lemma {:induction false} QuietExitSkipsNothing(states: seq<State>, actions: seq<Action>, n: nat, k: nat)
    requires IsRun(states, actions) && Inv(states[0]) && n < k <= |actions|
    requires actions[n] == Invoke(Exit) && states[n].numRunning == 0
    ensures Exiting(states[k].master) && states[k].numRunning == 0 && states[k].starts == states[n].starts
    ensures (states[k].master.Done? || forall a :: !Enabled(states[k], a)) ==>
              forall i :: 0 <= i < |states[k].workers| ==> states[k].workers[i].returned == states[n].starts
    decreases k
  {
    hide Next, Enabled;
    ExitIsFinal(states, actions, n, k);
    if k == n + 1 {
      CallIsMade(states[n], Exit);
    } else {
      QuietExitSkipsNothing(states, actions, n, k - 1);
      InvThroughout(states, actions, k - 1);
      ZeroStays(states[k - 1], actions[k - 1]);
    }
    InvThroughout(states, actions, k);
    if states[k].master.Done? { FinalTally(states[k]); }
  }
}
