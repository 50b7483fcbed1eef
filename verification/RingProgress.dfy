// Progress of the ring protocol: the smallest unpublished index is published after a bounded
// number of steps of its own thread and of the packet processor, even when a batch is larger than
// the ring.
module RingProgress {
  import opened Sums
  import opened Words
  import opened RingProtocol
  import opened RingInvariant
  import opened RingTheorems

  // m is the smallest reserved index whose header has not been stored.
  ghost predicate FirstUnpublished(s: State, m: nat) {
    && m < s.reserved && m < |s.owner| && m !in s.published
    && forall j: nat :: j < m ==> j in s.published
  }

  predicate IsProcessorMove(a: Action) {
    a.Take? || a.Advance?
  }

  predicate IsMoveOf(a: Action, p: nat) {
    IsProducerAction(a) && a.p == p
  }

  // Any unpublished index has a smallest one.
  lemma {:induction false} FirstUnpublishedExists(s: State, j: nat) returns (m: nat)
    requires j < s.reserved <= |s.owner| && j !in s.published
    ensures m <= j && FirstUnpublished(s, m)
    decreases j
  {
    if i: nat :| i < j && i !in s.published {
      m := FirstUnpublishedExists(s, i);
    } else {
      m := j;
    }
  }

  // The thread that reserved the smallest unpublished index is about to publish exactly that index.
  lemma OwnerStandsAtFirst(cfg: Config, s: State, m: nat)
    requires Inv(cfg, s) && FirstUnpublished(s, m)
    ensures s.owner[m] < |s.producers|
    ensures var q := s.producers[s.owner[m]];
            !q.pc.Idle? && !q.pc.Await? && q.next == m < End(q) && |q.call.packets| >= 1
            && ProducerOk(cfg, s, s.owner[m])
  {
    assert HeldBy(s, m, s.owner[m]);
    assert ProducerOk(cfg, s, s.owner[m]);
    var q := s.producers[s.owner[m]];
    assert q.next <= m;
    assert q.next !in s.published;
  }

  // A next step of thread p; an unwritten word exists whenever a copy or memset is unfinished.
  ghost function MoveFor(cfg: Config, q: Producer, p: nat): Action {
    match q.pc
    case Zero(cleared) =>
      if k: nat :| k <= cfg.words && k !in cleared then ZeroWord(p, k) else EndZero(p)
    case Copy(copied) =>
      if k: nat :| k < cfg.words && k !in copied then CopyWord(p, k) else StoreHeader(p)
    case Ring => RingBell(p)
    case Await => Return(p)
    case _ => Admit(p)
  }

  // Either the processor has a packet to take or a read index to advance, or the thread holding
  // the smallest unpublished index has a step: at its wait loop it is admitted, because then every
  // earlier index is consumed and its distance is at most one chunk.
  lemma SomebodyMoves(cfg: Config, s: State, m: nat)
    requires Inv(cfg, s) && FirstUnpublished(s, m)
    ensures
      || Enabled(cfg, s, Take)
      || Enabled(cfg, s, Advance)
      || (m == s.consumed && s.owner[m] < |s.producers|
          && Enabled(cfg, s, MoveFor(cfg, s.producers[s.owner[m]], s.owner[m])))
  {
    OwnerStandsAtFirst(cfg, s, m);
    SlotIndexIsWrap(cfg, Single, s.consumed);
    if s.processor.Poll? && m != s.consumed {
      assert s.consumed in s.published;
      assert Live(s, s.consumed);
    }
    if s.processor.Poll? && m == s.consumed { OwnerEnabled(cfg, s, m); }
  }

  lemma OwnerEnabled(cfg: Config, s: State, m: nat)
    requires Inv(cfg, s) && FirstUnpublished(s, m) && m == s.consumed
    ensures s.owner[m] < |s.producers|
    ensures Enabled(cfg, s, MoveFor(cfg, s.producers[s.owner[m]], s.owner[m]))
  {
    hide Contents, Owned, Counted, Taken, Completions, BellsOk, BlockHeld, Wrap, ClearOk, U64, BitAnd;
    OwnerStandsAtFirst(cfg, s, m);
    var p := s.owner[m];
    var q := s.producers[p];
    SlotIndexIsWrap(cfg, q.call.kind, q.next);
    match q.pc
    case Spin => GuardsSeeTrueDistance(cfg, s, p);
    case Zero(_) => WriterInWindow(cfg, s, p);
    case Copy(_) => WriterInWindow(cfg, s, p);
    case _ =>
  }

  // ----- a rank that counts down to the publication of m

  function ProcessorRank(s: State, m: nat): int {
    2 * (m - s.consumed) - (if s.processor.Retire? then 1 else 0)
  }

  function OwnerRank(cfg: Config, q: Producer): int {
    match q.pc
    case Ring => 2 * cfg.words + 6
    case Spin => 2 * cfg.words + 5
    case Zero(cleared) => 2 * cfg.words + 4 - |cleared|
    case Copy(copied) => cfg.words + 1 - |copied|
    case _ => 0
  }

  function Rank(cfg: Config, s: State, m: nat): int
    requires m < |s.owner| && s.owner[m] < |s.producers|
  {
    ProcessorRank(s, m) + OwnerRank(cfg, s.producers[s.owner[m]])
  }

  lemma RankPositive(cfg: Config, s: State, m: nat)
    requires Inv(cfg, s) && FirstUnpublished(s, m)
    ensures s.owner[m] < |s.producers| && Rank(cfg, s, m) >= 1
    ensures ProcessorRank(s, m) >= 0
  {
    OwnerStandsAtFirst(cfg, s, m);
    match s.producers[s.owner[m]].pc
    case Zero(cleared) => BoundedBy(cleared, cfg.words + 1);
    case Copy(copied) => BoundedBy(copied, cfg.words);
    case _ =>
  }

  lemma BoundedBy(c: set<nat>, n: nat)
    requires forall k :: k in c ==> k < n
    ensures |c| <= n
  {
    BelowBound(c, n);
  }

  // While m stays unpublished, a step of the processor or of m's owner lowers the rank and every
  // other step leaves it alone.
  lemma RankStep(cfg: Config, s: State, a: Action, m: nat)
    requires Inv(cfg, s) && FirstUnpublished(s, m) && Enabled(cfg, s, a) && !OverAdmits(cfg, s, a)
    requires m !in Next(cfg, s, a).published
    ensures FirstUnpublished(Next(cfg, s, a), m)
    ensures s.owner[m] < |s.producers| && Next(cfg, s, a).owner[m] == s.owner[m]
    ensures |Next(cfg, s, a).producers| == |s.producers|
    ensures Rank(cfg, Next(cfg, s, a), m) + Helpful(a, s.owner[m]) <= Rank(cfg, s, m)
  {
    hide Wrap, Contents, BellsOk, Counted, CopyOk, BlockHeld;
    OwnerStandsAtFirst(cfg, s, m);
    var s' := Next(cfg, s, a);
    if IsMoveOf(a, s.owner[m]) { OwnerRankDrops(cfg, s, a, m); }
  }

  lemma OwnerRankDrops(cfg: Config, s: State, a: Action, m: nat)
    requires Inv(cfg, s) && FirstUnpublished(s, m) && Enabled(cfg, s, a)
    requires s.owner[m] < |s.producers| && IsMoveOf(a, s.owner[m])
    requires m !in Next(cfg, s, a).published
    ensures OwnerRank(cfg, Next(cfg, s, a).producers[s.owner[m]]) < OwnerRank(cfg, s.producers[s.owner[m]])
  {
    hide Contents, Owned, Counted, Taken, Completions, BellsOk, BlockHeld, Wrap, Window, ClearOk;
    OwnerStandsAtFirst(cfg, s, m);
    var q := s.producers[a.p];
    match a
    case EndZero(_) =>
      BoundedBy(q.pc.cleared, cfg.words + 1);
    case _ =>
  }

  function Helpful(a: Action, p: nat): nat {
    if IsProcessorMove(a) || IsMoveOf(a, p) then 1 else 0
  }

  function HelpfulSteps(actions: seq<Action>, p: nat): nat {
    if |actions| == 0 then 0
    else HelpfulSteps(actions[..|actions| - 1], p) + Helpful(actions[|actions| - 1], p)
  }

  // On any run, however the threads interleave, index m is published before its owner and the
  // processor have taken more than Rank steps between them.
  lemma {:induction false} PublishedWithinRank(cfg: Config, states: seq<State>, actions: seq<Action>, m: nat)
    requires IsRun(cfg, states, actions) && Inv(cfg, states[0]) && NeverOverAdmits(cfg, states, actions)
    requires FirstUnpublished(states[0], m) && m !in states[|actions|].published
    ensures Inv(cfg, states[|actions|]) && FirstUnpublished(states[|actions|], m)
    ensures states[0].owner[m] < |states[0].producers|
    ensures states[|actions|].owner[m] == states[0].owner[m]
    ensures |states[|actions|].producers| == |states[0].producers|
    ensures HelpfulSteps(actions, states[0].owner[m]) + Rank(cfg, states[|actions|], m) <= Rank(cfg, states[0], m)
    ensures HelpfulSteps(actions, states[0].owner[m]) < Rank(cfg, states[0], m)
    decreases |actions|
  {
    var n := |actions|;
    if n == 0 {
      RankPositive(cfg, states[0], m);
    } else {
      var ss, aa := states[..n], actions[..n - 1];
      assert states[n] == Next(cfg, states[n - 1], actions[n - 1]);
      assert !OverAdmits(cfg, states[n - 1], actions[n - 1]);
      PublishedGrows(cfg, states[n - 1], actions[n - 1]);
      PrefixRun(cfg, states, actions);
      PublishedWithinRank(cfg, ss, aa, m);
      RankStep(cfg, states[n - 1], actions[n - 1], m);
      StepKeeps(cfg, states[n - 1], actions[n - 1]);
      RankPositive(cfg, states[n], m);
    }
  }

  lemma PrefixRun(cfg: Config, states: seq<State>, actions: seq<Action>)
    requires IsRun(cfg, states, actions) && NeverOverAdmits(cfg, states, actions) && |actions| > 0
    ensures IsRun(cfg, states[..|actions|], actions[..|actions| - 1])
    ensures NeverOverAdmits(cfg, states[..|actions|], actions[..|actions| - 1])
  {
    hide Enabled, Next, OverAdmits;
  }

  lemma PublishedGrows(cfg: Config, s: State, a: Action)
    requires Enabled(cfg, s, a)
    ensures s.published <= Next(cfg, s, a).published
  {
  }

  // The same with no side condition, for batch and dispatch calls.
  lemma StrictPublishedWithinRank(cfg: Config, states: seq<State>, actions: seq<Action>, m: nat)
    requires IsRun(cfg, states, actions) && Inv(cfg, states[0]) && NoSingles(states[0]) && OnlyStrictCalls(actions)
    requires FirstUnpublished(states[0], m) && m !in states[|actions|].published
    ensures states[0].owner[m] < |states[0].producers|
    ensures HelpfulSteps(actions, states[0].owner[m]) < Rank(cfg, states[0], m)
  {
    StrictRunNeverOverAdmits(cfg, states, actions);
    PublishedWithinRank(cfg, states, actions, m);
  }

  // Nobody takes away another's step: what lets the processor move stays true until it does.
  lemma MovesPersist(cfg: Config, s: State, a: Action)
    requires Inv(cfg, s) && Enabled(cfg, s, a) && !OverAdmits(cfg, s, a)
    requires !IsProcessorMove(a)
    ensures Enabled(cfg, s, Take) ==> Enabled(cfg, Next(cfg, s, a), Take)
    ensures Enabled(cfg, s, Advance) ==> Enabled(cfg, Next(cfg, s, a), Advance)
  {
    var s' := Next(cfg, s, a);
    StepKeeps(cfg, s, a);
    SlotIndexIsWrap(cfg, Single, s.consumed);
    if Enabled(cfg, s, Take) {
      assert Live(s, s.consumed);
      assert Live(s', s'.consumed);
    }
  }

  // What lets the owner of the read index move stays true until it publishes.
  lemma OwnerMovePersists(cfg: Config, s: State, a: Action, m: nat)
    requires Inv(cfg, s) && FirstUnpublished(s, m) && m == s.consumed
    requires Enabled(cfg, s, a) && !OverAdmits(cfg, s, a) && m !in Next(cfg, s, a).published
    ensures Next(cfg, s, a).consumed == m && FirstUnpublished(Next(cfg, s, a), m)
    ensures s.owner[m] < |Next(cfg, s, a).producers|
    ensures Enabled(cfg, Next(cfg, s, a), MoveFor(cfg, Next(cfg, s, a).producers[s.owner[m]], s.owner[m]))
  {
    var s' := Next(cfg, s, a);
    SlotIndexIsWrap(cfg, Single, s.consumed);
    if a.Take? { TakeReadsLog(cfg, s); }
    RankStep(cfg, s, a, m);
    StepKeeps(cfg, s, a);
    OwnerEnabled(cfg, s', m);
  }
}
