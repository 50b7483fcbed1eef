// What the ring protocol guarantees over whole runs.
module RingTheorems {
  import opened Words
  import opened Sums
  import opened RingProtocol
  import opened RingInvariant

  // ----- which runs never over-admit

  ghost predicate OnlyStrictCalls(actions: seq<Action>) {
    forall i :: 0 <= i < |actions| && actions[i].Reserve? ==> !actions[i].call.kind.Single?
  }

  ghost predicate NoSingles(s: State) {
    forall p :: 0 <= p < |s.producers| && !s.producers[p].pc.Idle? ==> !s.producers[p].call.kind.Single?
  }

  // Runs of batch and dispatch calls are safe unconditionally.
  lemma StrictRunKeeps(cfg: Config, states: seq<State>, actions: seq<Action>, n: nat)
    requires ConfigOk(cfg) && IsRun(cfg, states, actions) && Init(cfg, states[0])
    requires OnlyStrictCalls(actions) && n <= |actions|
    ensures Inv(cfg, states[n]) && NoSingles(states[n])
    ensures NeverOverAdmits(cfg, states, actions)
  {
    StrictRunNeverOverAdmits(cfg, states, actions);
    RunKeeps(cfg, states, actions, n);
    NoSinglesThroughout(cfg, states, actions, n);
  }

  lemma StrictRunNeverOverAdmits(cfg: Config, states: seq<State>, actions: seq<Action>)
    requires IsRun(cfg, states, actions) && NoSingles(states[0]) && OnlyStrictCalls(actions)
    ensures NeverOverAdmits(cfg, states, actions)
  {
    forall n | 0 <= n < |actions|
      ensures !OverAdmits(cfg, states[n], actions[n])
    {
      NoSinglesThroughout(cfg, states, actions, n);
      NoSinglesStep(cfg, states[n], actions[n]);
    }
  }

  lemma {:induction false} NoSinglesThroughout(cfg: Config, states: seq<State>, actions: seq<Action>, n: nat)
    requires IsRun(cfg, states, actions) && NoSingles(states[0]) && OnlyStrictCalls(actions) && n <= |actions|
    ensures NoSingles(states[n])
  {
    if n > 0 {
      NoSinglesThroughout(cfg, states, actions, n - 1);
      NoSinglesStep(cfg, states[n - 1], actions[n - 1]);
    }
  }

  lemma NoSinglesStep(cfg: Config, s: State, a: Action)
    requires NoSingles(s) && Enabled(cfg, s, a) && (a.Reserve? ==> !a.call.kind.Single?)
    ensures NoSingles(Next(cfg, s, a)) && !OverAdmits(cfg, s, a)
  {
  }

  // Any mix of calls is safe while no more than one turn is reserved ahead of the read index.
  ghost predicate NeverCrowded(cfg: Config, states: seq<State>) {
    forall i :: 0 <= i < |states| ==> states[i].reserved <= states[i].consumed + cfg.size
  }

  lemma {:induction false} UncrowdedRunKeeps(cfg: Config, states: seq<State>, actions: seq<Action>, n: nat)
    requires ConfigOk(cfg) && IsRun(cfg, states, actions) && Init(cfg, states[0])
    requires NeverCrowded(cfg, states) && n <= |actions|
    ensures Inv(cfg, states[n])
    ensures n < |actions| ==> !OverAdmits(cfg, states[n], actions[n])
  {
    if n == 0 {
      InitKeeps(cfg, states[0]);
    } else {
      UncrowdedRunKeeps(cfg, states, actions, n - 1);
      StepKeeps(cfg, states[n - 1], actions[n - 1]);
    }
    if n < |actions| && OverAdmits(cfg, states[n], actions[n]) {
      GuardsSeeTrueDistance(cfg, states[n], actions[n].p);
      ChunkNonempty(cfg, states[n], actions[n].p);
      assert false;
    }
  }

  lemma ChunkNonempty(cfg: Config, s: State, p: nat)
    requires Inv(cfg, s) && p < |s.producers| && s.producers[p].pc.Spin?
    ensures s.producers[p].chunk >= 1
  {
    assert ProducerOk(cfg, s, p);
  }

  // Every single-packet call finds room when it reserves: less than one turn is reserved ahead of
  // the read index. A caller can check this before the call.
  ghost predicate RoomAtReserve(cfg: Config, states: seq<State>, actions: seq<Action>)
    requires |states| == |actions| + 1
  {
    forall i :: 0 <= i < |actions| && actions[i].Reserve? && actions[i].call.kind.Single? ==>
      states[i].reserved < states[i].consumed + cfg.size
  }

  // The distance of a waiting single packet only shrinks, so it stays below one turn.
  ghost predicate SinglesNear(cfg: Config, s: State) {
    forall p :: 0 <= p < |s.producers| && s.producers[p].pc.Spin? && s.producers[p].call.kind.Single? ==>
      s.producers[p].next < s.consumed + cfg.size
  }

  lemma SinglesNearStep(cfg: Config, s: State, a: Action)
    requires Inv(cfg, s) && Enabled(cfg, s, a) && SinglesNear(cfg, s)
    requires a.Reserve? && a.call.kind.Single? ==> s.reserved < s.consumed + cfg.size
    ensures SinglesNear(cfg, Next(cfg, s, a)) && !OverAdmits(cfg, s, a)
  {
    hide Wrap, Contents, Owned, Counted, BellsOk, BlockHeld, CopyOk;
    if a.RingBell? { assert ProducerOk(cfg, s, a.p); }
  }

  // The run theorem for callers of the single form: any mix of calls is safe as long as each single
  // call sees room when it reserves.
  lemma {:induction false} RoomAtReserveSuffices(cfg: Config, states: seq<State>, actions: seq<Action>, n: nat)
    requires ConfigOk(cfg) && IsRun(cfg, states, actions) && Init(cfg, states[0])
    requires RoomAtReserve(cfg, states, actions) && n <= |actions|
    ensures Inv(cfg, states[n]) && SinglesNear(cfg, states[n])
    ensures n < |actions| ==> !OverAdmits(cfg, states[n], actions[n])
  {
    if n == 0 {
      InitKeeps(cfg, states[0]);
    } else {
      RoomAtReserveSuffices(cfg, states, actions, n - 1);
      SinglesNearStep(cfg, states[n - 1], actions[n - 1]);
      StepKeeps(cfg, states[n - 1], actions[n - 1]);
    }
    if n < |actions| { SinglesNearStep(cfg, states[n], actions[n]); }
  }

  // The check cannot be relaxed: with exactly one turn reserved ahead, a single call that reserves
  // and waits is let through at once, onto the slot of the read index.
  lemma NoRoomOverAdmits(cfg: Config, s: State, p: nat, c: Call)
    requires Inv(cfg, s) && Enabled(cfg, s, Reserve(p, c)) && c.kind.Single?
    ensures s.reserved == s.consumed + cfg.size <==>
              Enabled(cfg, Next(cfg, s, Reserve(p, c)), Admit(p))
              && OverAdmits(cfg, Next(cfg, s, Reserve(p, c)), Admit(p))
  {
    var t := Next(cfg, s, Reserve(p, c));
    ReserveKeeps(cfg, s, p, c);
    GuardsSeeTrueDistance(cfg, t, p);
  }

  // The three wait loops compared, on every reachable state: a batch of one and the dispatch loop
  // admit the same, and the single form admits exactly one distance more.
  lemma GuardsCompared(cfg: Config, s: State, p: nat)
    requires Inv(cfg, s) && p < |s.producers| && s.producers[p].pc.Spin?
    ensures BatchAdmits(cfg, s.producers[p].next, 1, s.consumed)
            <==> DispatchAdmits(cfg, s.producers[p].next, s.consumed)
    ensures SingleAdmits(cfg, s.producers[p].next, s.consumed)
            <==> DispatchAdmits(cfg, s.producers[p].next, s.consumed)
                 || s.producers[p].next == s.consumed + cfg.size
    ensures DispatchAdmits(cfg, s.producers[p].next, s.consumed)
            <==> s.producers[p].next < s.consumed + cfg.size
  {
    var q := s.producers[p];
    GuardsSeeTrueDistance(cfg, s, p);
    OutstandingBound(cfg, s);
    assert ProducerOk(cfg, s, p);
    DistanceSurvivesWrap(q.next, s.consumed, 1);
  }

  // A single packet let through by its wait loop lands on the slot of an earlier unconsumed index
  // exactly when its distance is the ring size, and that index is then the read index.
  lemma OverAdmissionIsCollision(cfg: Config, s: State, p: nat)
    requires Inv(cfg, s) && Enabled(cfg, s, Admit(p)) && s.producers[p].call.kind.Single?
    ensures OverAdmits(cfg, s, Admit(p))
            <==> exists j: nat :: s.consumed <= j < s.producers[p].next
                                  && Wrap(cfg.size, j) == Wrap(cfg.size, s.producers[p].next)
    ensures OverAdmits(cfg, s, Admit(p)) ==> Wrap(cfg.size, s.producers[p].next) == Wrap(cfg.size, s.consumed)
  {
    var w := s.producers[p].next;
    GuardsSeeTrueDistance(cfg, s, p);
    if w == s.consumed + cfg.size {
      assert Wrap(cfg.size, w) == Wrap(cfg.size, s.consumed);
    } else {
      WindowDistinct(cfg.size, s.consumed, w);
    }
  }

  // What over-admission does, for every ring size: when the packet at the read index is still
  // there, the first differing word the thread copies destroys it.
  lemma OverAdmissionOverwrites(cfg: Config, s: State, p: nat, k: nat)
    requires Inv(cfg, s) && Enabled(cfg, s, Admit(p)) && OverAdmits(cfg, s, Admit(p))
    requires Live(s, s.consumed) && k < cfg.words && |s.producers[p].call.packets| == 1
    requires |s.producers[p].call.packets[0].body| == cfg.words
    requires s.producers[p].call.packets[0].body[k] != s.log[s.consumed].body[k]
    ensures Enabled(cfg, Next(cfg, s, Admit(p)), CopyWord(p, k))
    ensures var t := Next(cfg, Next(cfg, s, Admit(p)), CopyWord(p, k));
            && Live(t, t.consumed) && t.log == s.log && |t.slots| == cfg.size
            && t.slots[Wrap(cfg.size, t.consumed)] != t.log[t.consumed]
  {
    hide CopyOk, BellsOk, Counted, Taken, Completions, Owned;
    var q := s.producers[p];
    assert ProducerOk(cfg, s, p);
    SlotIndexIsWrap(cfg, Single, q.next);
    assert Wrap(cfg.size, q.next) == Wrap(cfg.size, s.consumed);
  }

  // ----- safety

  // No published packet changes before the processor takes it.
  lemma PublishedPacketsSurvive(cfg: Config, s: State, a: Action, j: nat)
    requires Inv(cfg, s) && Enabled(cfg, s, a) && !OverAdmits(cfg, s, a)
    requires j in s.published && Live(s, j) && !(a.Take? && j == s.consumed)
    ensures Live(Next(cfg, s, a), j)
    ensures Next(cfg, s, a).slots[Wrap(cfg.size, j)] == s.slots[Wrap(cfg.size, j)] == s.log[j]
  {
    StepKeeps(cfg, s, a);
    var s' := Next(cfg, s, a);
    assert s.log <= s'.log;
    assert Live(s', j);
  }

  // Indices admitted or published and not yet consumed all have different slots.
  predicate Occupies(s: State, j: nat) {
    && s.consumed <= j < s.reserved
    && (j in s.published || exists p :: 0 <= p < |s.producers| && InChunk(s.producers[p], j))
  }

  predicate InChunk(q: Producer, j: nat) {
    (q.pc.Zero? || q.pc.Copy?) && q.i <= q.next && q.next <= j < q.next - q.i + q.chunk
  }

  lemma OccupiedSlotsDistinct(cfg: Config, s: State, j: nat, k: nat)
    requires Inv(cfg, s) && Occupies(s, j) && Occupies(s, k) && j != k
    ensures Wrap(cfg.size, j) != Wrap(cfg.size, k)
  {
    OccupiedInWindow(cfg, s, j);
    OccupiedInWindow(cfg, s, k);
    WindowDistinct(cfg.size, s.consumed, j);
  }

  lemma OccupiedInWindow(cfg: Config, s: State, j: nat)
    requires Inv(cfg, s) && Occupies(s, j)
    ensures j < s.consumed + cfg.size
  {
    if j !in s.published {
      var p :| 0 <= p < |s.producers| && InChunk(s.producers[p], j);
      assert ProducerOk(cfg, s, p);
    }
  }

  // A ready slot holds, complete, the packet some call meant for that slot.
  lemma NoTornPacket(cfg: Config, s: State, x: nat) returns (j: nat)
    requires Inv(cfg, s) && x < cfg.size && s.slots[x].header in cfg.ready
    ensures Live(s, j) && j < s.reserved && Wrap(cfg.size, j) == x && s.slots[x] == s.log[j]
  {
    j := SlotHasIndex(cfg.size, s.consumed, x);
  }

  // Safety of a whole run of batch and dispatch calls, at every step: occupied slots are distinct,
  // no published packet changes before it is taken, and the processor takes a prefix of the log.
  lemma StrictRunIsSafe(cfg: Config, states: seq<State>, actions: seq<Action>, n: nat)
    requires ConfigOk(cfg) && IsRun(cfg, states, actions) && Init(cfg, states[0])
    requires OnlyStrictCalls(actions) && n < |actions|
    ensures forall j: nat, k: nat :: Occupies(states[n], j) && Occupies(states[n], k) && j != k ==>
              Wrap(cfg.size, j) != Wrap(cfg.size, k)
    ensures |states[n].slots| == |states[n + 1].slots| == cfg.size
    ensures forall j: nat :: Live(states[n], j) && !(actions[n].Take? && j == states[n].consumed) ==>
              Live(states[n + 1], j)
              && states[n + 1].slots[Wrap(cfg.size, j)] == states[n].slots[Wrap(cfg.size, j)]
    ensures states[n].taken <= states[n].log
  {
    StrictRunKeeps(cfg, states, actions, n);
    StrictRunKeeps(cfg, states, actions, n + 1);
    NoSinglesStep(cfg, states[n], actions[n]);
    forall j: nat, k: nat | Occupies(states[n], j) && Occupies(states[n], k) && j != k
      ensures Wrap(cfg.size, j) != Wrap(cfg.size, k)
    {
      OccupiedSlotsDistinct(cfg, states[n], j, k);
    }
    forall j: nat | Live(states[n], j) && !(actions[n].Take? && j == states[n].consumed)
      ensures Live(states[n + 1], j)
      ensures states[n + 1].slots[Wrap(cfg.size, j)] == states[n].slots[Wrap(cfg.size, j)]
    {
      PublishedPacketsSurvive(cfg, states[n], actions[n], j);
    }
  }

  // ----- refinement to a log

  lemma {:induction false} LogGrows(cfg: Config, states: seq<State>, actions: seq<Action>, i: nat, n: nat)
    requires IsRun(cfg, states, actions) && i <= n <= |actions|
    ensures states[i].log <= states[n].log && states[i].owner <= states[n].owner && states[i].taken <= states[n].taken
    decreases n
  {
    if i < n {
      LogGrows(cfg, states, actions, i, n - 1);
      var a := actions[n - 1];
      assert states[n] == Next(cfg, states[n - 1], a);
    }
  }

  lemma ReserveAppendsBlock(cfg: Config, s: State, p: nat, c: Call)
    requires Inv(cfg, s) && Enabled(cfg, s, Reserve(p, c))
    ensures |s.log| == |s.owner| == s.reserved
    ensures Next(cfg, s, Reserve(p, c)).log == s.log + Block(cfg.size, c.packets)
    ensures Next(cfg, s, Reserve(p, c)).owner == s.owner + seq(|c.packets|, _ => p)
  {
  }

  lemma TakenIsPrefix(cfg: Config, s: State)
    requires Inv(cfg, s)
    ensures s.taken <= s.log && |s.log| == |s.owner| == s.reserved && cfg.size >= 1
  {
  }

  // The processor takes exactly a prefix of the log, and each call owns one contiguous block of it.
  lemma RunRefinesLog(cfg: Config, states: seq<State>, actions: seq<Action>, i: nat, n: nat, p: nat, c: Call)
    requires ConfigOk(cfg) && IsRun(cfg, states, actions) && Init(cfg, states[0])
    requires NeverOverAdmits(cfg, states, actions)
    requires i < n <= |actions| && actions[i] == Reserve(p, c)
    ensures states[n].taken <= states[n].log
    ensures states[i].reserved + |c.packets| <= |states[n].log| == |states[n].owner|
    ensures states[n].log[states[i].reserved .. states[i].reserved + |c.packets|] == Block(cfg.size, c.packets)
    ensures forall j :: states[i].reserved <= j < states[i].reserved + |c.packets| ==> states[n].owner[j] == p
    ensures |c.packets| <= cfg.size ==>
              states[n].log[states[i].reserved .. states[i].reserved + |c.packets|] == c.packets
  {
    hide Inv, Next, Enabled, Init, Wrap, NeverOverAdmits;
    RunKeeps(cfg, states, actions, i);
    RunKeeps(cfg, states, actions, n);
    TakenIsPrefix(cfg, states[n]);
    LogGrows(cfg, states, actions, i + 1, n);
    ReserveAppendsBlock(cfg, states[i], p, c);
    var lo, hi := states[i].reserved, states[i].reserved + |c.packets|;
    assert states[i + 1].log[lo..hi] == Block(cfg.size, c.packets);
    assert states[n].log[lo..hi] == states[i + 1].log[lo..hi];
    forall j | lo <= j < hi
      ensures states[n].owner[j] == p
    {
      assert states[i + 1].owner[j] == p;
    }
    if |c.packets| <= cfg.size { ShortBlock(cfg.size, c.packets); }
  }

  // Runs of batch and dispatch calls refine the log without any side condition.
  lemma StrictRunRefinesLog(cfg: Config, states: seq<State>, actions: seq<Action>, i: nat, n: nat, p: nat, c: Call)
    requires ConfigOk(cfg) && IsRun(cfg, states, actions) && Init(cfg, states[0])
    requires OnlyStrictCalls(actions)
    requires i < n <= |actions| && actions[i] == Reserve(p, c)
    ensures states[n].taken <= states[n].log
    ensures states[i].reserved + |c.packets| <= |states[n].log| && cfg.size >= 1
    ensures states[n].log[states[i].reserved .. states[i].reserved + |c.packets|] == Block(cfg.size, c.packets)
    ensures |c.packets| <= cfg.size ==>
              states[n].log[states[i].reserved .. states[i].reserved + |c.packets|] == c.packets
  {
    StrictRunKeeps(cfg, states, actions, n);
    RunRefinesLog(cfg, states, actions, i, n, p, c);
  }

  // In a ring of one slot a batch of two different packets writes the first one twice.
  lemma BatchRepeatsFirst(first: Packet, second: Packet)
    requires first != second
    ensures Block(1, [first, second]) == [first, first] != [first, second]
  {
    assert Wrap(1, 1) == 0;
  }

  lemma ShortBlock(size: nat, packets: seq<Packet>)
    requires size >= 1 && |packets| <= size
    ensures Block(size, packets) == packets
  {
  }

  // A block equals its array exactly when the array repeats with the ring size as its period: in
  // particular whenever it fits in one chunk.
  lemma {:induction false} BlockIsArray(size: nat, packets: seq<Packet>)
    requires size >= 1
    ensures Block(size, packets) == packets
            <==> forall j :: 0 <= j && j + size < |packets| ==> packets[j + size] == packets[j]
  {
    if Block(size, packets) == packets {
      forall j | 0 <= j && j + size < |packets|
        ensures packets[j + size] == packets[j]
      {
        assert Block(size, packets)[j + size] == Block(size, packets)[j];
      }
    }
    if forall j :: 0 <= j && j + size < |packets| ==> packets[j + size] == packets[j] {
      forall j | 0 <= j < |packets|
        ensures packets[Wrap(size, j)] == packets[j]
      {
        PeriodicAt(size, packets, j);
      }
    }
  }

  lemma {:induction false} PeriodicAt(size: nat, packets: seq<Packet>, j: nat)
    requires size >= 1 && j < |packets|
    requires forall j :: 0 <= j && j + size < |packets| ==> packets[j + size] == packets[j]
    ensures packets[Wrap(size, j)] == packets[j]
    decreases j
  {
    if j >= size {
      PeriodicAt(size, packets, j - size);
      assert packets[(j - size) + size] == packets[j - size];
    }
  }

  // ----- doorbell

  // In every reachable state, every value a thread has rung is truthful: all the indices that
  // thread reserved below it are published, and its values never decrease.
  lemma DoorbellTruth(cfg: Config, s: State, i: nat, j: nat)
    requires Inv(cfg, s) && i < |s.bells| && s.bells[i].producer < |s.producers|
    requires j < s.bells[i].index && j < s.reserved && s.owner[j] == s.bells[i].producer
    ensures j in s.published
  {
    assert BellBelow(s, s.bells[i]);
    if j !in s.published { UnpublishedAhead(cfg, s, j); }
  }

  lemma UnpublishedAhead(cfg: Config, s: State, j: nat)
    requires Inv(cfg, s) && j < s.reserved && j !in s.published
    ensures s.owner[j] < |s.producers| && !s.producers[s.owner[j]].pc.Idle?
    ensures s.producers[s.owner[j]].next <= j
  {
    assert HeldBy(s, j, s.owner[j]);
    assert ProducerOk(cfg, s, s.owner[j]);
  }

  // What is rung: a single packet or a dispatch rings its own, already published index; a batch
  // rings one past the last index it has published. The indices a thread rings never decrease; the
  // register holds their 64-bit image, which StoredOrder in Words compares.
  lemma DoorbellValue(cfg: Config, s: State, p: nat)
    requires Inv(cfg, s) && Enabled(cfg, s, RingBell(p))
    ensures var q := s.producers[p];
            |Next(cfg, s, RingBell(p)).bells| == |s.bells| + 1 &&
            var b := Next(cfg, s, RingBell(p)).bells[|s.bells|];
            && b.producer == p && Next(cfg, s, RingBell(p)).doorbell == U64(b.index)
            && (q.call.kind.Batch? ==> b.index >= 1 && b.index - 1 in s.published && b.index == q.next)
            && (!q.call.kind.Batch? ==> b.index in s.published && b.index == q.base)
            && (forall i :: 0 <= i < |s.bells| && s.bells[i].producer == p ==> s.bells[i].index <= b.index)
  {
    var q := s.producers[p];
    assert ProducerOk(cfg, s, p);
    forall i | 0 <= i < |s.bells| && s.bells[i].producer == p
      ensures s.bells[i].index <= BellIndex(q)
    {
      assert BellBelow(s, s.bells[i]);
    }
  }

  // ----- synchronous dispatch

  // When dispatch_kernel_1d_data returns, the processor has taken its packet, whole, at its index;
  // taken only grows, so it was taken exactly once.
  lemma DispatchReturnsAfterConsumption(cfg: Config, s: State, p: nat)
    requires Inv(cfg, s) && Enabled(cfg, s, Return(p))
    ensures var q := s.producers[p];
            q.call.kind.Dispatch? && |q.call.packets| == 1 && q.base < |s.taken| && s.taken[q.base] == q.call.packets[0]
  {
    assert ProducerOk(cfg, s, p);
    var q := s.producers[p];
    assert s.taken[q.base] == s.log[q.base];
    assert Wrap(cfg.size, 0) == 0;
  }

  function Busy(q: Producer): nat {
    if q.pc.Idle? then 0 else 1
  }

  function Busies(ps: seq<Producer>): (xs: seq<nat>)
    ensures |xs| == |ps|
  {
    seq(|ps|, p requires 0 <= p < |ps| => Busy(ps[p]))
  }

  lemma BusiesUpdate(ps: seq<Producer>, p: nat, q: Producer)
    requires p < |ps|
    ensures Sum(Busies(ps[p := q])) + Busy(ps[p]) == Sum(Busies(ps)) + Busy(q)
  {
    assert Busies(ps[p := q]) == Busies(ps)[p := Busy(q)];
    SumUpdate(Busies(ps), p, Busy(q));
  }

  // In a run of dispatches, every reserved index has returned or belongs to one busy thread.
  ghost predicate DispatchCounted(s: State) {
    && |s.returned| + Sum(Busies(s.producers)) == s.reserved
    && forall p :: 0 <= p < |s.producers| && !s.producers[p].pc.Idle? ==>
         s.producers[p].call.kind.Dispatch? && s.producers[p].base !in s.returned
  }

  lemma DispatchCountedStep(cfg: Config, s: State, a: Action)
    requires Inv(cfg, s) && Enabled(cfg, s, a) && DispatchCounted(s)
    requires a.Reserve? ==> a.call.kind.Dispatch?
    ensures DispatchCounted(Next(cfg, s, a))
  {
    hide Inv, Wrap;
    match a
    case Return(p) => DispatchReturns(cfg, s, p);
    case Reserve(p, c) => DispatchReserves(cfg, s, p, c);
    case RingBell(p) =>
      LastChunk(cfg, s, p);
      BusyThroughout(s, Next(cfg, s, a), p);
    case Admit(p) => BusyThroughout(s, Next(cfg, s, a), p);
    case ZeroWord(p, _) => BusyThroughout(s, Next(cfg, s, a), p);
    case EndZero(p) => BusyThroughout(s, Next(cfg, s, a), p);
    case CopyWord(p, _) => BusyThroughout(s, Next(cfg, s, a), p);
    case StoreHeader(p) => BusyThroughout(s, Next(cfg, s, a), p);
    case Take =>
    case Advance =>
    case Complete(_) =>
  }

  // A thread that stays busy in the same call changes no count.
  lemma BusyThroughout(s: State, s': State, p: nat)
    requires DispatchCounted(s) && p < |s.producers| && !s.producers[p].pc.Idle?
    requires |s'.producers| == |s.producers| && s'.producers == s.producers[p := s'.producers[p]]
    requires s'.returned == s.returned && s'.reserved == s.reserved
    requires !s'.producers[p].pc.Idle?
    requires s'.producers[p].call == s.producers[p].call && s'.producers[p].base == s.producers[p].base
    ensures DispatchCounted(s')
  {
    BusiesUpdate(s.producers, p, s'.producers[p]);
  }

  lemma DispatchReserves(cfg: Config, s: State, p: nat, c: Call)
    requires Inv(cfg, s) && Enabled(cfg, s, Reserve(p, c)) && DispatchCounted(s) && c.kind.Dispatch?
    ensures DispatchCounted(Next(cfg, s, Reserve(p, c)))
  {
    hide Inv, Wrap;
    ReturnedBelow(cfg, s);
    BusiesUpdate(s.producers, p, StartCall(cfg, c, s.reserved));
  }

  lemma DispatchReturns(cfg: Config, s: State, p: nat)
    requires Inv(cfg, s) && Enabled(cfg, s, Return(p)) && DispatchCounted(s)
    ensures DispatchCounted(Next(cfg, s, Return(p)))
  {
    hide Inv, Wrap;
    ReturnDistinct(cfg, s, p);
    BusiesUpdate(s.producers, p, s.producers[p].(pc := Idle));
  }

  lemma ReturnedBelow(cfg: Config, s: State)
    requires Inv(cfg, s)
    ensures s.reserved !in s.returned
  {
  }

  // A dispatch never goes straight from its doorbell to idle.
  lemma LastChunk(cfg: Config, s: State, p: nat)
    requires Inv(cfg, s) && Enabled(cfg, s, RingBell(p)) && s.producers[p].call.kind.Dispatch?
    ensures !AfterRing(cfg, s.producers[p]).pc.Idle?
  {
  }

  // Two busy threads never share a base.
  lemma ReturnDistinct(cfg: Config, s: State, p: nat)
    requires Inv(cfg, s) && Enabled(cfg, s, Return(p))
    ensures forall r: nat :: r < |s.producers| && r != p && !s.producers[r].pc.Idle? ==>
              s.producers[r].base != s.producers[p].base
  {
    assert ProducerOk(cfg, s, p);
    forall r: nat | r < |s.producers| && r != p && !s.producers[r].pc.Idle?
      ensures s.producers[r].base != s.producers[p].base
    {
      assert ProducerOk(cfg, s, r);
      assert s.owner[s.producers[r].base] == r;
    }
  }

  lemma {:induction false} DispatchRunCounted(cfg: Config, states: seq<State>, actions: seq<Action>, n: nat)
    requires ConfigOk(cfg) && IsRun(cfg, states, actions) && Init(cfg, states[0]) && n <= |actions|
    requires forall i :: 0 <= i < |actions| && actions[i].Reserve? ==> actions[i].call.kind.Dispatch?
    ensures Inv(cfg, states[n]) && DispatchCounted(states[n])
  {
    StrictRunKeeps(cfg, states, actions, n);
    if n == 0 {
      SumZero(Busies(states[0].producers));
    } else {
      DispatchRunCounted(cfg, states, actions, n - 1);
      DispatchCountedStep(cfg, states[n - 1], actions[n - 1]);
    }
  }

  // P threads that only dispatch never have more than P packets the processor has not taken.
  lemma DispatchersBoundBacklog(cfg: Config, states: seq<State>, actions: seq<Action>, n: nat)
    requires ConfigOk(cfg) && IsRun(cfg, states, actions) && Init(cfg, states[0]) && n <= |actions|
    requires forall i :: 0 <= i < |actions| && actions[i].Reserve? ==> actions[i].call.kind.Dispatch?
    ensures states[n].reserved - |states[n].taken| <= cfg.producers
  {
    DispatchRunCounted(cfg, states, actions, n);
    var s := states[n];
    BelowBound(s.returned, |s.taken|);
    SumAtMost(Busies(s.producers), 1);
  }

  // ----- the single form's fault, on a concrete run

  // A single-packet call by the only thread of a one-slot, one-word ring whose read index is 0.
  lemma SingleCallRun(cfg: Config, s: State, packet: Packet) returns (states: seq<State>, actions: seq<Action>)
    requires cfg.size == 1 && cfg.words == 1 && PacketOk(cfg, packet)
    requires |s.slots| == 1 && |s.slots[0].body| == 1 && |s.producers| == 1 && s.producers[0].pc.Idle?
    requires s.consumed == 0 && s.reserved <= 1
    ensures |actions| == 5 && IsRun(cfg, states, actions) && states[0] == s
    ensures actions[1] == Admit(0) && states[1].producers[0].next == s.reserved
    ensures states[1].producers[0].call.kind.Single? && states[1].consumed == 0
    ensures var t := states[5];
            && t.slots == [packet] && t.log == s.log + [packet] && t.published == s.published + {s.reserved}
            && t.taken == s.taken && t.consumed == 0 && t.reserved == s.reserved + 1
            && t.processor == s.processor && |t.producers| == 1 && t.producers[0].pc.Idle?
  {
    hide BitAnd, U64, Wrap;
    var c := Call(Single, [packet]);
    MaskOfOneSlot(s.reserved);
    actions := [Reserve(0, c), Admit(0), CopyWord(0, 0), StoreHeader(0), RingBell(0)];
    var s1 := Next(cfg, s, actions[0]);
    BlockOfOne(packet);
    var s2 := Next(cfg, s1, actions[1]);
    var s3 := Next(cfg, s2, actions[2]);
    assert s3.slots[0].body == packet.body;
    var s4 := Next(cfg, s3, actions[3]);
    assert s4.slots == [packet];
    var s5 := Next(cfg, s4, actions[4]);
    states := [s, s1, s2, s3, s4, s5];
  }

  lemma RunAppend(cfg: Config, ss: seq<State>, aa: seq<Action>, tt: seq<State>, bb: seq<Action>)
    requires IsRun(cfg, ss, aa) && IsRun(cfg, tt, bb) && ss[|aa|] == tt[0]
    ensures IsRun(cfg, ss + tt[1..], aa + bb)
  {
    hide Enabled, Next;
    var states, actions := ss + tt[1..], aa + bb;
    forall i | 0 <= i < |actions|
      ensures Enabled(cfg, states[i], actions[i]) && states[i + 1] == Next(cfg, states[i], actions[i])
    {
      if i >= |aa| { assert states[i] == tt[i - |aa|] && states[i + 1] == tt[i + 1 - |aa|]; }
    }
  }

  lemma BlockOfOne(packet: Packet)
    ensures Block(1, [packet]) == [packet]
  {
  }

  lemma MaskOfOneSlot(w: nat)
    requires w <= 1
    ensures BitAnd(U64(w), 0) == 0 && U64(U64(w) - U64(0)) == w
  {
  }

  // One thread, a ring of one slot: the second single packet passes its wait loop at distance 1
  // and overwrites the first before the processor has seen it, so the processor takes the second
  // packet where the first was due.
  lemma SingleFormLosesAPacket(cfg: Config, first: Packet, second: Packet)
      returns (states: seq<State>, actions: seq<Action>)
    requires ConfigOk(cfg) && cfg.size == 1 && cfg.words == 1 && cfg.producers == 1
    requires PacketOk(cfg, first) && PacketOk(cfg, second) && first != second
    ensures IsRun(cfg, states, actions) && Init(cfg, states[0]) && |actions| == 10
    ensures !NeverOverAdmits(cfg, states, actions)
    ensures states[10].log == [first, second] && states[10].taken == [] && 0 in states[10].published
    ensures Enabled(cfg, states[10], Take) && Next(cfg, states[10], Take).taken == [second]
  {
    var idle := Producer(Idle, Call(Single, []), 0, 0, 0, 0, 0);
    var s0 := State([Packet(cfg.invalid, [0])], 0, 0, Poll, [idle], 0, {}, [], [], [], {}, [], {}, []);
    var ss, aa := SingleCallRun(cfg, s0, first);
    var tt, bb := SingleCallRun(cfg, ss[5], second);
    states, actions := ss + tt[1..], aa + bb;
    RunAppend(cfg, ss, aa, tt, bb);
    assert states[6] == tt[1] && actions[6] == bb[1] && states[10] == tt[5];
    assert OverAdmits(cfg, tt[1], bb[1]);
    MaskOfOneSlot(0);
  }
}
