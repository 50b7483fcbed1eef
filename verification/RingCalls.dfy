// What a thread's call needs and what it leaves behind: when each of its steps is possible, and that
// every index it publishes is rung.
module RingCalls {
  import opened Words
  import opened RingProtocol
  import opened RingInvariant
  import opened RingTheorems
  import opened RingProgress

  // ----- when a thread is let through

  // The wait loops on true indices: a batch waits until its whole chunk, and a dispatch until its
  // packet, lies within one turn of the read index; a single packet may lie one further.
  predicate Room(cfg: Config, s: State, q: Producer) {
    if q.call.kind.Single? then q.next <= s.consumed + cfg.size
    else q.next + q.chunk <= s.consumed + cfg.size
  }

  // In every reachable state a waiting thread is let through exactly when there is room.
  lemma AdmittedExactly(cfg: Config, s: State, p: nat)
    requires Inv(cfg, s) && p < |s.producers| && s.producers[p].pc.Spin?
    ensures Enabled(cfg, s, Admit(p)) <==> Room(cfg, s, s.producers[p])
  {
    GuardsSeeTrueDistance(cfg, s, p);
    assert ProducerOk(cfg, s, p);
  }

  // A busy thread is held up only by a full ring, or by a packet that is not completed: otherwise
  // its next step is possible. A dispatch can return exactly when its packet is completed.
  lemma BusyThreadMoves(cfg: Config, s: State, p: nat)
    requires Inv(cfg, s) && p < |s.producers| && !s.producers[p].pc.Idle?
    ensures var q := s.producers[p];
            Enabled(cfg, s, MoveFor(cfg, q, p))
            <==> (q.pc.Spin? ==> Room(cfg, s, q)) && (q.pc.Await? ==> q.base in s.completed)
  {
    var q := s.producers[p];
    assert ProducerOk(cfg, s, p);
    SlotIndexIsWrap(cfg, q.call.kind, q.next);
    match q.pc
    case Spin => AdmittedExactly(cfg, s, p);
    case Zero(_) => WriterInWindow(cfg, s, p);
    case Copy(_) => WriterInWindow(cfg, s, p);
    case _ =>
  }

  // Reserving never waits: an idle thread may make any call at any time. It gets the indices after
  // all those reserved so far, and starts to wait at the first of them.
  lemma ReservingNeverWaits(cfg: Config, s: State, p: nat, c: Call)
    requires Inv(cfg, s) && p < |s.producers|
    ensures Enabled(cfg, s, Reserve(p, c)) <==> s.producers[p].pc.Idle? && CallOk(cfg, c)
    ensures Enabled(cfg, s, Reserve(p, c)) ==>
              var s' := Next(cfg, s, Reserve(p, c));
              && s'.reserved == s.reserved + |c.packets| && |s'.producers| == |s.producers|
              && s'.producers[p].pc.Spin? && s'.producers[p].call == c
              && s'.producers[p].base == s'.producers[p].next == s.reserved
  {
  }

  // memset and memcpy write their words in any order: each word not yet written can be next.
  lemma WordsInAnyOrder(cfg: Config, s: State, p: nat, k: nat)
    requires Inv(cfg, s) && p < |s.producers|
    ensures s.producers[p].pc.Zero? ==>
              (Enabled(cfg, s, ZeroWord(p, k)) <==> k <= cfg.words && k !in s.producers[p].pc.cleared)
    ensures s.producers[p].pc.Copy? ==>
              (Enabled(cfg, s, CopyWord(p, k)) <==> k < cfg.words && k !in s.producers[p].pc.copied)
  {
    var q := s.producers[p];
    if q.pc.Zero? || q.pc.Copy? {
      assert ProducerOk(cfg, s, p);
      SlotIndexIsWrap(cfg, q.call.kind, q.next);
      WriterInWindow(cfg, s, p);
    }
  }

  // The processor takes exactly when the read index is published, and whatever it has taken can be
  // completed, once.
  lemma ProcessorMoves(cfg: Config, s: State, j: nat)
    requires Inv(cfg, s)
    ensures Enabled(cfg, s, Take) <==> s.processor.Poll? && s.consumed in s.published
    ensures Enabled(cfg, s, Advance) <==> s.processor.Retire?
    ensures Enabled(cfg, s, Complete(j)) <==> j < |s.taken| && j !in s.completed
  {
    SlotIndexIsWrap(cfg, Single, s.consumed);
    assert Live(s, s.consumed) <==> s.consumed in s.published && !s.processor.Retire?;
  }

  // While a dispatch fills its slot, each word is the packet's or still zero, and the header is
  // zero until the store that publishes it.
  lemma DispatchFillsClearedSlot(cfg: Config, s: State, p: nat, k: nat)
    requires Inv(cfg, s) && p < |s.producers| && k < cfg.words
    requires s.producers[p].pc.Copy? && s.producers[p].call.kind.Dispatch?
    ensures |s.producers[p].call.packets| == 1 && |s.producers[p].call.packets[0].body| == cfg.words
    ensures var q, slot := s.producers[p], s.slots[Wrap(cfg.size, s.producers[p].next)];
            && slot.header == 0
            && slot.body[k] == if k in q.pc.copied then q.call.packets[0].body[k] else 0
  {
    assert ProducerOk(cfg, s, p);
  }

  // ----- every published index is rung

  // Ringing one past an index tells the processor of it for a batch; a single packet or a dispatch
  // rings its own index.
  predicate Tells(b: Bell, kind: Kind, j: nat) {
    if kind.Batch? then j < b.index else b.index == j
  }

  ghost predicate Told(s: State, j: nat)
    requires j < |s.owner| && j < |s.kinds|
  {
    exists b :: b in s.bells && b.producer == s.owner[j] && Tells(b, s.kinds[j], j)
  }

  // Index j lies in the part of the current chunk that thread q has published.
  predicate InHand(q: Producer, j: nat) {
    (q.pc.Copy? || q.pc.Ring?) && q.next <= j + q.i && j < q.next
  }

  // Each index carries the kind of the call that reserved it.
  ghost predicate KindsOk(s: State) {
    && |s.kinds| == |s.owner| == s.reserved
    && forall p: nat, j: nat :: p < |s.producers| && HeldBy(s, j, p) && j < s.reserved ==>
         s.kinds[j] == s.producers[p].call.kind
  }

  ghost predicate AllTold(s: State)
    requires |s.kinds| == |s.owner| == s.reserved
  {
    forall j: nat :: j in s.published && j < s.reserved ==>
      s.owner[j] < |s.producers| && (Told(s, j) || InHand(s.producers[s.owner[j]], j))
  }

  // The register holds the last value rung.
  ghost predicate RegisterOk(s: State) {
    |s.bells| > 0 ==> s.doorbell == U64(s.bells[|s.bells| - 1].index)
  }

  ghost predicate BellInv(s: State) {
    KindsOk(s) && AllTold(s) && RegisterOk(s)
  }

  lemma KindsStep(cfg: Config, s: State, a: Action)
    requires Inv(cfg, s) && Enabled(cfg, s, a) && KindsOk(s)
    ensures KindsOk(Next(cfg, s, a))
  {
    hide Contents, Window, Owned, Counted, Taken, Completions, BellsOk, Wrap, CopyOk, ClearOk, LoopOk, Admits, SlotIndex, WriteWord;
    var s' := Next(cfg, s, a);
    forall p: nat, j: nat | p < |s'.producers| && HeldBy(s', j, p) && j < s'.reserved
      ensures s'.kinds[j] == s'.producers[p].call.kind
    {
      if !s.producers[p].pc.Idle? { assert ProducerOk(cfg, s, p); }
    }
  }

  lemma ToldStays(s: State, s': State, j: nat)
    requires j < |s.owner| && j < |s.kinds| && Told(s, j)
    requires s.owner <= s'.owner && s.kinds <= s'.kinds && s.bells <= s'.bells
    ensures Told(s', j)
  {
    var b :| b in s.bells && b.producer == s.owner[j] && Tells(b, s.kinds[j], j);
    assert b in s'.bells;
  }

  // The bell at the end of a chunk covers all of the chunk.
  lemma BellCoversChunk(cfg: Config, s: State, p: nat, j: nat)
    requires Inv(cfg, s) && Enabled(cfg, s, RingBell(p)) && InHand(s.producers[p], j)
    ensures Tells(Bell(p, BellIndex(s.producers[p])), s.producers[p].call.kind, j)
    ensures HeldBy(s, j, p)
  {
    assert ProducerOk(cfg, s, p);
  }

  lemma RingTells(cfg: Config, s: State, p: nat, j: nat)
    requires Inv(cfg, s) && Enabled(cfg, s, RingBell(p)) && KindsOk(s)
    requires j < s.reserved && s.owner[j] == p && InHand(s.producers[p], j)
    ensures |Next(cfg, s, RingBell(p)).kinds| == |Next(cfg, s, RingBell(p)).owner| == s.reserved
    ensures Told(Next(cfg, s, RingBell(p)), j)
  {
    hide Inv;
    BellCoversChunk(cfg, s, p, j);
    assert s.kinds[j] == s.producers[p].call.kind;
    assert Bell(p, BellIndex(s.producers[p])) in Next(cfg, s, RingBell(p)).bells;
  }

  // What is in hand stays so until the thread rings.
  lemma InHandStays(cfg: Config, s: State, a: Action, p: nat, j: nat)
    requires Inv(cfg, s) && Enabled(cfg, s, a) && p < |s.producers| && InHand(s.producers[p], j) && a != RingBell(p)
    ensures p < |Next(cfg, s, a).producers| && InHand(Next(cfg, s, a).producers[p], j)
  {
    hide Inv, WriteWord, Block, StartCall;
  }

  lemma StorePutsInHand(cfg: Config, s: State, p: nat)
    requires Inv(cfg, s) && Enabled(cfg, s, StoreHeader(p))
    ensures p < |Next(cfg, s, StoreHeader(p)).producers|
    ensures InHand(Next(cfg, s, StoreHeader(p)).producers[p], s.producers[p].next)
    ensures s.producers[p].next < s.reserved && s.owner[s.producers[p].next] == p
  {
    WriterInWindow(cfg, s, p);
  }

  lemma HistoryGrows(cfg: Config, s: State, a: Action)
    requires Enabled(cfg, s, a)
    ensures var s' := Next(cfg, s, a);
            && s.owner <= s'.owner && s.kinds <= s'.kinds && s.bells <= s'.bells
            && |s'.producers| == |s.producers|
            && s'.published == s.published + if a.StoreHeader? then {s.producers[a.p].next} else {}
  {
  }

  lemma AllToldStep(cfg: Config, s: State, a: Action)
    requires Inv(cfg, s) && Enabled(cfg, s, a) && KindsOk(s) && AllTold(s) && KindsOk(Next(cfg, s, a))
    ensures AllTold(Next(cfg, s, a))
  {
    hide Next, Enabled, Inv, Told, InHand;
    var s' := Next(cfg, s, a);
    HistoryGrows(cfg, s, a);
    PublishedReserved(cfg, s);
    forall j: nat | j in s'.published && j < s'.reserved
      ensures s'.owner[j] < |s'.producers| && (Told(s', j) || InHand(s'.producers[s'.owner[j]], j))
    {
      if j in s.published {
        if Told(s, j) {
          ToldStays(s, s', j);
        } else if a == RingBell(s.owner[j]) {
          RingTells(cfg, s, s.owner[j], j);
        } else {
          InHandStays(cfg, s, a, s.owner[j], j);
        }
      } else {
        StorePutsInHand(cfg, s, a.p);
      }
    }
  }

  lemma PublishedReserved(cfg: Config, s: State)
    requires Inv(cfg, s)
    ensures forall j :: j in s.published ==> j < s.reserved
  {
  }

  lemma RegisterStep(cfg: Config, s: State, a: Action)
    requires Enabled(cfg, s, a) && RegisterOk(s)
    ensures RegisterOk(Next(cfg, s, a))
  {
  }

  // The doorbell's invariant holds in every state of every run that never over-admits.
  lemma {:induction false} BellInvHolds(cfg: Config, states: seq<State>, actions: seq<Action>, n: nat)
    requires ConfigOk(cfg) && IsRun(cfg, states, actions) && Init(cfg, states[0])
    requires NeverOverAdmits(cfg, states, actions) && n <= |actions|
    ensures Inv(cfg, states[n]) && BellInv(states[n])
  {
    hide Next, Enabled, Inv;
    RunKeeps(cfg, states, actions, n);
    if n > 0 {
      BellInvHolds(cfg, states, actions, n - 1);
      KindsStep(cfg, states[n - 1], actions[n - 1]);
      AllToldStep(cfg, states[n - 1], actions[n - 1]);
      RegisterStep(cfg, states[n - 1], actions[n - 1]);
    }
  }

  // The doorbell law: on every run, an index once published has been rung by its own thread (a batch
  // rings past it, a single packet or a dispatch rings it), or that thread is still in the very
  // chunk that holds it, on its way to the doorbell.
  lemma EveryPublishedIndexIsRung(cfg: Config, states: seq<State>, actions: seq<Action>, n: nat, j: nat)
    requires ConfigOk(cfg) && IsRun(cfg, states, actions) && Init(cfg, states[0])
    requires NeverOverAdmits(cfg, states, actions) && n <= |actions| && j in states[n].published
    ensures var s := states[n];
            && j < |s.owner| == |s.kinds| && s.owner[j] < |s.producers|
            && ((exists b :: b in s.bells && b.producer == s.owner[j] && (if s.kinds[j].Batch? then j < b.index else b.index == j))
                || var q := s.producers[s.owner[j]];
                   (q.pc.Copy? || q.pc.Ring?) && q.next <= j + q.i && j < q.next)
  {
    hide Next, Enabled, Inv;
    BellInvHolds(cfg, states, actions, n);
    PublishedReserved(cfg, states[n]);
    var s := states[n];
    if Told(s, j) {
      var b :| b in s.bells && b.producer == s.owner[j] && Tells(b, s.kinds[j], j);
    }
  }

  // So nobody waits on a processor it has not told: a dispatch waiting for completion has rung its
  // packet, a batch waiting for room has rung past all it has published, and a thread between calls
  // has rung everything it ever published.
  lemma NobodyWaitsUntold(cfg: Config, s: State, p: nat)
    requires Inv(cfg, s) && BellInv(s) && p < |s.producers|
    ensures s.producers[p].pc.Await? ==> Bell(p, s.producers[p].base) in s.bells
    ensures s.producers[p].pc.Spin? && s.producers[p].base < s.producers[p].next ==>
              Bell(p, s.producers[p].next) in s.bells
    ensures s.producers[p].pc.Idle? || s.producers[p].pc.Spin? || s.producers[p].pc.Await? ==>
              forall j: nat :: j in s.published && j < s.reserved && s.owner[j] == p ==> Told(s, j)
  {
    hide Contents, Owned, Counted, Taken, Completions, CopyOk, ClearOk;
    var q := s.producers[p];
    assert ProducerOk(cfg, s, p);
    if q.pc.Await? {
      assert HeldBy(s, q.base, p) && q.base in s.published;
      assert Told(s, q.base);
    } else if q.pc.Spin? && q.base < q.next {
      var j := q.next - 1;
      assert HeldBy(s, j, p) && j in s.published;
      assert Told(s, j);
      var b :| b in s.bells && b.producer == p && Tells(b, s.kinds[j], j);
      var i :| 0 <= i < |s.bells| && s.bells[i] == b;
      assert BellBelow(s, s.bells[i]);
      assert b == Bell(p, q.next);
    }
  }
}
