// The inductive invariant of the ring protocol and its preservation by every step that does not
// over-admit.
module RingInvariant {
  import opened Words
  import opened Sums
  import opened RingProtocol

  function Pending(q: Producer): nat {
    if q.pc.Idle? || End(q) < q.next then 0 else End(q) - q.next
  }

  function Pendings(ps: seq<Producer>): (xs: seq<nat>)
    ensures |xs| == |ps|
  {
    seq(|ps|, p requires 0 <= p < |ps| => Pending(ps[p]))
  }

  ghost predicate Shape(cfg: Config, s: State) {
    && ConfigOk(cfg)
    && |s.slots| == cfg.size && |s.producers| == cfg.producers
    && |s.log| == s.reserved && |s.owner| == s.reserved
    && (forall x :: 0 <= x < |s.slots| ==> |s.slots[x].body| == cfg.words)
    && (forall j :: 0 <= j < |s.log| ==> PacketOk(cfg, s.log[j]))
  }

  // Index j has been published and the processor has not yet marked its slot.
  predicate Live(s: State, j: nat) {
    j in s.published && s.consumed <= j && !(s.processor.Retire? && j == s.consumed)
  }

  // Published indices lie below the read index plus one turn; everything consumed was published.
  ghost predicate Window(cfg: Config, s: State) {
    && s.consumed <= s.reserved
    && (forall j :: j in s.published ==> j < s.reserved && j < s.consumed + cfg.size)
    && (forall j :: 0 <= j < s.consumed ==> j in s.published)
    && (s.processor.Retire? ==> s.consumed in s.published)
  }

  // A slot is ready exactly when the index it stands for is live, and then it holds that index's
  // whole packet.
  ghost predicate Contents(cfg: Config, s: State)
    requires Shape(cfg, s)
  {
    forall j: nat :: s.consumed <= j < s.consumed + cfg.size ==>
      && (Live(s, j) <==> s.slots[Wrap(cfg.size, j)].header in cfg.ready)
      && (Live(s, j) && j < s.reserved ==> s.slots[Wrap(cfg.size, j)] == s.log[j])
  }

  // An unpublished index belongs to a thread whose current call covers it.
  predicate HeldBy(s: State, j: nat, p: nat) {
    p < |s.producers| && !s.producers[p].pc.Idle? && s.producers[p].base <= j < End(s.producers[p])
  }

  ghost predicate Owned(s: State)
    requires |s.owner| == s.reserved
  {
    forall j: nat :: j < s.reserved && j !in s.published ==> HeldBy(s, j, s.owner[j])
  }

  // The block a call reserved: its owner, its contents, and how far it has been published.
  ghost predicate BlockHeld(cfg: Config, s: State, p: nat)
    requires Shape(cfg, s) && p < |s.producers|
  {
    var q := s.producers[p];
    && q.base <= q.next <= End(q) <= s.reserved
    && (forall j: nat :: q.base <= j < End(q) ==>
          && s.owner[j] == p
          && s.log[j] == q.call.packets[Wrap(cfg.size, j - q.base)]
          && (j in s.published <==> j < q.next))
  }

  // The counters of the chunk loop.
  ghost predicate LoopOk(cfg: Config, s: State, q: Producer)
    requires cfg.size >= 1
  {
    && CallOk(cfg, q.call)
    && q.base + q.i <= q.next
    && (q.pc.Await? || (
          && q.next - q.i + q.remaining == End(q)
          && q.chunk == Min(q.remaining, cfg.size) && 1 <= q.chunk && q.i <= q.chunk
          && Wrap(cfg.size, q.next - q.i - q.base) == 0))
    && (q.pc.Spin? ==> q.i == 0)
    && (q.pc.Zero? || q.pc.Copy? ==> q.i < q.chunk && q.next - q.i + q.chunk <= s.consumed + cfg.size)
    && (q.pc.Ring? ==> q.i == q.chunk)
    && (q.pc.Zero? || q.pc.Await? ==> q.call.kind.Dispatch?)
    && (q.pc.Await? ==> q.next == End(q))
  }

  // memset has cleared these words of the slot; word number `words` is the header.
  predicate ClearedWords(cfg: Config, slot: Packet, cleared: set<nat>) {
    && |slot.body| == cfg.words
    && forall k :: k in cleared ==> k <= cfg.words && (if k < cfg.words then slot.body[k] == 0 else slot.header == 0)
  }

  // What a dispatch that has started to copy finds in the words it has not reached.
  ghost predicate ClearOk(cfg: Config, s: State, q: Producer)
    requires Shape(cfg, s)
  {
    q.pc.Copy? && q.call.kind.Dispatch? ==>
      && s.slots[Wrap(cfg.size, q.next)].header == 0
      && forall k :: 0 <= k < cfg.words && k !in q.pc.copied ==> s.slots[Wrap(cfg.size, q.next)].body[k] == 0
  }

  // The words written so far are the packet's, or zero.
  ghost predicate CopyOk(cfg: Config, s: State, q: Producer)
    requires Shape(cfg, s)
  {
    match q.pc
    case Copy(copied) =>
      forall k :: k in copied ==>
        && k < cfg.words && q.i < |q.call.packets| && k < |q.call.packets[q.i].body|
        && s.slots[Wrap(cfg.size, q.next)].body[k] == q.call.packets[q.i].body[k]
    case Zero(cleared) => ClearedWords(cfg, s.slots[Wrap(cfg.size, q.next)], cleared)
    case _ => true
  }

  ghost predicate ProducerOk(cfg: Config, s: State, p: nat)
    requires Shape(cfg, s) && p < |s.producers|
  {
    var q := s.producers[p];
    !q.pc.Idle? ==> BlockHeld(cfg, s, p) && LoopOk(cfg, s, q) && CopyOk(cfg, s, q) && ClearOk(cfg, s, q)
  }

  ghost predicate Producers(cfg: Config, s: State)
    requires Shape(cfg, s)
  {
    forall p: nat :: p < |s.producers| ==> ProducerOk(cfg, s, p)
  }

  // Conservation: every reserved index is published or still pending in one call.
  ghost predicate Counted(s: State) {
    |s.published| + Sum(Pendings(s.producers)) == s.reserved
  }

  // The processor has read exactly the log, in order.
  ghost predicate Taken(s: State) {
    && |s.taken| == s.consumed + (if s.processor.Retire? then 1 else 0) <= |s.log|
    && s.taken == s.log[..|s.taken|]
  }

  ghost predicate Completions(s: State) {
    && (forall j :: j in s.completed ==> j < |s.taken|)
    && s.returned <= s.completed
  }

  // A past doorbell value never passes its thread's write index, nor the value rung next.
  predicate BellBelow(s: State, b: Bell) {
    b.producer < |s.producers| ==>
      var q := s.producers[b.producer];
      && b.index <= s.reserved
      && (!q.pc.Idle? ==> b.index <= q.next)
      && (q.pc.Ring? ==> b.index <= BellIndex(q))
  }

  // Each thread's doorbell values never decrease.
  ghost predicate BellsOrdered(bells: seq<Bell>) {
    forall i, j :: 0 <= i < j < |bells| && bells[i].producer == bells[j].producer ==>
      bells[i].index <= bells[j].index
  }

  ghost predicate BellsOk(s: State) {
    && BellsOrdered(s.bells)
    && forall i :: 0 <= i < |s.bells| ==> BellBelow(s, s.bells[i])
  }

  ghost predicate Inv(cfg: Config, s: State) {
    && Shape(cfg, s) && Window(cfg, s) && Contents(cfg, s) && Owned(s) && Producers(cfg, s)
    && Counted(s) && Taken(s) && Completions(s) && BellsOk(s)
  }

  // ----- consequences used by every step

  lemma SlotIndexIsWrap(cfg: Config, kind: Kind, index: nat)
    requires ConfigOk(cfg)
    ensures SlotIndex(cfg, kind, index) == Wrap(cfg.size, index)
  {
    MaskedSlotIsWrap(cfg.size, index);
    ModuloSlotIsWrap(cfg.size, index);
  }

  // Outstanding reservations fit in 64 bits: at most one turn is published, and each of the
  // threads holds fewer than 2^32 unpublished indices.
  lemma OutstandingBound(cfg: Config, s: State)
    requires Inv(cfg, s)
    ensures s.reserved - s.consumed < TWO_64
  {
    BelowBound(s.published, s.consumed + cfg.size);
    forall p | 0 <= p < |s.producers|
      ensures Pendings(s.producers)[p] <= 0xFFFF_FFFF
    {
      assert ProducerOk(cfg, s, p);
    }
    SumAtMost(Pendings(s.producers), 0xFFFF_FFFF);
    assert |s.producers| * 0xFFFF_FFFF <= 0xFFFF_FFFE * 0xFFFF_FFFF;
  }

  // The wait loops' 64-bit subtractions give the true distances.
  lemma GuardsSeeTrueDistance(cfg: Config, s: State, p: nat)
    requires Inv(cfg, s) && p < |s.producers| && s.producers[p].pc.Spin?
    ensures var q := s.producers[p];
            && s.consumed <= q.next && q.next + q.chunk <= s.reserved
            && U64(U64(q.next) - U64(s.consumed)) == q.next - s.consumed
            && U64(U64(q.next) + q.chunk - U64(s.consumed)) == q.next + q.chunk - s.consumed
  {
    var q := s.producers[p];
    assert ProducerOk(cfg, s, p);
    assert q.next !in s.published;
    OutstandingBound(cfg, s);
    DistanceSurvivesWrap(q.next, s.consumed, 0);
    DistanceSurvivesWrap(q.next, s.consumed, q.chunk);
  }

  // While a thread writes, its index is inside the window and unpublished, so its slot is not
  // ready and is no other thread's slot.
  lemma WriterInWindow(cfg: Config, s: State, p: nat)
    requires Inv(cfg, s) && p < |s.producers|
    requires s.producers[p].pc.Zero? || s.producers[p].pc.Copy?
    ensures var q := s.producers[p];
            && s.consumed <= q.next < s.consumed + cfg.size && q.next < s.reserved
            && q.next !in s.published && s.owner[q.next] == p
            && q.i < |q.call.packets| && s.log[q.next] == q.call.packets[q.i]
            && s.slots[Wrap(cfg.size, q.next)].header !in cfg.ready
  {
    var q := s.producers[p];
    assert ProducerOk(cfg, s, p);
    WrapOffset(cfg.size, q.next - q.i - q.base, q.i);
    assert q.next < End(q);
    assert q.next !in s.published;
    assert !Live(s, q.next);
  }

  lemma WritersDistinct(cfg: Config, s: State, p: nat, r: nat)
    requires Inv(cfg, s) && p < |s.producers| && r < |s.producers| && p != r
    requires s.producers[p].pc.Zero? || s.producers[p].pc.Copy?
    requires s.producers[r].pc.Zero? || s.producers[r].pc.Copy?
    ensures Wrap(cfg.size, s.producers[p].next) != Wrap(cfg.size, s.producers[r].next)
  {
    WriterInWindow(cfg, s, p);
    WriterInWindow(cfg, s, r);
    WindowDistinct(cfg.size, s.consumed, s.producers[p].next);
  }

  lemma PendingsUpdate(ps: seq<Producer>, p: nat, q: Producer)
    requires p < |ps|
    ensures Sum(Pendings(ps[p := q])) + Pending(ps[p]) == Sum(Pendings(ps)) + Pending(q)
  {
    assert Pendings(ps[p := q]) == Pendings(ps)[p := Pending(q)];
    SumUpdate(Pendings(ps), p, Pending(q));
  }

  // A thread that does not move keeps its part of the invariant when nobody publishes into its
  // block or writes the slot it is filling.
  lemma OtherKeeps(cfg: Config, s: State, s': State, r: nat)
    requires Shape(cfg, s) && Shape(cfg, s') && r < |s.producers| && ProducerOk(cfg, s, r)
    requires s'.producers[r] == s.producers[r]
    requires s.log <= s'.log && s.owner <= s'.owner && s.consumed <= s'.consumed
    requires forall j: nat :: j < s.reserved && s.owner[j] == r ==> (j in s'.published <==> j in s.published)
    requires s.producers[r].pc.Zero? || s.producers[r].pc.Copy? ==>
               s'.slots[Wrap(cfg.size, s.producers[r].next)] == s.slots[Wrap(cfg.size, s.producers[r].next)]
    ensures ProducerOk(cfg, s', r)
  {
    var q := s.producers[r];
    if !q.pc.Idle? {
      assert BlockHeld(cfg, s', r) by {
        forall j: nat | q.base <= j < End(q)
          ensures s'.owner[j] == r
          ensures s'.log[j] == q.call.packets[Wrap(cfg.size, j - q.base)]
          ensures j in s'.published <==> j < q.next
        {
          assert s'.owner[j] == s.owner[j] && s'.log[j] == s.log[j];
        }
      }
    }
  }

  // Thread p moves inside its call and may have written the slot it is filling.
  lemma MoveKeepsOthers(cfg: Config, s: State, s': State, p: nat)
    requires Inv(cfg, s) && Shape(cfg, s') && p < |s.producers|
    requires s.producers == s'.producers[p := s.producers[p]]
    requires s.log == s'.log && s.owner == s'.owner && s.published == s'.published && s.consumed == s'.consumed
    requires s'.slots == s.slots || (
      && (s.producers[p].pc.Zero? || s.producers[p].pc.Copy?)
      && s'.slots == s.slots[Wrap(cfg.size, s.producers[p].next) := s'.slots[Wrap(cfg.size, s.producers[p].next)]])
    ensures forall r: nat :: r < |s.producers| && r != p ==> ProducerOk(cfg, s', r)
  {
    forall r: nat | r < |s.producers| && r != p
      ensures ProducerOk(cfg, s', r)
    {
      assert ProducerOk(cfg, s, r);
      assert s'.producers[r] == s.producers[r];
      if s'.slots != s.slots && (s.producers[r].pc.Zero? || s.producers[r].pc.Copy?) { WritersDistinct(cfg, s, p, r); }
      OtherKeeps(cfg, s, s', r);
    }
  }

  // Everything but Contents and p's own part survives a move inside a call.
  lemma MoveKeeps(cfg: Config, s: State, p: nat, q': Producer, slots': seq<Packet>)
    requires Inv(cfg, s) && p < |s.producers|
    requires !s.producers[p].pc.Idle? && !q'.pc.Idle? && !q'.pc.Ring? && q' == s.producers[p].(pc := q'.pc)
    requires |slots'| == cfg.size
    requires slots' == s.slots || (
      && (s.producers[p].pc.Zero? || s.producers[p].pc.Copy?)
      && slots' == s.slots[Wrap(cfg.size, q'.next) := slots'[Wrap(cfg.size, q'.next)]])
    requires Shape(cfg, WithProducer(s, p, q').(slots := slots'))
    requires Contents(cfg, WithProducer(s, p, q').(slots := slots'))
    requires LoopOk(cfg, WithProducer(s, p, q').(slots := slots'), q')
    requires CopyOk(cfg, WithProducer(s, p, q').(slots := slots'), q')
    requires ClearOk(cfg, WithProducer(s, p, q').(slots := slots'), q')
    ensures Inv(cfg, WithProducer(s, p, q').(slots := slots'))
  {
    hide Wrap, BlockHeld;
    var s' := WithProducer(s, p, q').(slots := slots');
    MoveKeepsOthers(cfg, s, s', p);
    assert ProducerOk(cfg, s, p);
    SameBlock(cfg, s, s', p);
    PendingsUpdate(s.producers, p, q');
    OwnedUnder(s, s', p);
    BellsUnder(s, s', p);
  }

  lemma SameBlock(cfg: Config, s: State, s': State, p: nat)
    requires Shape(cfg, s) && Shape(cfg, s') && p < |s.producers| && BlockHeld(cfg, s, p)
    requires s.log == s'.log && s.owner == s'.owner && s.published == s'.published
    requires s'.producers[p].call == s.producers[p].call
    requires s'.producers[p].base == s.producers[p].base && s'.producers[p].next == s.producers[p].next
    ensures BlockHeld(cfg, s', p)
  {
  }

  lemma OwnedUnder(s: State, s': State, p: nat)
    requires |s.owner| == s.reserved && Owned(s) && p < |s.producers|
    requires s'.owner == s.owner && s'.reserved == s.reserved && s.published <= s'.published
    requires |s'.producers| == |s.producers| && s'.producers == s.producers[p := s'.producers[p]]
    requires forall j: nat :: HeldBy(s, j, p) ==> HeldBy(s', j, p) || j in s'.published
    ensures Owned(s')
  {
  }

  lemma BellsUnder(s: State, s': State, p: nat)
    requires BellsOk(s) && p < |s.producers|
    requires s'.bells == s.bells && s.reserved <= s'.reserved
    requires |s'.producers| == |s.producers| && s'.producers == s.producers[p := s'.producers[p]]
    requires forall b: Bell :: b.producer == p && BellBelow(s, b) ==> BellBelow(s', b)
    ensures BellsOk(s')
  {
  }

  // ----- one lemma per step

  lemma InitKeeps(cfg: Config, s: State)
    requires ConfigOk(cfg) && Init(cfg, s)
    ensures Inv(cfg, s)
  {
    SumZero(Pendings(s.producers));
  }

  lemma ReserveKeeps(cfg: Config, s: State, p: nat, c: Call)
    requires Inv(cfg, s) && Enabled(cfg, s, Reserve(p, c))
    ensures Inv(cfg, Next(cfg, s, Reserve(p, c)))
  {
    hide BlockHeld, LoopOk, CopyOk;
    var s' := Next(cfg, s, Reserve(p, c));
    ReserveKeepsProducers(cfg, s, p, c);
    PendingsUpdate(s.producers, p, s'.producers[p]);
    assert Owned(s') by {
      forall j: nat | j < s'.reserved && j !in s'.published
        ensures HeldBy(s', j, s'.owner[j])
      {
        if j < s.reserved { assert HeldBy(s, j, s.owner[j]); }
      }
    }
    assert Contents(cfg, s') by {
      forall j: nat | s'.consumed <= j < s'.consumed + cfg.size
        ensures Live(s', j) <==> s'.slots[Wrap(cfg.size, j)].header in cfg.ready
        ensures Live(s', j) && j < s'.reserved ==> s'.slots[Wrap(cfg.size, j)] == s'.log[j]
      {
        assert Live(s', j) == Live(s, j);
      }
    }
    assert s'.taken == s'.log[..|s'.taken|];
    BellsUnder(s, s', p);
  }

  lemma ReserveKeepsProducers(cfg: Config, s: State, p: nat, c: Call)
    requires Inv(cfg, s) && Enabled(cfg, s, Reserve(p, c))
    ensures Shape(cfg, Next(cfg, s, Reserve(p, c))) && Producers(cfg, Next(cfg, s, Reserve(p, c)))
  {
    var s' := Next(cfg, s, Reserve(p, c));
    var q' := s'.producers[p];
    assert s.log <= s'.log && s.owner <= s'.owner;
    assert Shape(cfg, s');
    forall r: nat | r < |s'.producers|
      ensures ProducerOk(cfg, s', r)
    {
      if r == p {
        assert BlockHeld(cfg, s', p);
        assert LoopOk(cfg, s', q');
      } else {
        assert ProducerOk(cfg, s, r);
        OtherKeeps(cfg, s, s', r);
      }
    }
  }

  // Passing the wait loop without over-admitting means the whole chunk fits behind the read index.
  lemma AdmitMeansRoom(cfg: Config, s: State, p: nat)
    requires Inv(cfg, s) && Enabled(cfg, s, Admit(p)) && !OverAdmits(cfg, s, Admit(p))
    ensures s.producers[p].next + s.producers[p].chunk <= s.consumed + cfg.size
  {
    assert ProducerOk(cfg, s, p);
    GuardsSeeTrueDistance(cfg, s, p);
  }

  lemma AdmitKeeps(cfg: Config, s: State, p: nat)
    requires Inv(cfg, s) && Enabled(cfg, s, Admit(p)) && !OverAdmits(cfg, s, Admit(p))
    ensures Inv(cfg, Next(cfg, s, Admit(p)))
  {
    hide Owned, Counted, Taken, Completions, BellsOk, Wrap, Contents, BlockHeld;
    var q' := AfterAdmit(s.producers[p]);
    var s' := Next(cfg, s, Admit(p));
    assert ProducerOk(cfg, s, p);
    AdmitMeansRoom(cfg, s, p);
    SameContents(cfg, s, s');
    MoveKeeps(cfg, s, p, q', s.slots);
  }

  lemma SameContents(cfg: Config, s: State, s': State)
    requires Shape(cfg, s) && Shape(cfg, s') && Contents(cfg, s)
    requires s' == s.(producers := s'.producers, doorbell := s'.doorbell, bells := s'.bells, returned := s'.returned)
    ensures Contents(cfg, s')
  {
  }

  // Writing one word into the own slot, while the header stays not ready.
  lemma WriteKeeps(cfg: Config, s: State, p: nat, q': Producer, k: nat, v: nat)
    requires Inv(cfg, s) && p < |s.producers|
    requires s.producers[p].pc.Zero? || s.producers[p].pc.Copy?
    requires q' == s.producers[p].(pc := q'.pc)
    requires q'.pc.Zero? <==> s.producers[p].pc.Zero?
    requires q'.pc.Copy? <==> s.producers[p].pc.Copy?
    requires k <= cfg.words && (k == cfg.words ==> v !in cfg.ready)
    requires CopyOk(cfg, s.(slots := WriteWord(cfg, s.slots, Wrap(cfg.size, q'.next), k, v)), q')
    requires ClearOk(cfg, s.(slots := WriteWord(cfg, s.slots, Wrap(cfg.size, q'.next), k, v)), q')
    ensures Inv(cfg, WithProducer(s, p, q').(slots := WriteWord(cfg, s.slots, Wrap(cfg.size, q'.next), k, v)))
  {
    hide Owned, Counted, Taken, Completions, BellsOk, BlockHeld;
    var x := Wrap(cfg.size, q'.next);
    var s' := WithProducer(s, p, q').(slots := WriteWord(cfg, s.slots, x, k, v));
    WriterInWindow(cfg, s, p);
    WindowDistinct(cfg.size, s.consumed, q'.next);
    assert ProducerOk(cfg, s, p);
    assert Contents(cfg, s') by {
      forall j: nat | s'.consumed <= j < s'.consumed + cfg.size
        ensures Live(s', j) <==> s'.slots[Wrap(cfg.size, j)].header in cfg.ready
        ensures Live(s', j) && j < s'.reserved ==> s'.slots[Wrap(cfg.size, j)] == s'.log[j]
      {
        assert Live(s', j) == Live(s, j);
        if j == q'.next { assert !Live(s, j); }
      }
    }
    MoveKeeps(cfg, s, p, q', s'.slots);
  }

  lemma ZeroWordKeeps(cfg: Config, s: State, p: nat, k: nat)
    requires Inv(cfg, s) && Enabled(cfg, s, ZeroWord(p, k))
    ensures Inv(cfg, Next(cfg, s, ZeroWord(p, k)))
  {
    var q := s.producers[p];
    assert ProducerOk(cfg, s, p);
    SlotIndexIsWrap(cfg, q.call.kind, q.next);
    WriteKeeps(cfg, s, p, q.(pc := Zero(q.pc.cleared + {k})), k, 0);
  }

  // The memset is over only when the whole slot is zero.
  lemma SlotCleared(cfg: Config, s: State, p: nat)
    requires Inv(cfg, s) && Enabled(cfg, s, EndZero(p))
    ensures var slot := s.slots[Wrap(cfg.size, s.producers[p].next)];
            slot.header == 0 && |slot.body| == cfg.words && forall k :: 0 <= k < cfg.words ==> slot.body[k] == 0
  {
    assert ProducerOk(cfg, s, p);
    var cleared := s.producers[p].pc.cleared;
    assert cfg.words in cleared;
  }

  lemma EndZeroKeeps(cfg: Config, s: State, p: nat)
    requires Inv(cfg, s) && Enabled(cfg, s, EndZero(p))
    ensures Inv(cfg, Next(cfg, s, EndZero(p)))
  {
    hide Wrap, Contents, BlockHeld, Owned, Counted, BellsOk;
    var s' := Next(cfg, s, EndZero(p));
    assert ProducerOk(cfg, s, p);
    SlotCleared(cfg, s, p);
    SameContents(cfg, s, s');
    MoveKeeps(cfg, s, p, s'.producers[p], s.slots);
  }

  lemma CopyWordKeeps(cfg: Config, s: State, p: nat, k: nat)
    requires Inv(cfg, s) && Enabled(cfg, s, CopyWord(p, k))
    ensures Inv(cfg, Next(cfg, s, CopyWord(p, k)))
  {
    var q := s.producers[p];
    assert ProducerOk(cfg, s, p);
    SlotIndexIsWrap(cfg, q.call.kind, q.next);
    WriteKeeps(cfg, s, p, q.(pc := Copy(q.pc.copied + {k})), k, q.call.packets[q.i].body[k]);
  }

  // Storing the header publishes the index with its whole packet.
  lemma StoreFillsSlot(cfg: Config, s: State, p: nat)
    requires Inv(cfg, s) && Enabled(cfg, s, StoreHeader(p))
    ensures var q := s.producers[p];
            && SlotIndex(cfg, q.call.kind, q.next) == Wrap(cfg.size, q.next)
            && q.next < s.reserved
            && Next(cfg, s, StoreHeader(p)).slots == s.slots[Wrap(cfg.size, q.next) := s.log[q.next]]
            && PacketOk(cfg, s.log[q.next])
  {
    var q := s.producers[p];
    assert ProducerOk(cfg, s, p);
    WriterInWindow(cfg, s, p);
    SlotIndexIsWrap(cfg, q.call.kind, q.next);
    var x := Wrap(cfg.size, q.next);
    assert s.slots[x].body == q.call.packets[q.i].body;
  }

  // The publishing thread's own part: one more index of its block is published.
  lemma StoreKeepsBlock(cfg: Config, s: State, s': State, p: nat)
    requires Shape(cfg, s) && Shape(cfg, s') && p < |s.producers|
    requires BlockHeld(cfg, s, p) && s.producers[p].next < End(s.producers[p])
    requires s'.log == s.log && s'.owner == s.owner
    requires s'.published == s.published + {s.producers[p].next}
    requires s'.producers[p] == AfterStore(s.producers[p])
    ensures BlockHeld(cfg, s', p)
  {
  }

  lemma StoreKeepsLoop(cfg: Config, s: State, s': State, q: Producer)
    requires cfg.size >= 1 && LoopOk(cfg, s, q) && q.pc.Copy?
    requires s'.consumed == s.consumed
    ensures LoopOk(cfg, s', AfterStore(q)) && q.next < End(q)
    ensures q.call.kind.Dispatch? ==> AfterStore(q).pc.Ring?
  {
  }

  lemma StoreKeepsOwn(cfg: Config, s: State, p: nat)
    requires Inv(cfg, s) && Enabled(cfg, s, StoreHeader(p))
    requires Shape(cfg, Next(cfg, s, StoreHeader(p)))
    ensures ProducerOk(cfg, Next(cfg, s, StoreHeader(p)), p)
  {
    hide Contents, Owned, Counted, Taken, Completions, BellsOk, Wrap, LoopOk, BlockHeld;
    var q := s.producers[p];
    var s' := Next(cfg, s, StoreHeader(p));
    assert ProducerOk(cfg, s, p);
    StoreKeepsLoop(cfg, s, s', q);
    StoreKeepsBlock(cfg, s, s', p);
  }

  lemma StoreKeepsProducers(cfg: Config, s: State, p: nat)
    requires Inv(cfg, s) && Enabled(cfg, s, StoreHeader(p))
    requires Shape(cfg, Next(cfg, s, StoreHeader(p)))
    ensures Producers(cfg, Next(cfg, s, StoreHeader(p)))
  {
    hide Contents, Owned, Counted, Taken, Completions, BellsOk, Wrap, LoopOk, BlockHeld, CopyOk, ClearOk, ProducerOk;
    var q := s.producers[p];
    var s' := Next(cfg, s, StoreHeader(p));
    StoreFillsSlot(cfg, s, p);
    WriterInWindow(cfg, s, p);
    StoreKeepsOwn(cfg, s, p);
    forall r: nat | r < |s'.producers| && r != p
      ensures ProducerOk(cfg, s', r)
    {
      assert ProducerOk(cfg, s, r);
      if s.producers[r].pc.Zero? || s.producers[r].pc.Copy? { WritersDistinct(cfg, s, p, r); }
      OtherKeeps(cfg, s, s', r);
    }
  }

  lemma StoreShape(cfg: Config, s: State, p: nat)
    requires Inv(cfg, s) && Enabled(cfg, s, StoreHeader(p))
    ensures Shape(cfg, Next(cfg, s, StoreHeader(p)))
  {
  }

  lemma StoreHeaderKeeps(cfg: Config, s: State, p: nat)
    requires Inv(cfg, s) && Enabled(cfg, s, StoreHeader(p))
    ensures Inv(cfg, Next(cfg, s, StoreHeader(p)))
  {
    hide Wrap, BlockHeld;
    var q := s.producers[p];
    var s' := Next(cfg, s, StoreHeader(p));
    StoreShape(cfg, s, p);
    StoreKeepsProducers(cfg, s, p);
    WriterInWindow(cfg, s, p);
    StoreCounts(cfg, s, p);
    StoreContents(cfg, s, p);
    OwnedUnder(s, s', p);
    BellsUnder(s, s', p);
  }

  lemma StoreCounts(cfg: Config, s: State, p: nat)
    requires Inv(cfg, s) && Enabled(cfg, s, StoreHeader(p))
    ensures Counted(Next(cfg, s, StoreHeader(p)))
    ensures !Next(cfg, s, StoreHeader(p)).producers[p].pc.Idle?
    ensures s.producers[p].next < End(s.producers[p])
    ensures var q' := Next(cfg, s, StoreHeader(p)).producers[p];
            q'.pc.Ring? ==> s.producers[p].next <= BellIndex(q')
  {
    hide Wrap, Contents, BellsOk, Owned;
    var q := s.producers[p];
    assert ProducerOk(cfg, s, p) && LoopOk(cfg, s, q);
    WriterInWindow(cfg, s, p);
    PendingsUpdate(s.producers, p, AfterStore(q));
  }

  lemma StoreContents(cfg: Config, s: State, p: nat)
    requires Inv(cfg, s) && Enabled(cfg, s, StoreHeader(p))
    requires Shape(cfg, Next(cfg, s, StoreHeader(p)))
    ensures Contents(cfg, Next(cfg, s, StoreHeader(p)))
  {
    var q := s.producers[p];
    var s' := Next(cfg, s, StoreHeader(p));
    StoreFillsSlot(cfg, s, p);
    WriterInWindow(cfg, s, p);
    WindowDistinct(cfg.size, s.consumed, q.next);
    forall j: nat | s'.consumed <= j < s'.consumed + cfg.size
      ensures Live(s', j) <==> s'.slots[Wrap(cfg.size, j)].header in cfg.ready
      ensures Live(s', j) && j < s'.reserved ==> s'.slots[Wrap(cfg.size, j)] == s'.log[j]
    {
      if j != q.next { assert Live(s', j) == Live(s, j); }
    }
  }

  lemma RingBellKeeps(cfg: Config, s: State, p: nat)
    requires Inv(cfg, s) && Enabled(cfg, s, RingBell(p))
    ensures Inv(cfg, Next(cfg, s, RingBell(p)))
  {
    hide Wrap, BlockHeld, LoopOk, CopyOk, HeldBy, BellBelow;
    var s' := Next(cfg, s, RingBell(p));
    RingBellOwn(cfg, s, p);
    MoveKeepsOthers(cfg, s, s', p);
    RingBellCounts(cfg, s, p);
    SameContents(cfg, s, s');
    RingBellBells(cfg, s, p);
  }

  lemma RingBellOwn(cfg: Config, s: State, p: nat)
    requires Inv(cfg, s) && Enabled(cfg, s, RingBell(p))
    ensures Shape(cfg, Next(cfg, s, RingBell(p))) && ProducerOk(cfg, Next(cfg, s, RingBell(p)), p)
  {
    hide Wrap, BlockHeld;
    var s' := Next(cfg, s, RingBell(p));
    assert ProducerOk(cfg, s, p);
    SameBlock(cfg, s, s', p);
    RingLoop(cfg, s, s.producers[p]);
  }

  // The next chunk starts on a turn boundary of the call's own offsets.
  lemma RingLoop(cfg: Config, s: State, q: Producer)
    requires cfg.size >= 1 && LoopOk(cfg, s, q) && q.pc.Ring?
    ensures !AfterRing(cfg, q).pc.Idle? ==> LoopOk(cfg, s, AfterRing(cfg, q))
    ensures AfterRing(cfg, q).pc.Idle? ==> q.next == End(q)
  {
  }

  lemma RingBellCounts(cfg: Config, s: State, p: nat)
    requires Inv(cfg, s) && Enabled(cfg, s, RingBell(p))
    ensures Counted(Next(cfg, s, RingBell(p))) && Owned(Next(cfg, s, RingBell(p)))
  {
    hide Wrap, Contents, BellsOk;
    var s' := Next(cfg, s, RingBell(p));
    assert ProducerOk(cfg, s, p);
    RingLoop(cfg, s, s.producers[p]);
    PendingsUpdate(s.producers, p, s'.producers[p]);
    OwnedUnder(s, s', p);
  }

  lemma RingBellBells(cfg: Config, s: State, p: nat)
    requires Inv(cfg, s) && Enabled(cfg, s, RingBell(p))
    ensures BellsOk(Next(cfg, s, RingBell(p)))
  {
    var q := s.producers[p];
    var s' := Next(cfg, s, RingBell(p));
    assert ProducerOk(cfg, s, p) && BlockHeld(cfg, s, p) && LoopOk(cfg, s, q);
    assert BellIndex(q) <= q.next;
    forall i | 0 <= i < |s'.bells|
      ensures BellBelow(s', s'.bells[i])
      ensures s'.bells[i].producer == p ==> s'.bells[i].index <= BellIndex(q)
    {
      if i < |s.bells| { assert BellBelow(s, s.bells[i]); }
    }
  }

  lemma ReturnKeeps(cfg: Config, s: State, p: nat)
    requires Inv(cfg, s) && Enabled(cfg, s, Return(p))
    ensures Inv(cfg, Next(cfg, s, Return(p)))
  {
    var s' := Next(cfg, s, Return(p));
    assert ProducerOk(cfg, s, p);
    MoveKeepsOthers(cfg, s, s', p);
    PendingsUpdate(s.producers, p, s'.producers[p]);
    SameContents(cfg, s, s');
    OwnedUnder(s, s', p);
    BellsUnder(s, s', p);
  }

  // The processor reads the packet of exactly the read index.
  lemma TakeReadsLog(cfg: Config, s: State)
    requires Inv(cfg, s) && Enabled(cfg, s, Take)
    ensures SlotIndex(cfg, Single, s.consumed) == Wrap(cfg.size, s.consumed)
    ensures s.consumed in s.published && s.consumed < s.reserved
    ensures s.slots[Wrap(cfg.size, s.consumed)] == s.log[s.consumed]
  {
    SlotIndexIsWrap(cfg, Single, s.consumed);
    assert Live(s, s.consumed);
  }

  lemma TakeKeeps(cfg: Config, s: State)
    requires Inv(cfg, s) && Enabled(cfg, s, Take)
    ensures Inv(cfg, Next(cfg, s, Take))
  {
    hide Contents;
    var s' := Next(cfg, s, Take);
    TakeReadsLog(cfg, s);
    TakeContents(cfg, s);
    forall r: nat | r < |s'.producers|
      ensures ProducerOk(cfg, s', r)
    {
      assert ProducerOk(cfg, s, r);
      if s.producers[r].pc.Zero? || s.producers[r].pc.Copy? { WriterInWindow(cfg, s, r); }
      OtherKeeps(cfg, s, s', r);
    }
    OwnedSame(s, s');
    assert s'.taken == s'.log[..|s'.taken|];
  }

  lemma TakeContents(cfg: Config, s: State)
    requires Inv(cfg, s) && Enabled(cfg, s, Take)
    ensures Shape(cfg, Next(cfg, s, Take)) && Contents(cfg, Next(cfg, s, Take))
  {
    var s' := Next(cfg, s, Take);
    TakeReadsLog(cfg, s);
    WindowDistinct(cfg.size, s.consumed, s.consumed);
    forall j: nat | s'.consumed <= j < s'.consumed + cfg.size
      ensures Live(s', j) <==> s'.slots[Wrap(cfg.size, j)].header in cfg.ready
      ensures Live(s', j) && j < s'.reserved ==> s'.slots[Wrap(cfg.size, j)] == s'.log[j]
    {
      if j != s.consumed { assert Live(s', j) == Live(s, j); }
    }
  }

  lemma OwnedSame(s: State, s': State)
    requires |s.owner| == s.reserved && Owned(s)
    requires s'.owner == s.owner && s'.reserved == s.reserved && s'.published == s.published
    requires s'.producers == s.producers
    ensures Owned(s')
  {
  }

  lemma AdvanceKeeps(cfg: Config, s: State)
    requires Inv(cfg, s) && Enabled(cfg, s, Advance)
    ensures Inv(cfg, Next(cfg, s, Advance))
  {
    var s' := Next(cfg, s, Advance);
    AdvanceContents(cfg, s);
    forall r: nat | r < |s'.producers|
      ensures ProducerOk(cfg, s', r)
    {
      assert ProducerOk(cfg, s, r);
      OtherKeeps(cfg, s, s', r);
    }
    OwnedSame(s, s');
  }

  // The window slides by one: the freed slot becomes that of index consumed + size.
  lemma AdvanceContents(cfg: Config, s: State)
    requires Inv(cfg, s) && Enabled(cfg, s, Advance)
    ensures Shape(cfg, Next(cfg, s, Advance)) && Contents(cfg, Next(cfg, s, Advance))
  {
  }

  lemma CompleteKeeps(cfg: Config, s: State, j: nat)
    requires Inv(cfg, s) && Enabled(cfg, s, Complete(j))
    ensures Inv(cfg, Next(cfg, s, Complete(j)))
  {
    hide BlockHeld, LoopOk, CopyOk;
    var s' := Next(cfg, s, Complete(j));
    forall r: nat | r < |s'.producers|
      ensures ProducerOk(cfg, s', r)
    {
      assert ProducerOk(cfg, s, r);
      OtherKeeps(cfg, s, s', r);
    }
  }

  lemma StepKeeps(cfg: Config, s: State, a: Action)
    requires Inv(cfg, s) && Enabled(cfg, s, a) && !OverAdmits(cfg, s, a)
    ensures Inv(cfg, Next(cfg, s, a))
  {
    hide *;
    match a
    case Reserve(p, c) => ReserveKeeps(cfg, s, p, c);
    case Admit(p) => AdmitKeeps(cfg, s, p);
    case ZeroWord(p, k) => ZeroWordKeeps(cfg, s, p, k);
    case EndZero(p) => EndZeroKeeps(cfg, s, p);
    case CopyWord(p, k) => CopyWordKeeps(cfg, s, p, k);
    case StoreHeader(p) => StoreHeaderKeeps(cfg, s, p);
    case RingBell(p) => RingBellKeeps(cfg, s, p);
    case Return(p) => ReturnKeeps(cfg, s, p);
    case Take => TakeKeeps(cfg, s);
    case Advance => AdvanceKeeps(cfg, s);
    case Complete(j) => CompleteKeeps(cfg, s, j);
  }

  // Every state of every run that never over-admits satisfies the invariant.
  lemma {:induction false} RunKeeps(cfg: Config, states: seq<State>, actions: seq<Action>, n: nat)
    requires ConfigOk(cfg) && IsRun(cfg, states, actions) && Init(cfg, states[0])
    requires NeverOverAdmits(cfg, states, actions)
    requires n <= |actions|
    ensures Inv(cfg, states[n])
  {
    if n == 0 {
      InitKeeps(cfg, states[0]);
    } else {
      RunKeeps(cfg, states, actions, n - 1);
      StepKeeps(cfg, states[n - 1], actions[n - 1]);
    }
  }
}
