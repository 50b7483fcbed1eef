// The AQL ring-buffer protocol of queue_utils.c and dispatch_utils.c as a step system: any number
// of producer threads share one ring, and one packet processor consumes it.
//
// Indices are unbounded naturals; a thread only ever sees their 64-bit value, so every guard, slot
// and doorbell value below is computed from U64 of the index. The fields from `log` on are history:
// no guard and no shared write reads them, except that a completion signal is zero exactly when its
// packet is in `completed`.
module RingProtocol {
  import opened Words

  // A packet is the 16-bit header and the body that follows it, cut into the words in which
  // memcpy or memset writes it.
  datatype Packet = Packet(header: nat, body: seq<nat>)

  // enqueue_dispatch_packet, enqueue_dispatch_packets and dispatch_kernel_1d_data.
  datatype Kind = Single | Batch | Dispatch

  datatype Call = Call(kind: Kind, packets: seq<Packet>)

  // size: ring size. words: body words per packet. ready: the headers the processor accepts.
  // invalid: the header it leaves behind. producers: number of threads.
  datatype Config = Config(size: nat, words: nat, ready: set<nat>, invalid: nat, producers: nat)

  predicate PacketOk(cfg: Config, p: Packet) {
    p.header in cfg.ready && |p.body| == cfg.words
  }

  ghost predicate ConfigOk(cfg: Config) {
    && PowerOfTwo(cfg.size) && 1 <= cfg.size < 0x1_0000_0000
    && 1 <= cfg.words
    && cfg.invalid !in cfg.ready
    && cfg.producers < 0xFFFF_FFFF
  }

  // A dispatch zeroes the header before it fills the packet, so it needs header 0 to mean
  // "not ready".
  predicate CallOk(cfg: Config, c: Call) {
    && 1 <= |c.packets| < 0x1_0000_0000
    && (forall j :: 0 <= j < |c.packets| ==> PacketOk(cfg, c.packets[j]))
    && (!c.kind.Batch? ==> |c.packets| == 1)
    && (c.kind.Dispatch? ==> 0 !in cfg.ready)
  }

  // Where a thread is in its call. Zero and Copy carry the words already written, in any order;
  // word number `words` of Zero is the header.
  datatype Pc =
    | Idle
    | Spin
    | Zero(cleared: set<nat>)
    | Copy(copied: set<nat>)
    | Ring
    | Await

  // base: the reserved index. next: write_index. remaining: packet_count. chunk: dispatch_count.
  // i: the for-loop counter.
  datatype Producer = Producer(pc: Pc, call: Call, base: nat, next: nat, remaining: nat, chunk: nat, i: nat)

  // The processor looks for a ready header, then has read_index still to increment.
  datatype Processor = Poll | Retire

  datatype Bell = Bell(producer: nat, index: nat)

  datatype State = State(
    slots: seq<Packet>,
    reserved: nat,              // the write index
    consumed: nat,              // the read index
    processor: Processor,
    producers: seq<Producer>,
    doorbell: nat,              // the 64-bit value last stored in the doorbell signal
    completed: set<nat>,        // indices whose completion signal has been decremented
    log: seq<Packet>,           // what each reserved index is to carry
    owner: seq<nat>,            // the thread that reserved each index
    kinds: seq<Kind>,           // and the kind of call it did so for
    published: set<nat>,        // indices whose header has been stored
    taken: seq<Packet>,         // what the processor has read, in order
    returned: set<nat>,         // indices whose dispatch call has returned
    bells: seq<Bell>)           // doorbell stores, in order

  function Min(a: nat, b: nat): nat {
    if a > b then b else a
  }

  // The index each packet of a call goes to carries packet[j mod size]: every chunk reads the
  // array from its start again.
  function Block(size: nat, packets: seq<Packet>): (b: seq<Packet>)
    requires size >= 1
    ensures |b| == |packets|
  {
    seq(|packets|, j requires 0 <= j < |packets| => packets[Wrap(size, j)])
  }

  function End(q: Producer): nat {
    q.base + |q.call.packets|
  }

  // The wait loops' exit tests, in 64-bit arithmetic, on the loaded read index.
  predicate SingleAdmits(cfg: Config, next: nat, read: nat) {
    U64(U64(next) - U64(read)) <= cfg.size
  }

  predicate BatchAdmits(cfg: Config, next: nat, chunk: nat, read: nat) {
    U64(U64(next) + chunk - U64(read)) <= cfg.size
  }

  predicate DispatchAdmits(cfg: Config, next: nat, read: nat) {
    U64(U64(next) - U64(read)) < cfg.size
  }

  predicate Admits(cfg: Config, q: Producer, read: nat) {
    match q.call.kind
    case Single => SingleAdmits(cfg, q.next, read)
    case Batch => BatchAdmits(cfg, q.next, q.chunk, read)
    case Dispatch => DispatchAdmits(cfg, q.next, read)
  }

  // write_index & queue_mask, or packet_id % size.
  function SlotIndex(cfg: Config, kind: Kind, index: nat): nat
    requires cfg.size >= 1
  {
    if kind.Dispatch? then U64(index) % cfg.size else BitAnd(U64(index), cfg.size - 1)
  }

  datatype Action =
    | Reserve(p: nat, call: Call)
    | Admit(p: nat)
    | ZeroWord(p: nat, k: nat)
    | EndZero(p: nat)
    | CopyWord(p: nat, k: nat)
    | StoreHeader(p: nat)
    | RingBell(p: nat)
    | Return(p: nat)
    | Take
    | Advance
    | Complete(j: nat)

  predicate IsProducerAction(a: Action) {
    !a.Take? && !a.Advance? && !a.Complete?
  }

  predicate SlotFor(cfg: Config, s: State, q: Producer) {
    cfg.size >= 1 && SlotIndex(cfg, q.call.kind, q.next) < |s.slots| && q.i < |q.call.packets|
  }

  predicate ProducerEnabled(cfg: Config, s: State, a: Action)
    requires IsProducerAction(a)
  {
    && a.p < |s.producers|
    && var q := s.producers[a.p];
       match a
       case Reserve(_, c) => q.pc.Idle? && CallOk(cfg, c) && cfg.size >= 1
       case Admit(_) => q.pc.Spin? && Admits(cfg, q, s.consumed)
       case ZeroWord(_, k) =>
         q.pc.Zero? && k <= cfg.words && k !in q.pc.cleared && SlotFor(cfg, s, q)
         && (k < cfg.words ==> k < |s.slots[SlotIndex(cfg, q.call.kind, q.next)].body|)
       case EndZero(_) => q.pc.Zero? && forall k :: 0 <= k <= cfg.words ==> k in q.pc.cleared
       case CopyWord(_, k) =>
         q.pc.Copy? && k < cfg.words && k !in q.pc.copied && SlotFor(cfg, s, q)
         && k < |s.slots[SlotIndex(cfg, q.call.kind, q.next)].body| && k < |q.call.packets[q.i].body|
       case StoreHeader(_) =>
         q.pc.Copy? && (forall k :: 0 <= k < cfg.words ==> k in q.pc.copied) && SlotFor(cfg, s, q)
       case RingBell(_) => q.pc.Ring? && q.chunk <= q.remaining
       case Return(_) => q.pc.Await? && q.base in s.completed
  }

  predicate Enabled(cfg: Config, s: State, a: Action) {
    match a
    case Take =>
      && s.processor.Poll? && cfg.size >= 1
      && SlotIndex(cfg, Single, s.consumed) < |s.slots|
      && s.slots[SlotIndex(cfg, Single, s.consumed)].header in cfg.ready
    case Advance => s.processor.Retire?
    case Complete(j) => j < |s.taken| && j !in s.completed
    case _ => ProducerEnabled(cfg, s, a)
  }

  // The body word or header (word number `words`) of slot x set to v.
  function WriteWord(cfg: Config, slots: seq<Packet>, x: nat, k: nat, v: nat): seq<Packet>
    requires x < |slots| && (k < cfg.words ==> k < |slots[x].body|)
  {
    if k < cfg.words
    then slots[x := slots[x].(body := slots[x].body[k := v])]
    else slots[x := slots[x].(header := v)]
  }

  // The index the doorbell value is taken from: the packet's own, or for a batch one past the last index written.
  function BellIndex(q: Producer): nat {
    if q.call.kind.Batch? then q.next else q.base
  }

  function StartCall(cfg: Config, c: Call, base: nat): Producer {
    Producer(Spin, c, base, base, |c.packets|, Min(|c.packets|, cfg.size), 0)
  }

  function AfterAdmit(q: Producer): Producer {
    q.(pc := if q.call.kind.Dispatch? then Zero({}) else Copy({}))
  }

  function AfterStore(q: Producer): Producer {
    q.(next := q.next + 1, i := q.i + 1, pc := if q.i + 1 < q.chunk then Copy({}) else Ring)
  }

  function AfterRing(cfg: Config, q: Producer): Producer
    requires q.chunk <= q.remaining
  {
    var left := q.remaining - q.chunk;
    if left > 0 then q.(pc := Spin, remaining := left, chunk := Min(left, cfg.size), i := 0)
    else q.(pc := if q.call.kind.Dispatch? then Await else Idle, remaining := 0)
  }

  function WithProducer(s: State, p: nat, q: Producer): State
    requires p < |s.producers|
  {
    s.(producers := s.producers[p := q])
  }

  function Next(cfg: Config, s: State, a: Action): State
    requires Enabled(cfg, s, a)
  {
    match a
    case Reserve(p, c) =>
      var n := |c.packets|;
      WithProducer(s, p, StartCall(cfg, c, s.reserved)).(
      reserved := s.reserved + n,
      log := s.log + Block(cfg.size, c.packets),
      owner := s.owner + seq(n, _ => p),
      kinds := s.kinds + seq(n, _ => c.kind))
    case Admit(p) =>
      WithProducer(s, p, AfterAdmit(s.producers[p]))
    case ZeroWord(p, k) =>
      var q := s.producers[p];
      WithProducer(s, p, q.(pc := Zero(q.pc.cleared + {k}))).(
      slots := WriteWord(cfg, s.slots, SlotIndex(cfg, q.call.kind, q.next), k, 0))
    case EndZero(p) =>
      WithProducer(s, p, s.producers[p].(pc := Copy({})))
    case CopyWord(p, k) =>
      var q := s.producers[p];
      WithProducer(s, p, q.(pc := Copy(q.pc.copied + {k}))).(
      slots := WriteWord(cfg, s.slots, SlotIndex(cfg, q.call.kind, q.next), k, q.call.packets[q.i].body[k]))
    case StoreHeader(p) =>
      var q := s.producers[p];
      WithProducer(s, p, AfterStore(q)).(
      slots := WriteWord(cfg, s.slots, SlotIndex(cfg, q.call.kind, q.next), cfg.words, q.call.packets[q.i].header),
      published := s.published + {q.next})
    case RingBell(p) =>
      var q := s.producers[p];
      WithProducer(s, p, AfterRing(cfg, q)).(
      doorbell := U64(BellIndex(q)),
      bells := s.bells + [Bell(p, BellIndex(q))])
    case Return(p) =>
      var q := s.producers[p];
      WithProducer(s, p, q.(pc := Idle)).(returned := s.returned + {q.base})
    case Take =>
      var x := SlotIndex(cfg, Single, s.consumed);
      s.(processor := Retire, taken := s.taken + [s.slots[x]],
      slots := WriteWord(cfg, s.slots, x, cfg.words, cfg.invalid))
    case Advance => s.(processor := Poll, consumed := s.consumed + 1)
    case Complete(j) => s.(completed := s.completed + {j})
  }

  // A fresh queue: nothing reserved, no slot ready, every thread idle.
  ghost predicate Init(cfg: Config, s: State) {
    && |s.slots| == cfg.size
    && (forall x :: 0 <= x < |s.slots| ==> s.slots[x].header !in cfg.ready && |s.slots[x].body| == cfg.words)
    && s.reserved == s.consumed == 0 && s.processor == Poll
    && |s.producers| == cfg.producers
    && (forall p :: 0 <= p < |s.producers| ==> s.producers[p].pc == Idle)
    && s.completed == s.published == s.returned == {}
    && s.log == [] && s.owner == [] && s.kinds == [] && s.taken == [] && s.bells == []
  }

  // The single-packet wait loop lets a thread through at distance exactly `size`, onto the slot of
  // the read index itself.
  predicate OverAdmits(cfg: Config, s: State, a: Action) {
    && a.Admit? && a.p < |s.producers|
    && s.producers[a.p].call.kind.Single?
    && s.producers[a.p].next == s.consumed + cfg.size
  }

  // A run: states[i + 1] follows from states[i] by actions[i].
  ghost predicate IsRun(cfg: Config, states: seq<State>, actions: seq<Action>) {
    && |states| == |actions| + 1
    && forall i :: 0 <= i < |actions| ==>
         Enabled(cfg, states[i], actions[i]) && states[i + 1] == Next(cfg, states[i], actions[i])
  }

  ghost predicate NeverOverAdmits(cfg: Config, states: seq<State>, actions: seq<Action>) {
    |states| == |actions| + 1 &&
    forall i :: 0 <= i < |actions| ==> !OverAdmits(cfg, states[i], actions[i])
  }
}
