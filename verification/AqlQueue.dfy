// The enqueue and dispatch functions in their own imperative form, with the ring in an array. One
// thread's calls are methods; whatever the packet processor and the other threads do meanwhile
// happens in `Elsewhere`, which runs at every load and before every packet is written.
module AqlQueue {
  import opened Words
  import opened RingProtocol

  // What the ring means: indices below lo are consumed; a slot of the window of one turn from lo is
  // ready exactly when its index is published, and then it holds that index's whole packet.
  ghost predicate Holds(cfg: Config, ring: seq<Packet>, log: seq<Packet>, lo: nat, published: set<nat>) {
    && ConfigOk(cfg) && |ring| == cfg.size
    && (forall x :: 0 <= x < |ring| ==> |ring[x].body| == cfg.words)
    && (forall j :: 0 <= j < |log| ==> PacketOk(cfg, log[j]))
    && lo <= |log|
    && (forall j :: j in published ==> j < |log| && j < lo + cfg.size)
    && (forall j: nat :: j < lo ==> j in published)
    && forall j: nat :: lo <= j < lo + cfg.size ==>
         && (j in published <==> ring[Wrap(cfg.size, j)].header in cfg.ready)
         && (j in published && j < |log| ==> ring[Wrap(cfg.size, j)] == log[j])
  }

  lemma HoldsFacts(cfg: Config, ring: seq<Packet>, log: seq<Packet>, lo: nat, published: set<nat>)
    requires Holds(cfg, ring, log, lo, published)
    ensures ConfigOk(cfg) && |ring| == cfg.size && lo <= |log|
    ensures forall j: nat :: j !in published ==> lo <= j
    ensures forall j :: 0 <= j < |log| ==> PacketOk(cfg, log[j])
    ensures forall x :: 0 <= x < |ring| ==> |ring[x].body| == cfg.words
    ensures lo in published <==> ring[Wrap(cfg.size, lo)].header in cfg.ready
  {
  }

  // Storing the packet of an unpublished index of the window publishes it and disturbs no other.
  lemma StorePublishes(cfg: Config, ring: seq<Packet>, log: seq<Packet>, lo: nat, published: set<nat>, w: nat)
    requires Holds(cfg, ring, log, lo, published)
    requires w < |log| && w !in published && w < lo + cfg.size
    ensures Holds(cfg, ring[Wrap(cfg.size, w) := log[w]], log, lo, published + {w})
  {
    WindowDistinct(cfg.size, lo, w);
  }

  // Taking the packet at the read index returns its log entry and slides the window by one.
  lemma TakeSlides(cfg: Config, ring: seq<Packet>, log: seq<Packet>, lo: nat, published: set<nat>)
    requires Holds(cfg, ring, log, lo, published) && ring[Wrap(cfg.size, lo)].header in cfg.ready
    ensures lo < |log| && ring[Wrap(cfg.size, lo)] == log[lo]
    ensures Holds(cfg, ring[Wrap(cfg.size, lo) := log[lo].(header := cfg.invalid)], log, lo + 1, published)
  {
    hide PowerOfTwo;
    assert lo in published;
    TakeSlidesWindow(cfg, ring, log, lo, published, log[lo].(header := cfg.invalid));
  }

  lemma TakeSlidesWindow(cfg: Config, ring: seq<Packet>, log: seq<Packet>, lo: nat, published: set<nat>, left: Packet)
    requires Holds(cfg, ring, log, lo, published) && left.header !in cfg.ready
    ensures forall j: nat :: lo + 1 <= j < lo + 1 + cfg.size ==>
              && (j in published <==> ring[Wrap(cfg.size, lo) := left][Wrap(cfg.size, j)].header in cfg.ready)
              && (j in published && j < |log| ==> ring[Wrap(cfg.size, lo) := left][Wrap(cfg.size, j)] == log[j])
  {
    WindowDistinct(cfg.size, lo, lo);
    assert Wrap(cfg.size, lo + cfg.size) == Wrap(cfg.size, lo);
  }

  lemma HoldsBelow(cfg: Config, ring: seq<Packet>, log: seq<Packet>, lo: nat, published: set<nat>)
    requires Holds(cfg, ring, log, lo, published)
    ensures forall j :: j in published ==> j < |log|
  {
  }

  lemma HoldsMore(cfg: Config, ring: seq<Packet>, log: seq<Packet>, more: seq<Packet>, lo: nat, published: set<nat>)
    requires Holds(cfg, ring, log, lo, published)
    requires forall j :: 0 <= j < |more| ==> PacketOk(cfg, more[j])
    ensures Holds(cfg, ring, log + more, lo, published)
  {
  }

  // The indices lo, ..., hi - 1.
  function Range(lo: nat, hi: nat): (r: set<nat>)
    ensures forall j: nat :: j in r <==> lo <= j < hi
  {
    if hi <= lo then {} else Range(lo, hi - 1) + {hi - 1}
  }

  lemma RangeSplit(a: nat, b: nat, c: nat)
    requires a <= b <= c
    ensures Range(a, c) == Range(a, b) + Range(b, c)
  {
  }

  lemma NextTurn(size: nat, x: nat)
    requires size >= 1 && Wrap(size, x) == 0
    ensures Wrap(size, x + size) == 0
  {
    WrapOffset(size, x, 0);
  }

  lemma PrefixTransitive(a: seq<Packet>, b: seq<Packet>, c: seq<Packet>)
    requires a <= b <= c
    ensures a <= c
  {
  }

  lemma SliceKept(a: seq<Packet>, b: seq<Packet>, lo: nat, hi: nat)
    requires a <= b && lo <= hi <= |a|
    ensures b[lo..hi] == a[lo..hi]
  {
  }

  // The log entry of a block's offset start + i, when start is a chunk boundary.
  lemma BlockEntry(size: nat, log: seq<Packet>, base: nat, count: nat, start: nat, i: nat, packets: seq<Packet>)
    requires size >= 1 && i < size && start + i < count && base + count <= |log| && Wrap(size, start) == 0
    requires log[base..base + count] == Block(size, packets)
    ensures i < |packets| && log[base + start + i] == packets[i]
  {
    WrapOffset(size, start, i);
    assert log[base + start + i] == log[base..base + count][start + i];
  }

  // What a memset to zero followed by field assignments leaves in a packet body: each field is the
  // word it is stored in and its value.
  function Filled(words: nat, fields: seq<(nat, nat)>): (body: seq<nat>)
    requires forall f :: f in fields ==> f.0 < words
    ensures |body| == words
  {
    if |fields| == 0 then seq(words, _ => 0)
    else
      var f := fields[|fields| - 1];
      assert f in fields;
      Filled(words, fields[..|fields| - 1])[f.0 := f.1]
  }

  // Every word is its last assigned value, or zero when no field was assigned to it.
  lemma {:induction false} FilledAt(words: nat, fields: seq<(nat, nat)>, k: nat)
    requires (forall f :: f in fields ==> f.0 < words) && k < words
    ensures (forall f :: f in fields ==> f.0 != k) ==> Filled(words, fields)[k] == 0
    ensures forall i :: 0 <= i < |fields| && fields[i].0 == k && (forall l :: i < l < |fields| ==> fields[l].0 != k) ==>
              Filled(words, fields)[k] == fields[i].1
  {
    if |fields| > 0 {
      var last := fields[|fields| - 1];
      assert last in fields;
      FilledAt(words, fields[..|fields| - 1], k);
    }
  }

  // The doorbell values of a batch of `count` packets from `index`: one after each chunk, one past
  // the last index of that chunk, and as many as there are chunks.
  ghost predicate RungPerChunk(before: seq<nat>, after: seq<nat>, size: nat, index: nat, count: nat) {
    && |before| <= |after| && after[..|before|] == before
    && var n := |after| - |before|;
       && (n - 1) * size < count <= n * size
       && forall k :: |before| <= k < |after| ==> after[k] == U64(index + Min((k - |before| + 1) * size, count))
  }

  // All the chunks so far were whole ones.
  ghost predicate WholeChunks(before: seq<nat>, after: seq<nat>, size: nat, done: nat) {
    |before| <= |after| && done == (|after| - |before|) * size
  }

  lemma RungNone(rung: seq<nat>, size: nat, index: nat)
    requires size >= 1
    ensures RungPerChunk(rung, rung, size, index, 0) && WholeChunks(rung, rung, size, 0)
  {
  }

  lemma ChunkEnd(k: nat, n: nat, size: nat, chunk: nat)
    requires k <= n && 1 <= chunk <= size
    ensures Min((k + 1) * size, n * size + chunk) == if k < n then Min((k + 1) * size, n * size) else n * size + chunk
    ensures n * size + chunk <= (n + 1) * size
  {
    assert (n + 1) * size == n * size + size;
    if k < n { assert (k + 1) * size <= n * size; }
  }

  lemma RungAgain(before: seq<nat>, after: seq<nat>, size: nat, index: nat, done: nat, chunk: nat)
    requires 1 <= chunk <= size && WholeChunks(before, after, size, done)
    requires RungPerChunk(before, after, size, index, done)
    ensures RungPerChunk(before, after + [U64(index + done + chunk)], size, index, done + chunk)
    ensures chunk == size ==> WholeChunks(before, after + [U64(index + done + chunk)], size, done + chunk)
  {
    hide U64, Min;
    var n: nat := |after| - |before|;
    var more := after + [U64(index + done + chunk)];
    ChunkEnd(n, n, size, chunk);
    assert |more| - |before| == n + 1 && more[..|before|] == before;
    forall k | |before| <= k < |more|
      ensures more[k] == U64(index + Min((k - |before| + 1) * size, done + chunk))
    {
      ChunkEnd(k - |before|, n, size, chunk);
    }
  }

  class Queue {
    const cfg: Config
    const slots: array<Packet>
    var writeIndex: nat       // indices reserved; the hardware register holds U64 of it
    var readIndex: nat        // indices consumed
    var doorbell: nat
    // History: what each reserved index is to carry, the indices published, those this thread has
    // reserved and not published, those it has published and not rung, the doorbell values it has
    // stored, and what the processor has taken.
    var log: seq<Packet>
    var published: set<nat>
    var mine: set<nat>
    var untold: set<nat>
    var rung: seq<nat>
    ghost var taken: seq<Packet>

    ghost predicate Valid()
      reads this, slots
    {
      && Holds(cfg, slots[..], log, readIndex, published)
      && |log| == writeIndex && writeIndex - readIndex < TWO_64
      && taken == log[..readIndex]
      && (forall j :: j in mine ==> j < writeIndex && j !in published)
    }

    // Time passes: nothing reserved, published or consumed is undone.
    twostate predicate Later()
      reads this
    {
      && old(readIndex) <= readIndex && old(published) <= published
      && old(log) <= log
    }

    constructor (cfg: Config)
      requires ConfigOk(cfg)
      ensures Valid() && fresh(slots) && this.cfg == cfg
      ensures writeIndex == readIndex == 0 && log == taken == [] && published == mine == untold == {} && rung == []
    {
      this.cfg := cfg;
      slots := new Packet[cfg.size](_ => Packet(cfg.invalid, seq(cfg.words, _ => 0)));
      writeIndex, readIndex, doorbell := 0, 0, 0;
      log, published, mine, taken := [], {}, {}, [];
      untold, rung := {}, [];
    }

    // An index this thread has reserved and not published is not consumed, and its distance fits.
    lemma MineAhead(index: nat)
      requires Valid() && index in mine
      ensures cfg.size >= 1 && readIndex <= index < writeIndex == |log| && writeIndex - readIndex < TWO_64
    {
    }

    // ----- the processor and the other threads

    // The packet processor: take the packet at the read index if its header is ready.
    method TakeOne()
      requires Valid()
      modifies slots, `readIndex, `taken
      ensures Valid() && Later()
      ensures readIndex == old(readIndex) + (if old(readIndex in published) then 1 else 0)
    {
      hide Holds, Wrap, BitAnd, U64, PowerOfTwo;
      HoldsFacts(cfg, slots[..], log, readIndex, published);
      MaskedSlotIsWrap(cfg.size, readIndex);
      var x := BitAnd(U64(readIndex), cfg.size - 1);
      if slots[x].header in cfg.ready {
        TakeSlides(cfg, slots[..], log, readIndex, published);
        taken := taken + [slots[x]];
        slots[x] := slots[x].(header := cfg.invalid);
        assert slots[..] == old(slots[..])[x := log[readIndex].(header := cfg.invalid)];
        readIndex := readIndex + 1;
      }
    }

    // Another thread publishes an index it has reserved, if there is room for it.
    method OtherPublishes(j: nat)
      requires Valid()
      modifies slots, `published
      ensures Valid() && Later()
      ensures old(j < writeIndex && j !in mine && j < readIndex + cfg.size) ==> j in published
    {
      hide Holds, Wrap, PowerOfTwo;
      if j < writeIndex && j !in mine && j < readIndex + cfg.size && j !in published {
        HoldsFacts(cfg, slots[..], log, readIndex, published);
        StorePublishes(cfg, slots[..], log, readIndex, published, j);
        var x := Wrap(cfg.size, j);
        slots[x] := log[j];
        assert slots[..] == old(slots[..])[x := log[j]];
        published := published + {j};
      }
    }

    // Another thread reserves a block.
    method OtherReserves(block: seq<Packet>)
      requires Valid()
      modifies `writeIndex, `log
      ensures Valid() && Later()
    {
      if writeIndex - readIndex + |block| < TWO_64 && forall j :: 0 <= j < |block| ==> PacketOk(cfg, block[j]) {
        HoldsMore(cfg, slots[..], log, block, readIndex, published);
        writeIndex := writeIndex + |block|;
        log := log + block;
      }
    }

    // Any number of moves of the processor and of other threads, in any order.
    method Elsewhere()
      requires Valid()
      modifies slots, `readIndex, `taken, `published, `writeIndex, `log, `doorbell
      ensures Valid() && Later()
    {
      hide Holds;
      var moves: int := *;
      while moves > 0
        invariant Valid() && Later()
      {
        moves := moves - 1;
        ghost var before := log;
        var choice: nat, j: nat, block: seq<Packet> := *, *, *;
        if choice == 0 {
          TakeOne();
        } else if choice == 1 {
          OtherPublishes(j);
        } else if choice == 2 {
          OtherReserves(block);
        } else {
          doorbell := U64(j);
        }
        PrefixTransitive(old(log), before, log);
      }
    }

    // A load of the read index. Once `patience` loads have been in vain the world moves: the index
    // to be consumed next is published by its thread, if that is another one, and taken, unless this
    // thread has published it without ringing the doorbell.
    method LoadReadIndex(patience: nat) returns (r: nat, left: nat)
      requires Valid()
      modifies slots, `readIndex, `taken, `published, `writeIndex, `log, `doorbell
      ensures Valid() && Later() && r == U64(readIndex)
      ensures readIndex > old(readIndex) || left < patience || readIndex in mine + untold || readIndex == writeIndex
    {
      hide Holds, U64;
      Elsewhere();
      left := if patience > 0 then patience - 1 else 0;
      if patience == 0 {
        HoldsFacts(cfg, slots[..], log, readIndex, published);
        OtherPublishes(readIndex);
        if readIndex !in untold { TakeOne(); }
      }
      r := U64(readIndex);
    }

    // ----- one packet or block of this thread

    // hsa_queue_add_write_index: reserves a block and returns its first index. The code receives
    // the 64-bit value of it; methods below take the index itself and use only that value.
    method AddWriteIndex(block: seq<Packet>) returns (index: nat)
      requires Valid() && writeIndex - readIndex + |block| < TWO_64
      requires forall j :: 0 <= j < |block| ==> PacketOk(cfg, block[j])
      modifies `writeIndex, `log, `mine
      ensures Valid() && index == old(writeIndex) && writeIndex == index + |block|
      ensures log == old(log) + block && mine == old(mine) + Range(index, writeIndex)
    {
      hide Holds;
      HoldsFacts(cfg, slots[..], log, readIndex, published);
      HoldsMore(cfg, slots[..], log, block, readIndex, published);
      HoldsBelow(cfg, slots[..], log, readIndex, published);
      index := writeIndex;
      mine := mine + Range(index, index + |block|);
      writeIndex := writeIndex + |block|;
      log := log + block;
    }

    // memcpy of the body, then the release store of the header.
    method WritePacket(x: nat, index: nat, packet: Packet)
      requires Valid() && index in mine && index < readIndex + cfg.size
      requires x == Wrap(cfg.size, index) && packet == log[index]
      modifies slots, `published, `mine, `untold
      ensures Valid() && published == old(published) + {index} && mine == old(mine) - {index}
      ensures untold == old(untold) + {index}
    {
      hide Wrap;
      StorePublishes(cfg, slots[..], log, readIndex, published, index);
      slots[x] := slots[x].(body := packet.body);
      slots[x] := slots[x].(header := packet.header);
      assert slots[..] == old(slots[..])[x := packet];
      published, mine, untold := published + {index}, mine - {index}, untold + {index};
    }

    // The doorbell store: tells the processor of every index up to the one rung.
    method RingDoorbell(index: nat)
      modifies `doorbell, `rung, `untold
      ensures doorbell == U64(index) && rung == old(rung) + [U64(index)]
      ensures untold == old(untold) - Range(0, index + 1)
      ensures old(Valid()) ==> Valid()
    {
      doorbell := U64(index);
      rung := rung + [U64(index)];
      untold := untold - Range(0, index + 1);
    }

    // ----- enqueue_dispatch_packets

    // The batch wait loop: spins until the whole chunk fits behind the read index. It ends when no
    // index that has to be consumed first is one this very thread has still to publish or to ring.
    method AwaitRoom(index: nat, chunk: nat, patience: nat)
      requires Valid() && index in mine && 1 <= chunk <= cfg.size && index + chunk <= writeIndex
      requires forall j :: j in mine + untold ==> index + chunk <= j + cfg.size
      modifies slots, `readIndex, `taken, `published, `writeIndex, `log, `doorbell
      ensures Valid() && Later() && index + chunk <= readIndex + cfg.size
    {
      hide Holds;
      var write := U64(index);
      var read: int, left: nat := LoadReadIndex(patience);
      MineAhead(index);
      DistanceSurvivesWrap(index, readIndex, chunk);
      while U64(write + chunk - read) > cfg.size
        invariant Valid() && Later() && read == U64(readIndex)
        invariant U64(write + chunk - read) == index + chunk - readIndex
        decreases index + chunk - readIndex, left
      {
        ghost var before := log;
        read, left := LoadReadIndex(left);
        PrefixTransitive(old(log), before, log);
        MineAhead(index);
        DistanceSurvivesWrap(index, readIndex, chunk);
      }
    }

    // One turn of the for loop: packet[0] .. packet[chunk - 1] go to the next `chunk` indices.
    method WriteChunk(index: nat, chunk: nat, packets: array<Packet>, ghost base: nat, ghost count: nat)
      requires Valid() && packets != slots && base <= index && index + chunk <= base + count <= writeIndex
      requires chunk <= cfg.size && index + chunk <= readIndex + cfg.size && count <= packets.Length
      requires cfg.size >= 1 && Wrap(cfg.size, index - base) == 0
      requires log[base..base + count] == Block(cfg.size, packets[..count])
      requires Range(index, index + chunk) <= mine
      modifies slots, `readIndex, `taken, `published, `writeIndex, `log, `doorbell, `mine, `untold
      ensures Valid() && Later()
      ensures mine == old(mine) - Range(index, index + chunk) && Range(index, index + chunk) <= published
      ensures untold == old(untold) + Range(index, index + chunk)
    {
      hide Holds, BitAnd, PowerOfTwo, Wrap, Block, U64;
      ghost var block := packets[..count];
      var write := U64(index);
      for i := 0 to chunk
        invariant Valid() && Later() && write == U64(index + i)
        invariant mine == old(mine) - Range(index, index + i) && Range(index, index + i) <= published
        invariant untold == old(untold) + Range(index, index + i)
        invariant packets[..count] == block
      {
        ghost var before := log;
        Elsewhere();
        PrefixTransitive(old(log), before, log);
        SliceKept(old(log), log, base, base + count);
        HoldsFacts(cfg, slots[..], log, readIndex, published);
        MaskedSlotIsWrap(cfg.size, index + i);
        BlockEntry(cfg.size, log, base, count, index - base, i, block);
        assert packets[i] == block[i];
        WritePacket(BitAnd(write, cfg.size - 1), index + i, packets[i]);
        U64Successor(index + i);
        write := U64(write + 1);
      }
    }

    // One turn of the while loop: wait for room, write the chunk, ring one past it.
    method EnqueueChunk(index: nat, chunk: nat, packets: array<Packet>, ghost base: nat, ghost count: nat, patience: nat)
      requires Valid() && packets != slots && base <= index && index + chunk <= base + count <= writeIndex
      requires 1 <= chunk <= cfg.size && count <= packets.Length && Wrap(cfg.size, index - base) == 0
      requires log[base..base + count] == Block(cfg.size, packets[..count])
      requires index in mine && Range(index, index + chunk) <= mine && untold == {}
      requires forall j :: j in mine ==> index + chunk <= j + cfg.size
      modifies slots, `readIndex, `taken, `published, `writeIndex, `log, `doorbell, `mine, `untold, `rung
      ensures Valid() && Later() && untold == {}
      ensures mine == old(mine) - Range(index, index + chunk) && Range(index, index + chunk) <= published
      ensures doorbell == U64(index + chunk) && rung == old(rung) + [U64(index + chunk)]
    {
      hide Holds, Wrap, Block, U64;
      ghost var block := packets[..count];
      AwaitRoom(index, chunk, patience);
      ghost var before := log;
      SliceKept(old(log), log, base, base + count);
      assert packets[..count] == block;
      WriteChunk(index, chunk, packets, base, count);
      PrefixTransitive(old(log), before, log);
      RingDoorbell(index + chunk);
    }

    // enqueue_dispatch_packets_at, for any block this thread has reserved. Its other unpublished
    // indices, if any, must not be more than one turn behind the end of the block: otherwise the
    // wait loop would wait for a packet that only this thread can publish.
    method EnqueueDispatchPacketsAt(index: nat, count: nat, packets: array<Packet>, patience: nat)
      requires Valid() && packets != slots && count <= packets.Length && count < 0x1_0000_0000
      requires index + count <= writeIndex && Range(index, index + count) <= mine
      requires log[index..index + count] == Block(cfg.size, packets[..count])
      requires untold == {} && forall j :: j in mine && j < index ==> index + count <= j + cfg.size
      modifies slots, `readIndex, `taken, `published, `writeIndex, `log, `doorbell, `mine, `untold, `rung
      ensures Valid() && Later()
      ensures mine == old(mine) - Range(index, index + count) && Range(index, index + count) <= published
      ensures untold == {} && RungPerChunk(old(rung), rung, cfg.size, index, count)
      ensures doorbell == if count > 0 then U64(index + count) else old(doorbell)
    {
      hide Holds, Wrap, Block, U64, Range, RungPerChunk, WholeChunks;
      HoldsFacts(cfg, slots[..], log, readIndex, published);
      RungNone(rung, cfg.size, index);
      var next: nat, remaining: nat := index, count;
      while remaining > 0
        invariant Valid() && Later() && remaining <= count && next == index + count - remaining
        invariant mine == old(mine) - Range(index, next) && Range(index, next) <= published
        invariant remaining > 0 ==> Wrap(cfg.size, next - index) == 0
        invariant packets[..] == old(packets[..])
        invariant untold == {} && RungPerChunk(old(rung), rung, cfg.size, index, next - index)
        invariant remaining > 0 ==> WholeChunks(old(rung), rung, cfg.size, next - index)
        invariant doorbell == if remaining < count then U64(next) else old(doorbell)
        decreases remaining
      {
        var chunk := if remaining > cfg.size then cfg.size else remaining;
        RangeSplit(index, next, index + count);
        RangeSplit(next, next + chunk, index + count);
        RangeSplit(index, next, next + chunk);
        SliceKept(old(log), log, index, index + count);
        assert packets[..count] == old(packets[..count]);
        RungAgain(old(rung), rung, cfg.size, index, next - index, chunk);
        if chunk == cfg.size { NextTurn(cfg.size, next - index); }
        ghost var before := log;
        EnqueueChunk(next, chunk, packets, index, count, patience);
        PrefixTransitive(old(log), before, log);
        next := next + chunk;
        remaining := remaining - chunk;
      }
    }

    // enqueue_dispatch_packets: reserves one contiguous block of the log, which carries the array,
    // publishes all of it whatever the other threads do, and leaves the doorbell one past it.
    method EnqueueDispatchPackets(count: nat, packets: array<Packet>, patience: nat) returns (index: nat)
      requires Valid() && packets != slots && count <= packets.Length && count < 0x1_0000_0000
      requires writeIndex - readIndex + count < TWO_64
      requires forall j :: 0 <= j < packets.Length ==> PacketOk(cfg, packets[j])
      requires untold == {} && (count > 0 ==> forall j :: j in mine ==> writeIndex + count <= j + cfg.size)
      modifies slots, `readIndex, `taken, `published, `writeIndex, `log, `doorbell, `mine, `untold, `rung
      ensures Valid() && Later() && index == old(writeIndex) && index + count <= |log|
      ensures cfg.size >= 1 && log[index..index + count] == Block(cfg.size, packets[..count])
      ensures count <= cfg.size ==> log[index..index + count] == packets[..count]
      ensures Range(index, index + count) <= published && mine == old(mine)
      ensures untold == {} && RungPerChunk(old(rung), rung, cfg.size, index, count)
      ensures doorbell == if count > 0 then U64(index + count) else old(doorbell)
    {
      hide Holds, U64;
      HoldsFacts(cfg, slots[..], log, readIndex, published);
      index := writeIndex;
      ghost var block := Block(cfg.size, packets[..count]);
      assert count <= cfg.size ==> block == packets[..count];
      if count > 0 {
        var _ := AddWriteIndex(Block(cfg.size, packets[..count]));
        assert log[index..index + count] == block;
        ghost var before := log;
        EnqueueDispatchPacketsAt(index, count, packets, patience);
        PrefixTransitive(old(log), before, log);
        SliceKept(before, log, index, index + count);
      }
    }

    // ----- enqueue_dispatch_packet

    // The single-packet wait loop: it ends at any distance up to and including the ring size.
    method AwaitSingle(index: nat, patience: nat)
      requires Valid() && index in mine
      requires forall j :: j in mine + untold ==> index <= j + cfg.size
      modifies slots, `readIndex, `taken, `published, `writeIndex, `log, `doorbell
      ensures Valid() && Later() && readIndex <= index <= readIndex + cfg.size
    {
      hide Holds;
      var write := U64(index);
      var read: int, left: nat := LoadReadIndex(patience);
      MineAhead(index);
      DistanceSurvivesWrap(index, readIndex, 0);
      while U64(write - read) > cfg.size
        invariant Valid() && Later() && read == U64(readIndex)
        invariant U64(write - read) == index - readIndex
        decreases index - readIndex, left
      {
        ghost var before := log;
        read, left := LoadReadIndex(left);
        PrefixTransitive(old(log), before, log);
        MineAhead(index);
        DistanceSurvivesWrap(index, readIndex, 0);
      }
      MineAhead(index);
    }

    // enqueue_dispatch_packet_at, for any index this thread has reserved. The wait loop lets a
    // distance of exactly one turn through; `collided` says that happened, and then the packet has
    // replaced whatever the slot of the read index held.
    method EnqueueDispatchPacketAt(index: nat, packet: Packet, patience: nat) returns (collided: bool)
      requires Valid() && index in mine && packet == log[index] && untold == {}
      requires forall j :: j in mine ==> index <= j + cfg.size
      modifies slots, `readIndex, `taken, `published, `writeIndex, `log, `doorbell, `mine, `untold, `rung
      ensures Later() && doorbell == U64(index) && mine == old(mine) - {index} && index in published
      ensures untold == {} && rung == old(rung) + [U64(index)]
      ensures collided <==> index == readIndex + cfg.size
      ensures !collided ==> Valid()
      ensures collided ==>
                && 1 <= cfg.size == slots.Length && taken == log[..readIndex]
                && slots[Wrap(cfg.size, readIndex)] == packet
    {
      hide Holds, BitAnd, PowerOfTwo, U64;
      AwaitSingle(index, patience);
      HoldsFacts(cfg, slots[..], log, readIndex, published);
      MaskedSlotIsWrap(cfg.size, index);
      var x := BitAnd(U64(index), cfg.size - 1);
      collided := index == readIndex + cfg.size;
      if !collided {
        WritePacket(x, index, packet);
      } else {
        assert Wrap(cfg.size, index) == Wrap(cfg.size, readIndex);
        slots[x] := slots[x].(body := packet.body);
        slots[x] := slots[x].(header := packet.header);
        published, mine, untold := published + {index}, mine - {index}, untold + {index};
      }
      RingDoorbell(index);
    }

    // enqueue_dispatch_packet: with room at the call the packet is published at its index and
    // nothing is lost; it collides exactly when the read index is then still one turn behind.
    method EnqueueDispatchPacket(packet: Packet, patience: nat) returns (index: nat, collided: bool)
      requires Valid() && PacketOk(cfg, packet) && writeIndex - readIndex + 1 < TWO_64 && untold == {}
      requires forall j :: j in mine ==> writeIndex <= j + cfg.size
      modifies slots, `readIndex, `taken, `published, `writeIndex, `log, `doorbell, `mine, `untold, `rung
      ensures Later() && index == old(writeIndex) < |log| && log[index] == packet && doorbell == U64(index)
      ensures mine == old(mine) && index in published
      ensures untold == {} && rung == old(rung) + [U64(index)]
      ensures collided <==> index == readIndex + cfg.size
      ensures old(writeIndex) < old(readIndex) + cfg.size ==> !collided
      ensures !collided ==> Valid()
      ensures collided ==>
                && 1 <= cfg.size == slots.Length && taken == log[..readIndex]
                && slots[Wrap(cfg.size, readIndex)] == packet
    {
      hide Holds, U64, Wrap;
      index := AddWriteIndex([packet]);
      assert index in mine;
      assert log[index] == packet;
      collided := EnqueueDispatchPacketAt(index, packet, patience);
      assert log[index] == packet;
    }

    // ----- dispatch_kernel_1d_data

    // The dispatch wait loop: spins while the distance is the ring size or more.
    method AwaitDispatch(index: nat, patience: nat)
      requires Valid() && mine == {index} && untold == {}
      modifies slots, `readIndex, `taken, `published, `writeIndex, `log, `doorbell
      ensures Valid() && Later() && index < readIndex + cfg.size
    {
      hide Holds;
      var write := U64(index);
      var read: int, left: nat := LoadReadIndex(patience);
      MineAhead(index);
      DistanceSurvivesWrap(index, readIndex, 0);
      while U64(write - read) >= cfg.size
        invariant Valid() && Later() && read == U64(readIndex)
        invariant U64(write - read) == index - readIndex
        decreases index - readIndex, left
      {
        ghost var before := log;
        read, left := LoadReadIndex(left);
        PrefixTransitive(old(log), before, log);
        MineAhead(index);
        DistanceSurvivesWrap(index, readIndex, 0);
      }
    }

    // memset of the whole packet, the field assignments one by one, then the header.
    method FillSlot(x: nat, index: nat, header: nat, fields: seq<(nat, nat)>)
      requires Valid() && index in mine && index < readIndex + cfg.size && 0 !in cfg.ready
      requires forall f :: f in fields ==> f.0 < cfg.words
      requires x == Wrap(cfg.size, index) && log[index] == Packet(header, Filled(cfg.words, fields))
      modifies slots, `published, `mine, `untold
      ensures Valid() && published == old(published) + {index} && mine == old(mine) - {index}
      ensures untold == old(untold) + {index}
    {
      hide Wrap;
      StorePublishes(cfg, slots[..], log, readIndex, published, index);
      slots[x] := Packet(0, seq(cfg.words, _ => 0));
      for i := 0 to |fields|
        modifies slots
        invariant slots[..] == old(slots[..])[x := Packet(0, Filled(cfg.words, fields[..i]))]
      {
        hide Holds;
        assert fields[i] in fields;
        assert fields[..i + 1][..i] == fields[..i];
        slots[x] := slots[x].(body := slots[x].body[fields[i].0 := fields[i].1]);
      }
      assert fields[..|fields|] == fields;
      slots[x] := slots[x].(header := header);
      assert slots[..] == old(slots[..])[x := log[index]];
      published, mine, untold := published + {index}, mine - {index}, untold + {index};
    }

    // The completion signal of the packet at an index: 1 until the processor has completed it, then
    // 0. The world moves first, exactly as for a load of the read index.
    method LoadSignal(index: nat, patience: nat) returns (value: nat, left: nat)
      requires Valid()
      modifies slots, `readIndex, `taken, `published, `writeIndex, `log, `doorbell
      ensures Valid() && Later() && value == (if index < readIndex then 0 else 1)
      ensures readIndex > old(readIndex) || left < patience || readIndex in mine + untold || readIndex == writeIndex
    {
      var r;
      r, left := LoadReadIndex(patience);
      value := if index < readIndex then 0 else 1;
    }

    // dispatch_kernel_1d_data: reserve, wait for room, clear and fill the slot, store the header,
    // ring, and wait for the completion signal. Called with nothing of its own outstanding, it
    // returns, and only after the processor has taken its packet.
    method DispatchKernel1dData(header: nat, fields: seq<(nat, nat)>, patience: nat) returns (index: nat)
      requires Valid() && mine == untold == {} && writeIndex - readIndex + 1 < TWO_64
      requires header in cfg.ready && 0 !in cfg.ready && forall f :: f in fields ==> f.0 < cfg.words
      modifies slots, `readIndex, `taken, `published, `writeIndex, `log, `doorbell, `mine, `untold, `rung
      ensures Valid() && Later() && mine == untold == {} && index == old(writeIndex)
      ensures rung == old(rung) + [U64(index)]
      ensures index < readIndex && taken[index] == log[index] == Packet(header, Filled(cfg.words, fields))
    {
      hide Holds, BitAnd, PowerOfTwo, Wrap, U64, Filled;
      index := AddWriteIndex([Packet(header, Filled(cfg.words, fields))]);
      ghost var before := log;
      assert mine == {index} && log[index] == Packet(header, Filled(cfg.words, fields));
      PublishDispatch(index, header, fields, patience);
      PrefixTransitive(old(log), before, log);
      var filled := log[index];
      before := log;
      AwaitCompletion(index, patience);
      PrefixTransitive(old(log), before, log);
      assert log[index] == filled;
    }

    // Everything up to the doorbell.
    method PublishDispatch(index: nat, header: nat, fields: seq<(nat, nat)>, patience: nat)
      requires Valid() && mine == {index} && untold == {} && 0 !in cfg.ready
      requires forall f :: f in fields ==> f.0 < cfg.words
      requires index < |log| && log[index] == Packet(header, Filled(cfg.words, fields))
      modifies slots, `readIndex, `taken, `published, `writeIndex, `log, `doorbell, `mine, `untold, `rung
      ensures Valid() && Later() && mine == untold == {} && index in published && doorbell == U64(index)
      ensures rung == old(rung) + [U64(index)]
    {
      hide Holds, BitAnd, PowerOfTwo, Wrap, U64, Filled;
      AwaitDispatch(index, patience);
      assert log[index] == old(log)[index];
      HoldsFacts(cfg, slots[..], log, readIndex, published);
      ModuloSlotIsWrap(cfg.size, index);
      FillSlot(U64(index) % cfg.size, index, header, fields);
      RingDoorbell(index);
    }

    // The signal wait loop.
    method AwaitCompletion(index: nat, patience: nat)
      requires Valid() && mine == untold == {} && index < writeIndex
      modifies slots, `readIndex, `taken, `published, `writeIndex, `log, `doorbell
      ensures Valid() && Later() && index < readIndex
    {
      hide Holds;
      var value, left := LoadSignal(index, patience);
      while value != 0
        invariant Valid() && Later() && value == (if index < readIndex then 0 else 1)
        decreases index + 1 - readIndex, left
      {
        value, left := LoadSignal(index, left);
      }
    }
  }
}
