/** The allocator object: its loops compute the functions of Slabs in place. */
module BlockAllocators {
  import opened Slabs
  import opened SlabTiling
  import opened SlabReuse

  method FindNearestSlab(size: nat) returns (slabId: nat, slabSize: nat)
    ensures slabId == Nearest(size) && slabSize == SLABS[slabId]
  {
    slabId := 0;
    while slabId < |SLABS|
      invariant slabId <= |SLABS|
      invariant forall i :: 0 <= i < slabId ==> SLABS[i] < size
    {
      if SLABS[slabId] >= size { break; }
      slabId := slabId + 1;
    }
    if slabId == |SLABS| { slabId := slabId - 1; }
    slabSize := SLABS[slabId];
  }

  method SelectCoins(size: nat) returns (counts: seq<nat>, bufferCount: nat)
    ensures Coins(counts, bufferCount) == CoinSelect(size)
  {
    counts, bufferCount := [0, 0, 0, 0], 0;
    var rem := size;
    while rem > 0
      invariant |counts| == CLASSES
      invariant Select(Coins(counts, bufferCount), rem) == CoinSelect(size)
      decreases rem
    {
      var k, slab := FindNearestSlab(rem);
      if rem > slab {
        counts := counts[k := counts[k] + rem / slab];
        rem := rem % slab;
      } else {
        counts := counts[k := counts[k] + 1];
        rem := 0;
      }
      bufferCount := (bufferCount + counts[k]) % 0x1_0000_0000;
    }
  }

  lemma {:induction false} AllocateKeeps(h: Heap, size: nat)
    requires Inv(h)
    ensures var (h1, bs) := Allocate(h, size);
            && Inv(h1) && Fresh(h.live, bs, h1.live)
            && (Bytes(bs) >= size <==> Counts(bs) == Shape(size))
  {
    hide Tiled, End, LiveBytes, FreeBlocks, ListsSorted, AllocateFrom, Counts, Shape;
    AllocateFromInv(h, CoinSelect(size).counts, 0);
    SatisfiedIff(h, size);
  }

  /** One turn of the loop over the classes, after `acc` was collected. */
  lemma {:induction false} AllocateFromNext(h: Heap, counts: seq<nat>, k: nat, acc: seq<Block>)
    requires Shaped(h) && |counts| == CLASSES && k < CLASSES
    ensures var all := AllocateFrom(h, counts, k); var (h1, bs) := AllocateSlabs(h, k, counts[k]);
            var rest := AllocateFrom(h1, counts, k + 1);
            && all.0 == rest.0 && acc + all.1 == (acc + bs) + rest.1 && Bytes(acc + bs) == Bytes(acc) + Bytes(bs)
  {
    hide AllocateSlabs;
    var (h1, bs) := AllocateSlabs(h, k, counts[k]);
    BytesAppend(acc, bs);
    assert acc + (bs + AllocateFrom(h1, counts, k + 1).1) == (acc + bs) + AllocateFrom(h1, counts, k + 1).1;
  }

  lemma {:induction false} AllocateFromEnd(h: Heap, counts: seq<nat>, acc: seq<Block>)
    requires Shaped(h) && |counts| == CLASSES
    ensures AllocateFrom(h, counts, CLASSES).0 == h && acc + AllocateFrom(h, counts, CLASSES).1 == acc
  {
    assert acc + [] == acc;
  }

  /** One turn of the loop over the blocks of a class, after `got` was found. */
  lemma {:induction false} AllocateSlabsNext(h: Heap, k: nat, count: nat, got: seq<Block>)
    requires Shaped(h) && k < CLASSES && count > 0
    ensures var all := AllocateSlabs(h, k, count); var (h1, b) := ListAllocate(h, k);
            if b.size == 0 then all.0 == h1 && got + all.1 == got
            else var rest := AllocateSlabs(Granted(h1, b), k, count - 1);
                 && all.0 == rest.0 && got + all.1 == (got + [b]) + rest.1
                 && Bytes(got + [b]) == Bytes(got) + b.size
  {
    hide ListAllocate;
    var (h1, b) := ListAllocate(h, k);
    if b.size == 0 {
      assert got + [] == got;
    } else {
      var rest := AllocateSlabs(Granted(h1, b), k, count - 1).1;
      assert got + ([b] + rest) == (got + [b]) + rest;
      BytesAppend(got, [b]);
      assert [b][1..] == [] && Bytes([b]) == b.size;
    }
  }

  lemma {:induction false} AllocateSlabsEnd(h: Heap, k: nat, got: seq<Block>)
    requires Shaped(h) && k < CLASSES
    ensures AllocateSlabs(h, k, 0).0 == h && got + AllocateSlabs(h, k, 0).1 == got
  {
    assert got + [] == got;
  }

  class BlockAllocator {
    var heapOff: nat
    var freeSize: int
    var maxHeapSize: nat
    var freeList: seq<seq<seq<Block>>>
    ghost var tiles: seq<Block>
    ghost var live: set<Block>

    ghost function State(): Heap
      reads this
    {
      Heap(heapOff, freeSize, maxHeapSize, freeList, tiles, live)
    }

    constructor (numLanes: nat, maxHeapSize: nat)
      ensures State() == Init(numLanes, maxHeapSize)
    {
      this.maxHeapSize := maxHeapSize;
      heapOff, freeSize := 0, maxHeapSize;
      freeList := seq(CLASSES, k => seq(numLanes, l => []));
      tiles, live := [], {};
    }

    method ListAllocate(slabId: nat) returns (block: Block)
      requires slabId < CLASSES && Shaped(State())
      modifies this
      ensures (State(), block) == Slabs.ListAllocate(old(State()), slabId)
    {
      var list := freeList[slabId][0];
      if list != [] {
        block := list[0];
        freeList := freeList[slabId := freeList[slabId][0 := list[1..]]];
      } else {
        block := Block(heapOff, SLABS[slabId]);
        heapOff := heapOff + SLABS[slabId];
        if block.off + block.size > maxHeapSize {
          block := Block(0, 0);
        } else {
          tiles := tiles + [block];
        }
      }
    }

    /** One block, accounted for if there was one. */
    method TakeBlock(slabId: nat) returns (block: Block)
      requires slabId < CLASSES && Shaped(State())
      modifies this
      ensures var (h, b) := Slabs.ListAllocate(old(State()), slabId);
              block == b && State() == if b.size == 0 then h else Granted(h, b)
      ensures Shaped(State())
    {
      hide Slabs.ListAllocate;
      block := ListAllocate(slabId);
      if block.size != 0 {
        freeSize := freeSize - block.size;
        live := live + {block};
      }
    }

    method AllocateSlabs(slabId: nat, count: nat, buffers: seq<Block>, total: nat)
      returns (buffers': seq<Block>, total': nat)
      requires slabId < CLASSES && Shaped(State())
      modifies this
      ensures State() == Slabs.AllocateSlabs(old(State()), slabId, count).0
      ensures buffers' == buffers + Slabs.AllocateSlabs(old(State()), slabId, count).1
      ensures total' == total + Bytes(Slabs.AllocateSlabs(old(State()), slabId, count).1)
    {
      assert Bytes([]) == 0;
      hide Slabs.ListAllocate, Slabs.AllocateSlabs, Bytes, Shaped, Granted;
      ghost var all := Slabs.AllocateSlabs(State(), slabId, count);
      ghost var got: seq<Block> := [];
      buffers', total' := buffers, total;
      var i := 0;
      assert all.1 == [] + all.1;
      while i < count
        invariant 0 <= i <= count && Shaped(State())
        invariant buffers' == buffers + got && total' == total + Bytes(got)
        invariant all.0 == Slabs.AllocateSlabs(State(), slabId, count - i).0
        invariant all.1 == got + Slabs.AllocateSlabs(State(), slabId, count - i).1
      {
        AllocateSlabsNext(State(), slabId, count - i, got);
        var block := TakeBlock(slabId);
        if block.size == 0 {
          return;
        }
        got := got + [block];
        buffers' := buffers' + [block];
        total' := total' + block.size;
        i := i + 1;
      }
      AllocateSlabsEnd(State(), slabId, got);
    }

    /** The space found is the request rounded up to slabs, or less when the
        device is full; the object keeps its invariant either way, and nothing
        that was in use is handed out. */
    method Allocate(size: nat) returns (buffers: seq<Block>, total: nat)
      requires Shaped(State())
      modifies this
      ensures (State(), buffers) == Slabs.Allocate(old(State()), size) && total == Bytes(buffers)
      ensures old(Inv(State())) ==> Inv(State()) && Fresh(old(live), buffers, live)
      ensures old(Inv(State())) ==> (total >= size <==> Counts(buffers) == Shape(size))
    {
      assert Bytes([]) == 0;
      hide Inv, Slabs.AllocateSlabs, AllocateFrom, CoinSelect, Shape, Counts, Fresh, Bytes;
      var counts, bufferCount := SelectCoins(size);
      buffers, total := [], 0;
      ghost var all := Slabs.Allocate(State(), size);
      assert all.1 == [] + all.1;
      for k := 0 to CLASSES
        invariant Shaped(State()) && total == Bytes(buffers)
        invariant all.0 == AllocateFrom(State(), counts, k).0
        invariant all.1 == buffers + AllocateFrom(State(), counts, k).1
      {
        AllocateFromNext(State(), counts, k, buffers);
        buffers, total := AllocateSlabs(k, counts[k], buffers, total);
      }
      AllocateFromEnd(State(), counts, buffers);
      if old(Inv(State())) {
        AllocateKeeps(old(State()), size);
      }
    }

    method Free(lane: nat, block: Block)
      requires Shaped(State()) && lane < |freeList[0]|
      modifies this
      ensures State() == Slabs.Free(old(State()), lane, block)
      ensures old(Inv(State())) && block in old(live) ==> Inv(State())
    {
      for k := 0 to CLASSES
        invariant State() == old(State())
        invariant forall i :: 0 <= i < k ==> SLABS[i] < block.size
      {
        if block.size <= SLABS[k] {
          assert (k > 0 ==> SLABS[0] < block.size) && (k > 1 ==> SLABS[1] < block.size) && (k > 2 ==>
              SLABS[2] < block.size);
          assert FreeClass(block.size) == k;
          freeList := freeList[k := freeList[k][lane := freeList[k][lane] + [block]]];
          freeSize := freeSize + block.size;
          live := live - {block};
          if old(Inv(State())) && block in old(live) { FreeInv(old(State()), lane, block); }
          return;
        }
      }
      assert SLABS[3] < block.size;
      if old(Inv(State())) && block in old(live) { FreeInv(old(State()), lane, block); }
    }
  }
}
