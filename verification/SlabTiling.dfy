/** Over every run of allocations and returns the blocks tile a prefix of the device. */
module SlabTiling {
  import opened Common
  import opened Slabs

  // ------------------------------------------------------------------ tiles

  ghost function End(tiles: seq<Block>): nat {
    if tiles == [] then 0 else tiles[|tiles| - 1].off + tiles[|tiles| - 1].size
  }

  /** Carved one after the other from offset 0, in slab sizes. */
  ghost predicate Tiled(tiles: seq<Block>) {
    && (forall i :: 0 <= i < |tiles| ==> tiles[i].size in SLABS && tiles[i].size > 0)
    && (forall i :: 0 <= i < |tiles| ==> tiles[i].off == End(tiles[..i]))
  }

  lemma {:induction false} TilesOrdered(tiles: seq<Block>, i: nat, j: nat)
    requires Tiled(tiles) && i < j < |tiles|
    ensures tiles[i].off + tiles[i].size <= tiles[j].off
    decreases j
  {
    assert tiles[j].off == End(tiles[..j]);
    if i < j - 1 { TilesOrdered(tiles, i, j - 1); }
  }

  lemma {:induction false} TilesBelowEnd(tiles: seq<Block>, i: nat)
    requires Tiled(tiles) && i < |tiles|
    ensures tiles[i].off + tiles[i].size <= End(tiles)
  {
    if i < |tiles| - 1 { TilesOrdered(tiles, i, |tiles| - 1); }
  }

  lemma {:induction false} TilesCover(tiles: seq<Block>, x: nat)
    requires Tiled(tiles) && x < End(tiles)
    ensures exists i :: 0 <= i < |tiles| && tiles[i].off <= x < tiles[i].off + tiles[i].size
    decreases |tiles|
  {
    var n := |tiles| - 1;
    if tiles[n].off <= x {
      assert tiles[n].off <= x < tiles[n].off + tiles[n].size;
    } else {
      var front := tiles[..n];
      forall i | 0 <= i < n ensures front[i].off == End(front[..i]) { assert front[..i] == tiles[..i]; }
      TilesCover(front, x);
      var i :| 0 <= i < |front| && front[i].off <= x < front[i].off + front[i].size;
      assert tiles[i] == front[i];
    }
  }

  /** No tile is carved twice. */
  lemma {:induction false} TileOnce(tiles: seq<Block>, b: Block)
    requires Tiled(tiles)
    ensures multiset(tiles)[b] <= 1
  {
    if tiles == [] {
    } else {
      var n := |tiles| - 1;
      var front := tiles[..n];
      assert tiles == front + [tiles[n]];
      forall i | 0 <= i < n ensures front[i].off == End(front[..i]) { assert front[..i] == tiles[..i]; }
      TileOnce(front, b);
      if b in multiset(front) {
        assert b in front;
        var i :| 0 <= i < n && front[i] == b;
        TilesOrdered(tiles, i, n);
      }
    }
  }

  lemma {:induction false} TiledAppend(tiles: seq<Block>, size: nat)
    requires Tiled(tiles) && size in SLABS && size > 0
    ensures Tiled(tiles + [Block(End(tiles), size)])
    ensures Block(End(tiles), size) !in tiles
  {
    var t := tiles + [Block(End(tiles), size)];
    forall i | 0 <= i < |t| ensures t[i].off == End(t[..i]) {
      if i < |tiles| { assert t[..i] == tiles[..i]; } else { assert t[..i] == tiles; }
    }
    forall i | 0 <= i < |tiles| ensures tiles[i] != Block(End(tiles), size) { TilesBelowEnd(tiles, i); }
  }

  // ----------------------------------------------------------- bytes in use

  ghost function LiveBytes(tiles: seq<Block>, live: set<Block>): nat {
    if tiles == [] then 0
    else LiveBytes(tiles[..|tiles| - 1], live)
         + if tiles[|tiles| - 1] in live then tiles[|tiles| - 1].size else 0
  }

  lemma {:induction false} LiveBytesBound(tiles: seq<Block>, live: set<Block>)
    requires Tiled(tiles)
    ensures LiveBytes(tiles, live) <= End(tiles)
  {
    if tiles == [] {
    } else {
      var front := tiles[..|tiles| - 1];
      forall i | 0 <= i < |front| ensures front[i].off == End(front[..i]) { assert front[..i] == tiles[..i]; }
      LiveBytesBound(front, live);
    }
  }

  lemma {:induction false} LiveBytesIgnores(tiles: seq<Block>, live: set<Block>, b: Block)
    requires b !in tiles
    ensures LiveBytes(tiles, live + {b}) == LiveBytes(tiles, live)
  {
    if tiles == [] {
    } else {
      LiveBytesIgnores(tiles[..|tiles| - 1], live, b);
    }
  }

  lemma {:induction false} LiveBytesAdd(tiles: seq<Block>, live: set<Block>, b: Block)
    requires multiset(tiles)[b] == 1 && b !in live
    ensures LiveBytes(tiles, live + {b}) == LiveBytes(tiles, live) + b.size
  {
    var n := |tiles| - 1;
    assert tiles == tiles[..n] + [tiles[n]];
    if tiles[n] == b {
      assert b !in multiset(tiles[..n]);
      LiveBytesIgnores(tiles[..n], live, b);
    } else {
      LiveBytesAdd(tiles[..n], live, b);
    }
  }

  lemma {:induction false} CarveBytes(tiles: seq<Block>, live: set<Block>, b: Block)
    requires b !in tiles
    ensures LiveBytes(tiles + [b], live + {b}) == LiveBytes(tiles, live) + b.size
    ensures End(tiles + [b]) == b.off + b.size
  {
    assert (tiles + [b])[..|tiles|] == tiles;
    LiveBytesIgnores(tiles, live, b);
  }

  // ------------------------------------------------------------- free lists

  ghost function ClassBlocks(free: seq<seq<seq<Block>>>): multiset<Block> {
    if free == [] then multiset{} else Union(free[0]) + ClassBlocks(free[1..])
  }

  ghost function FreeBlocks(h: Heap): multiset<Block> { ClassBlocks(h.free) }

  lemma {:induction false} ClassBlocksUpdate(free: seq<seq<seq<Block>>>, k: nat, l: nat, list: seq<Block>)
    requires k < |free| && l < |free[k]|
    ensures multiset(free[k][l]) <= ClassBlocks(free)
    ensures ClassBlocks(free[k := free[k][l := list]]) == ClassBlocks(free) - multiset(free[k][l]) + multiset(list)
  {
    hide Union;
    if k == 0 {
      UnionUpdate(free[0], l, list);
      assert free[k := free[k][l := list]][1..] == free[1..];
    } else {
      assert free[k := free[k][l := list]][1..] == free[1..][k - 1 := free[k][l := list]];
      ClassBlocksUpdate(free[1..], k - 1, l, list);
    }
  }

  lemma {:induction false} PopFront(s: seq<Block>)
    requires s != []
    ensures multiset(s[1..]) == multiset(s) - multiset{s[0]}
    ensures s[0] in multiset(s)
  {
    assert s == [s[0]] + s[1..];
  }

  /** Free list k holds only blocks of slab size k, in every lane. */
  ghost predicate ListsSorted(free: seq<seq<seq<Block>>>)
    requires |free| == CLASSES
  {
    forall k, l, i :: 0 <= k < CLASSES && 0 <= l < |free[k]| && 0 <= i < |free[k][l]| ==>
      free[k][l][i].size == SLABS[k]
  }

  // -------------------------------------------------------------- invariant

  /** Live and listed blocks together are exactly the carved tiles; once an
      extension of the heap has failed, no later one succeeds. */
  ghost predicate Inv(h: Heap) {
    && Shaped(h)
    && Tiled(h.tiles) && End(h.tiles) <= h.capacity
    && (h.heapOff == End(h.tiles) || h.heapOff > h.capacity)
    && multiset(h.live) + FreeBlocks(h) == multiset(h.tiles)
    && ListsSorted(h.free)
    && h.freeSize == h.capacity - LiveBytes(h.tiles, h.live)
  }

  lemma {:induction false} NoClassBlocks(free: seq<seq<seq<Block>>>)
    requires forall k, l :: 0 <= k < |free| && 0 <= l < |free[k]| ==> free[k][l] == []
    ensures ClassBlocks(free) == multiset{}
  {
    if free == [] {
    } else {
      UnionEmpty(free[0]);
      NoClassBlocks(free[1..]);
    }
  }

  lemma {:induction false} InitInv(lanes: nat, capacity: nat)
    requires lanes >= 1
    ensures Inv(Init(lanes, capacity))
  {
    var h := Init(lanes, capacity);
    NoClassBlocks(h.free);
  }

  /** A listed block is a tile that is not in use. */
  lemma {:induction false} ListedNotLive(h: Heap, k: nat, l: nat, i: nat)
    requires Inv(h) && k < CLASSES && l < |h.free[k]| && i < |h.free[k][l]|
    ensures var b := h.free[k][l][i]; b !in h.live && multiset(h.tiles)[b] == 1
  {
    hide Tiled, End, LiveBytes, ClassBlocks, ListsSorted;
    var b := h.free[k][l][i];
    ClassBlocksUpdate(h.free, k, l, h.free[k][l]);
    assert b in multiset(h.free[k][l]);
    TileOnce(h.tiles, b);
  }

  lemma {:induction false} GrantFromList(h: Heap, k: nat)
    requires Inv(h) && k < CLASSES && h.free[k][0] != []
    ensures var (h1, b) := ListAllocate(h, k); b.size == SLABS[k] && b !in h.live && Inv(Granted(h1, b))
  {
    hide Tiled, End, LiveBytes, ClassBlocks;
    var (h1, b) := ListAllocate(h, k);
    var list := h.free[k][0];
    ListedNotLive(h, k, 0, 0);
    ClassBlocksUpdate(h.free, k, 0, list[1..]);
    PopFront(list);
    LiveBytesAdd(h.tiles, h.live, b);
    forall k', l, i | 0 <= k' < CLASSES && 0 <= l < |h1.free[k']| && 0 <= i < |h1.free[k'][l]|
      ensures h1.free[k'][l][i].size == SLABS[k']
    {
      if k' == k && l == 0 { assert h1.free[k'][l][i] == h.free[k][0][i + 1]; }
    }
    assert multiset(h.live + {b}) == multiset(h.live) + multiset{b};
  }

  lemma {:induction false} GrantFromHeap(h: Heap, k: nat)
    requires Inv(h) && k < CLASSES && h.free[k][0] == []
    ensures var (h1, b) := ListAllocate(h, k);
            if b.size == 0 then Inv(h1) else b.size == SLABS[k] && b !in h.live && Inv(Granted(h1, b))
  {
    hide Tiled, ClassBlocks, ListsSorted, LiveBytes, End;
    var (h1, b) := ListAllocate(h, k);
    if b.size > 0 {
      TiledAppend(h.tiles, SLABS[k]);
      CarveBytes(h.tiles, h.live, b);
      assert b !in multiset(h.tiles);
      assert multiset(h.live)[b] == 0;
      assert multiset(h.live + {b}) == multiset(h.live) + multiset{b};
    }
  }

  lemma {:induction false} Grant(h: Heap, k: nat)
    requires Inv(h) && k < CLASSES
    ensures var (h1, b) := ListAllocate(h, k);
            if b.size == 0 then Inv(h1) && h1.live == h.live
            else b.size == SLABS[k] && Inv(Granted(h1, b)) && Fresh(h.live, [b], Granted(h1, b).live)
  {
    hide Tiled, End, LiveBytes, FreeBlocks, ListsSorted;
    if h.free[k][0] != [] { GrantFromList(h, k); } else { GrantFromHeap(h, k); }
  }

  /** The blocks granted to a request: new to the client, and no two alike. */
  ghost predicate Fresh(live: set<Block>, bs: seq<Block>, live1: set<Block>) {
    && (forall i :: 0 <= i < |bs| ==> bs[i] !in live)
    && (forall i, j :: 0 <= i < j < |bs| ==> bs[i] != bs[j])
    && (forall b :: b in live1 <==> b in live || b in bs)
  }

  lemma {:induction false} FreshAppend(l0: set<Block>, bs: seq<Block>, l1: set<Block>, cs: seq<Block>, l2: set<Block>)
    requires Fresh(l0, bs, l1) && Fresh(l1, cs, l2)
    ensures Fresh(l0, bs + cs, l2)
  {
    forall i, j | 0 <= i < j < |bs + cs| ensures (bs + cs)[i] != (bs + cs)[j] {
      if i < |bs| <= j { assert bs[i] in l1 && cs[j - |bs|] !in l1; }
    }
  }

  lemma {:induction false} AllocateSlabsInv(h: Heap, k: nat, count: nat)
    requires Inv(h) && k < CLASSES
    ensures var (h1, bs) := AllocateSlabs(h, k, count);
            && Inv(h1) && Fresh(h.live, bs, h1.live)
            && (forall i :: 0 <= i < |bs| ==> bs[i].size == SLABS[k])
    decreases count
  {
    hide Tiled, End, LiveBytes, FreeBlocks, ListsSorted, ListAllocate, Granted;
    if count == 0 {
    } else {
      Grant(h, k);
      var (h1, b) := ListAllocate(h, k);
      if b.size > 0 {
        var g := Granted(h1, b);
        AllocateSlabsInv(g, k, count - 1);
        var (h2, bs) := AllocateSlabs(g, k, count - 1);
        FreshAppend(h.live, [b], g.live, bs, h2.live);
      }
    }
  }

  lemma {:induction false} AllocateFromInv(h: Heap, counts: seq<nat>, k: nat)
    requires Inv(h) && |counts| == CLASSES && k <= CLASSES
    ensures var (h1, bs) := AllocateFrom(h, counts, k); Inv(h1) && Fresh(h.live, bs, h1.live)
    decreases CLASSES - k
  {
    hide Tiled, End, LiveBytes, FreeBlocks, ListsSorted, AllocateSlabs;
    if k >= CLASSES {
    } else {
      AllocateSlabsInv(h, k, counts[k]);
      var (h1, bs) := AllocateSlabs(h, k, counts[k]);
      AllocateFromInv(h1, counts, k + 1);
      var (h2, cs) := AllocateFrom(h1, counts, k + 1);
      FreshAppend(h.live, bs, h1.live, cs, h2.live);
    }
  }

  lemma {:induction false} LiveIsSlab(h: Heap, b: Block)
    requires Inv(h) && b in h.live
    ensures b in h.tiles && multiset(h.tiles)[b] == 1
    ensures FreeClass(b.size) < CLASSES && b.size == SLABS[FreeClass(b.size)]
  {
    hide LiveBytes, ClassBlocks, ListsSorted;
    assert b in multiset(h.live);
    assert b in multiset(h.tiles);
    TileOnce(h.tiles, b);
  }

  lemma {:induction false} FreeInv(h: Heap, lane: nat, b: Block)
    requires Inv(h) && lane < |h.free[0]| && b in h.live
    ensures Inv(Free(h, lane, b))
  {
    hide Tiled, End, LiveBytes, ClassBlocks;
    LiveIsSlab(h, b);
    var k := FreeClass(b.size);
    ClassBlocksUpdate(h.free, k, lane, h.free[k][lane] + [b]);
    assert multiset(h.live - {b}) == multiset(h.live) - multiset{b};
    LiveBytesAdd(h.tiles, h.live - {b}, b);
    assert h.live - {b} + {b} == h.live;
  }

  // ------------------------------------------------------------------- runs

  datatype Op = AllocateOp(size: nat) | FreeOp(lane: nat, block: Block)

  /** A client returns only blocks it holds, to a lane that exists. */
  ghost predicate Legal(h: Heap, op: Op) {
    Shaped(h) && (op.FreeOp? ==> op.lane < |h.free[0]| && op.block in h.live)
  }

  ghost function Step(h: Heap, op: Op): Heap
    requires Legal(h, op)
  {
    match op
    case AllocateOp(size) => Allocate(h, size).0
    case FreeOp(lane, b) => Free(h, lane, b)
  }

  ghost predicate IsRun(hs: seq<Heap>, ops: seq<Op>) {
    && |hs| == |ops| + 1
    && forall i :: 0 <= i < |ops| ==> Legal(hs[i], ops[i]) && hs[i + 1] == Step(hs[i], ops[i])
  }

  lemma {:induction false} RunInv(hs: seq<Heap>, ops: seq<Op>, i: nat, lanes: nat, capacity: nat)
    requires IsRun(hs, ops) && lanes >= 1 && hs[0] == Init(lanes, capacity) && i < |hs|
    ensures Inv(hs[i])
    ensures hs[i].capacity == capacity
  {
    if i == 0 {
      InitInv(lanes, capacity);
    } else {
      RunInv(hs, ops, i - 1, lanes, capacity);
      assert hs[i] == Step(hs[i - 1], ops[i - 1]);
      match ops[i - 1]
      case AllocateOp(size) => AllocateFromInv(hs[i - 1], CoinSelect(size).counts, 0);
      case FreeOp(lane, b) => FreeInv(hs[i - 1], lane, b);
    }
  }

  ghost predicate Overlap(a: Block, b: Block) {
    a.off < b.off + b.size && b.off < a.off + a.size
  }

  ghost predicate Covers(b: Block, x: nat) { b.off <= x < b.off + b.size }

  ghost function Known(h: Heap): multiset<Block>
  {
    multiset(h.live) + FreeBlocks(h)
  }

  /** In every state of every run: no block is known twice, different blocks are
      disjoint, together they cover exactly a prefix of the device no longer than
      its capacity, every free list holds its own slab size, and the free-space
      counter is the capacity less the bytes in use, never negative. */
  lemma {:induction false} RunsTileADevicePrefix(hs: seq<Heap>, ops: seq<Op>, i: nat, lanes: nat, capacity: nat)
    requires IsRun(hs, ops) && lanes >= 1 && hs[0] == Init(lanes, capacity) && i < |hs|
    ensures Shaped(hs[i]) && ListsSorted(hs[i].free)
    ensures forall b :: b in Known(hs[i]) ==> Known(hs[i])[b] == 1
    ensures forall a, b :: a in Known(hs[i]) && b in Known(hs[i]) && a != b ==> !Overlap(a, b)
    ensures End(hs[i].tiles) <= capacity
    ensures forall x: nat :: Covers(Block(0, End(hs[i].tiles)), x) <==> exists b :: b in Known(hs[i]) && Covers(b, x)
    ensures hs[i].freeSize == capacity - LiveBytes(hs[i].tiles, hs[i].live) && hs[i].freeSize >= 0
  {
    RunInv(hs, ops, i, lanes, capacity);
    var h := hs[i];
    LiveBytesBound(h.tiles, h.live);
    forall b | b in Known(h) ensures Known(h)[b] == 1 && b in h.tiles { TileOnce(h.tiles, b); }
    forall a, b | a in Known(h) && b in Known(h) && a != b ensures !Overlap(a, b) {
      var p :| 0 <= p < |h.tiles| && h.tiles[p] == a;
      var q :| 0 <= q < |h.tiles| && h.tiles[q] == b;
      if p < q { TilesOrdered(h.tiles, p, q); } else { TilesOrdered(h.tiles, q, p); }
    }
    forall x: nat ensures Covers(Block(0, End(h.tiles)), x) <==> exists b :: b in Known(h) && Covers(b, x) {
      if x < End(h.tiles) {
        TilesCover(h.tiles, x);
        var p :| 0 <= p < |h.tiles| && h.tiles[p].off <= x < h.tiles[p].off + h.tiles[p].size;
        assert h.tiles[p] in Known(h) && Covers(h.tiles[p], x);
      }
      if b :| b in Known(h) && Covers(b, x) {
        var p :| 0 <= p < |h.tiles| && h.tiles[p] == b;
        TilesBelowEnd(h.tiles, p);
      }
    }
  }
}
