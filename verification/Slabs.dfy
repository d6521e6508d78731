/** The slab block allocator of include/chimaera/io/block_allocator.h as functions on
    values: coin selection, free lists, and a heap that only grows. */
module Slabs {

  datatype Block = Block(off: nat, size: nat)

  const SLABS: seq<nat> := [4096, 16384, 65536, 1048576]
  const CLASSES: nat := 4

  /** `tiles` and `live` are history: the blocks ever carved from the heap, in
      order, and those handed out and not returned. The rest is the program's. */
  datatype Heap = Heap(heapOff: nat, freeSize: int, capacity: nat, free: seq<seq<seq<Block>>>,
                       tiles: seq<Block>, live: set<Block>)

  /** Four classes, each with a free list per lane. */
  predicate Shaped(h: Heap) {
    && |h.free| == CLASSES && |h.free[0]| >= 1
    && forall k :: 0 <= k < CLASSES ==> |h.free[k]| == |h.free[0]|
  }

  function Init(lanes: nat, capacity: nat): Heap {
    Heap(0, capacity, capacity, seq(CLASSES, k => seq(lanes, l => [])), [], {})
  }

  // -------------------------------------------------------- coin selection

  /** The smallest slab that holds `size`, or the largest slab. */
  function Nearest(size: nat): (k: nat)
    ensures k < CLASSES
    ensures size <= SLABS[k] || k == CLASSES - 1
    ensures k > 0 ==> SLABS[k - 1] < size
  {
    if size <= 4096 then 0 else if size <= 16384 then 1 else if size <= 65536 then 2 else 3
  }

  /** Counts per slab class and the running buffer count of the selection loop. */
  datatype Coins = Coins(counts: seq<nat>, buffers: nat)

  function Select(c: Coins, rem: nat): Coins
    requires |c.counts| == CLASSES
    ensures |Select(c, rem).counts| == CLASSES
    decreases rem
  {
    if rem == 0 then c
    else
      var k := Nearest(rem);
      var n := if rem > SLABS[k] then rem / SLABS[k] else 1;
      var left := if rem > SLABS[k] then rem % SLABS[k] else 0;
      var counts := c.counts[k := c.counts[k] + n];
      Select(Coins(counts, (c.buffers + counts[k]) % 0x1_0000_0000), left)
  }

  function CoinSelect(size: nat): Coins { Select(Coins([0, 0, 0, 0], 0), size) }

  function Blocks(counts: seq<nat>): nat
    requires |counts| == CLASSES
  {
    counts[0] + counts[1] + counts[2] + counts[3]
  }

  function Total(counts: seq<nat>): nat
    requires |counts| == CLASSES
  {
    counts[0] * SLABS[0] + counts[1] * SLABS[1] + counts[2] * SLABS[2] + counts[3] * SLABS[3]
  }

  /** The shape of a selection: whole megabytes, and one slab for what is left. */
  function Shape(size: nat): (counts: seq<nat>)
    ensures |counts| == CLASSES
  {
    var q := size / 1048576;
    var r := size % 1048576;
    var whole: seq<nat> := [0, 0, 0, q];
    if r == 0 then whole else whole[Nearest(r) := whole[Nearest(r)] + 1]
  }

  lemma {:induction false} SelectLast(c: Coins, rem: nat)
    requires |c.counts| == CLASSES && 0 < rem <= 1048576
    ensures Select(c, rem) == Coins(c.counts[Nearest(rem) := c.counts[Nearest(rem)] + 1],
                                    (c.buffers + c.counts[Nearest(rem)] + 1) % 0x1_0000_0000)
  {
    var k := Nearest(rem);
    var c1 := Coins(c.counts[k := c.counts[k] + 1], (c.buffers + c.counts[k] + 1) % 0x1_0000_0000);
    assert Select(c, rem) == Select(c1, 0);
  }

  lemma {:induction false} SelectWhole(size: nat)
    requires size > 1048576
    ensures var q := size / 1048576;
            CoinSelect(size) == Select(Coins([0, 0, 0, q], q % 0x1_0000_0000), size % 1048576)
  {
    var q := size / 1048576;
    assert [0, 0, 0, 0][3 := 0 + q] == [0, 0, 0, q];
  }

  /** How many buffers are reserved: the largest class is counted again when it
      also holds what is left. */
  function Reserved(size: nat): nat {
    var q, r := size / 1048576, size % 1048576;
    if r == 0 then q else q + 1 + if Nearest(r) == CLASSES - 1 then q else 0
  }

  lemma {:induction false} AddMod(a: nat, b: nat)
    ensures (a % 0x1_0000_0000 + b) % 0x1_0000_0000 == (a + b) % 0x1_0000_0000
  {}

  lemma {:induction false} CoinSelectShape(size: nat)
    ensures CoinSelect(size).counts == Shape(size)
    ensures CoinSelect(size).buffers == Reserved(size) % 0x1_0000_0000
  {
    if size > 1048576 {
      LargeShape(size);
    } else if size > 0 {
      SelectLast(Coins([0, 0, 0, 0], 0), size);
      hide CoinSelect;
      if size == 1048576 {
        assert [0, 0, 0, 0][3 := 1] == [0, 0, 0, 1];
      }
    }
  }

  lemma {:induction false} LargeShape(size: nat)
    requires size > 1048576
    ensures CoinSelect(size).counts == Shape(size)
    ensures CoinSelect(size).buffers == Reserved(size) % 0x1_0000_0000
  {
    hide CoinSelect;
    var q, r := size / 1048576, size % 1048576;
    SelectWhole(size);
    if r > 0 {
      SelectLast(Coins([0, 0, 0, q], q % 0x1_0000_0000), r);
      hide Select;
      AddMod(q, Shape(size)[Nearest(r)]);
    }
  }

  /** The selection covers the request, wastes less than 1 MB - 64 KB, and the space
      reserved for the result suffices exactly when its 32-bit count does not overflow. */
  lemma {:induction false} CoinSelectCovers(size: nat)
    ensures CoinSelect(size).counts == Shape(size)
    ensures size <= Total(Shape(size)) < size + 1048576 - 65536
    ensures CoinSelect(size).buffers >= Blocks(Shape(size)) <==> Reserved(size) < 0x1_0000_0000
  {
    CoinSelectShape(size);
  }

  /** Just over 2^31 megabytes: space for one block is reserved, 2^31 + 1 are selected. */
  lemma {:induction false} BufferCountOverflows()
    ensures var size := 0x8000_0000 * 1048576 + 65537;
            CoinSelect(size).buffers == 1 && Blocks(Shape(size)) == 0x8000_0001
  {
    hide CoinSelect;
    var size := 0x8000_0000 * 1048576 + 65537;
    CoinSelectShape(size);
    assert size / 1048576 == 0x8000_0000 && size % 1048576 == 65537;
  }

  // ------------------------------------------------------------- allocation

  /** A block of class k from the free list of lane 0, else from the heap; the
      heap offset advances even when the device is full. */
  function ListAllocate(h: Heap, k: nat): (r: (Heap, Block))
    requires k < CLASSES && Shaped(h)
    ensures Shaped(r.0) && |r.0.free[0]| == |h.free[0]|
  {
    var list := h.free[k][0];
    var slab := SLABS[k];
    if list != [] then (h.(free := h.free[k := h.free[k][0 := list[1..]]]), list[0])
    else if h.heapOff + slab > h.capacity then (h.(heapOff := h.heapOff + slab), Block(0, 0))
    else (h.(heapOff := h.heapOff + slab, tiles := h.tiles + [Block(h.heapOff, slab)]), Block(h.heapOff, slab))
  }

  function Granted(h: Heap, b: Block): Heap { h.(freeSize := h.freeSize - b.size, live := h.live + {b}) }

  function AllocateSlabs(h: Heap, k: nat, count: nat): (r: (Heap, seq<Block>))
    requires k < CLASSES && Shaped(h)
    ensures Shaped(r.0) && |r.0.free[0]| == |h.free[0]|
    ensures r.0.capacity == h.capacity && |r.1| <= count
    decreases count
  {
    if count == 0 then (h, [])
    else
      var (h1, b) := ListAllocate(h, k);
      if b.size == 0 then (h1, [])
      else
        var (h2, bs) := AllocateSlabs(Granted(h1, b), k, count - 1);
        (h2, [b] + bs)
  }

  /** Classes k, k+1, ... in turn; a class that runs dry does not stop the next. */
  function AllocateFrom(h: Heap, counts: seq<nat>, k: nat): (r: (Heap, seq<Block>))
    requires |counts| == CLASSES && k <= CLASSES
    requires Shaped(h)
    ensures Shaped(r.0) && |r.0.free[0]| == |h.free[0]|
    ensures r.0.capacity == h.capacity
    decreases CLASSES - k
  {
    if k == CLASSES then (h, [])
    else
      var (h1, bs) := AllocateSlabs(h, k, counts[k]);
      var (h2, cs) := AllocateFrom(h1, counts, k + 1);
      (h2, bs + cs)
  }

  function Allocate(h: Heap, size: nat): (Heap, seq<Block>)
    requires Shaped(h)
  {
    AllocateFrom(h, CoinSelect(size).counts, 0)
  }

  function Bytes(bs: seq<Block>): nat {
    if bs == [] then 0 else bs[0].size + Bytes(bs[1..])
  }

  /** A block goes to the first class it fits; one larger than every slab is dropped. */
  function FreeClass(size: nat): nat {
    if size <= 4096 then 0 else if size <= 16384 then 1 else if size <= 65536 then 2
    else if size <= 1048576 then 3 else CLASSES
  }

  function Free(h: Heap, lane: nat, b: Block): (r: Heap)
    requires Shaped(h) && lane < |h.free[0]|
    ensures Shaped(r) && |r.free[0]| == |h.free[0]|
  {
    var k := FreeClass(b.size);
    if k == CLASSES then h
    else h.(free := h.free[k := h.free[k][lane := h.free[k][lane] + [b]]],
            freeSize := h.freeSize + b.size, live := h.live - {b})
  }
}
