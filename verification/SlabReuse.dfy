/** Returned blocks are found again: a satisfied request, once returned, can be
    repeated without touching the heap. */
module SlabReuse {
  import opened Slabs
  import opened SlabTiling

  function CountClass(bs: seq<Block>, k: nat): nat {
    if bs == [] then 0 else (if FreeClass(bs[0].size) == k then 1 else 0) + CountClass(bs[1..], k)
  }

  function Counts(bs: seq<Block>): (c: seq<nat>)
    ensures |c| == CLASSES
  {
    [CountClass(bs, 0), CountClass(bs, 1), CountClass(bs, 2), CountClass(bs, 3)]
  }

  lemma {:induction false} CountAppend(a: seq<Block>, b: seq<Block>, k: nat)
    ensures CountClass(a + b, k) == CountClass(a, k) + CountClass(b, k)
  {
    if a == [] {
      assert a + b == b;
    } else {
      assert (a + b)[0] == a[0] && (a + b)[1..] == a[1..] + b;
      CountAppend(a[1..], b, k);
    }
  }

  /** Take out one block that is there. */
  lemma {:induction false} Remove(b: seq<Block>, x: Block, k: nat) returns (rest: seq<Block>)
    requires x in multiset(b)
    ensures multiset(rest) == multiset(b) - multiset{x}
    ensures CountClass(b, k) == CountClass([x], k) + CountClass(rest, k)
  {
    hide CountClass;
    assert x in b;
    var i :| 0 <= i < |b| && b[i] == x;
    rest := b[..i] + b[i + 1..];
    assert b == b[..i] + ([x] + b[i + 1..]);
    CountAppend(b[..i], [x] + b[i + 1..], k);
    CountAppend([x], b[i + 1..], k);
    CountAppend(b[..i], b[i + 1..], k);
  }

  /** Counting does not depend on the order. */
  lemma {:induction false} CountPermuted(a: seq<Block>, b: seq<Block>, k: nat)
    requires multiset(a) == multiset(b)
    ensures CountClass(a, k) == CountClass(b, k)
    decreases |a|
  {
    hide CountClass;
    if a == [] {
      assert |multiset(a)| == |multiset(b)|;
    } else {
      var x, a' := a[0], a[1..];
      assert a == [x] + a';
      CountAppend([x], a', k);
      var rest := Remove(b, x, k);
      CountPermuted(a', rest, k);
    }
  }

  lemma {:induction false} SameClass(bs: seq<Block>, k: nat, j: nat)
    requires k < CLASSES && forall i :: 0 <= i < |bs| ==> bs[i].size == SLABS[k]
    ensures CountClass(bs, j) == if j == k then |bs| else 0
    ensures Bytes(bs) == |bs| * SLABS[k]
  {
    if bs == [] {
    } else {
      SameClass(bs[1..], k, j);
    }
  }

  lemma {:induction false} BytesAppend(a: seq<Block>, b: seq<Block>)
    ensures Bytes(a + b) == Bytes(a) + Bytes(b)
  {
    if a == [] {
      assert a + b == b;
    } else {
      assert (a + b)[0] == a[0] && (a + b)[1..] == a[1..] + b;
      BytesAppend(a[1..], b);
    }
  }

  /** What a request yields, class by class: never more than was selected. */
  ghost predicate Within(bs: seq<Block>, counts: seq<nat>, k: nat)
    requires |counts| == CLASSES
  {
    && (forall j :: 0 <= j < k && j < CLASSES ==> Counts(bs)[j] == 0)
    && (forall j :: k <= j < CLASSES ==> Counts(bs)[j] <= counts[j])
    && |bs| == Blocks(Counts(bs)) && Bytes(bs) == Total(Counts(bs))
  }

  lemma {:induction false} WithinEmpty(counts: seq<nat>)
    requires |counts| == CLASSES
    ensures Within([], counts, CLASSES)
  {}

  lemma {:induction false} WithinStep(bs: seq<Block>, cs: seq<Block>, counts: seq<nat>, k: nat)
    requires |counts| == CLASSES && k < CLASSES
    requires |bs| <= counts[k] && forall i :: 0 <= i < |bs| ==> bs[i].size == SLABS[k]
    requires Within(cs, counts, k + 1)
    ensures Within(bs + cs, counts, k)
  {
    BytesAppend(bs, cs);
    forall j | 0 <= j < CLASSES
      ensures Counts(bs + cs)[j] == (if j == k then |bs| else 0) + Counts(cs)[j]
    {
      SameClass(bs, k, j);
      CountAppend(bs, cs, j);
    }
    SameClass(bs, k, k);
  }

  lemma {:induction false} AllocateWithin(h: Heap, counts: seq<nat>, k: nat)
    requires Inv(h) && |counts| == CLASSES && k <= CLASSES
    ensures Within(AllocateFrom(h, counts, k).1, counts, k)
    decreases CLASSES - k
  {
    hide Tiled, End, LiveBytes, FreeBlocks, ListsSorted, AllocateSlabs, Within;
    if k < CLASSES {
      AllocateSlabsInv(h, k, counts[k]);
      var (h1, bs) := AllocateSlabs(h, k, counts[k]);
      AllocateWithin(h1, counts, k + 1);
      WithinStep(bs, AllocateFrom(h1, counts, k + 1).1, counts, k);
    } else {
      WithinEmpty(counts);
    }
  }

  /** Every selected block is needed: without any one of them the rest falls
      short of the request. */
  lemma {:induction false} ShapeMinimal(size: nat, c: seq<nat>)
    requires |c| == CLASSES && forall j :: 0 <= j < CLASSES ==> c[j] <= Shape(size)[j]
    ensures Total(c) >= size <==> c == Shape(size)
  {
    CoinSelectCovers(size);
    var s := Shape(size);
    if c != s {
      assert c[0] < s[0] || c[1] < s[1] || c[2] < s[2] || c[3] < s[3];
    }
  }

  /** A caller that sees at least the bytes it asked for got every selected block. */
  lemma {:induction false} SatisfiedIff(h: Heap, size: nat)
    requires Inv(h)
    ensures var bs := Allocate(h, size).1; Bytes(bs) >= size <==> Counts(bs) == Shape(size)
  {
    hide Tiled, End, LiveBytes, FreeBlocks, ListsSorted, Shape, CoinSelect, AllocateFrom, Counts;
    CoinSelectShape(size);
    AllocateWithin(h, Shape(size), 0);
    ShapeMinimal(size, Counts(Allocate(h, size).1));
  }

  // ------------------------------------------------- when a request is served

  /** What lane 0 lacks of class k, in blocks and in bytes. */
  function Short(h: Heap, count: nat, k: nat): nat
    requires Shaped(h) && k < CLASSES
  {
    if count <= Listed(h, k) then 0 else count - Listed(h, k)
  }

  function Cost(n: nat, k: nat): nat
    requires k < CLASSES
  {
    n * SLABS[k]
  }

  /** The bytes that classes k, k+1, ... must take from the heap. */
  function Need(h: Heap, counts: seq<nat>, k: nat): nat
    requires Shaped(h) && |counts| == CLASSES && k <= CLASSES
    decreases CLASSES - k
  {
    if k == CLASSES then 0 else Cost(Short(h, counts[k], k), k) + Need(h, counts, k + 1)
  }

  /** The heap can give n bytes; nothing is asked of it when n is zero. */
  predicate Fits(h: Heap, n: nat) { n == 0 || h.heapOff + n <= h.capacity }

  function SumFrom(counts: seq<nat>, k: nat): nat
    requires k <= |counts|
    decreases |counts| - k
  {
    if k == |counts| then 0 else counts[k] + SumFrom(counts, k + 1)
  }

  lemma {:induction false} CostStep(n: nat, k: nat)
    requires k < CLASSES && n > 0
    ensures Cost(n, k) == SLABS[k] + Cost(n - 1, k) >= SLABS[k]
  {}

  /** A listed block, or one from the heap if it fits. */
  lemma {:induction false} TakeOne(h: Heap, k: nat)
    requires Shaped(h) && ListsSorted(h.free) && k < CLASSES
    ensures var (h1, b) := ListAllocate(h, k);
            && ListsSorted(h1.free) && h1.capacity == h.capacity
            && (forall j :: 0 <= j < CLASSES && j != k ==> h1.free[j] == h.free[j])
            && (if Listed(h, k) > 0
                then b.size == SLABS[k] && h1.heapOff == h.heapOff && Listed(h1, k) == Listed(h, k) - 1
                else && h1.heapOff == h.heapOff + SLABS[k] && Listed(h1, k) == 0
                     && b.size == if h.heapOff + SLABS[k] <= h.capacity then SLABS[k] else 0)
            && SLABS[k] > 0
  {
    var (h1, b) := ListAllocate(h, k);
    if h.free[k][0] != [] {
      forall k', l, i | 0 <= k' < CLASSES && 0 <= l < |h1.free[k']| && 0 <= i < |h1.free[k'][l]|
        ensures h1.free[k'][l][i].size == SLABS[k']
      {
        if k' == k && l == 0 { assert h1.free[k'][l][i] == h.free[k][0][i + 1]; }
      }
    }
  }

  /** One class gets all its blocks exactly when the heap can give what lane 0 lacks. */
  lemma {:induction false} ClassServedIff(h: Heap, k: nat, count: nat)
    requires Shaped(h) && ListsSorted(h.free) && k < CLASSES
    ensures var (h1, bs) := AllocateSlabs(h, k, count); var cost := Cost(Short(h, count, k), k);
            && (|bs| == count <==> Fits(h, cost))
            && (|bs| == count ==> h1.heapOff == h.heapOff + cost)
            && ListsSorted(h1.free) && h1.capacity == h.capacity
            && forall j :: 0 <= j < CLASSES && j != k ==> h1.free[j] == h.free[j]
    decreases count
  {
    if count == 0 {
    } else {
      hide ListAllocate, Cost, ListsSorted;
      var (h1, b) := ListAllocate(h, k);
      TakeOne(h, k);
      if Short(h, count, k) > 0 { CostStep(Short(h, count, k), k); }
      if b.size > 0 { ClassServedIff(Granted(h1, b), k, count - 1); }
    }
  }

  lemma {:induction false} NeedFrame(h: Heap, h1: Heap, counts: seq<nat>, k: nat)
    requires Shaped(h) && Shaped(h1) && |counts| == CLASSES && k <= CLASSES
    requires forall j :: k <= j < CLASSES ==> h1.free[j] == h.free[j]
    ensures Need(h1, counts, k) == Need(h, counts, k)
    decreases CLASSES - k
  {
    hide Cost;
    if k == CLASSES {
    } else {
      NeedFrame(h, h1, counts, k + 1);
    }
  }

  lemma {:induction false} ClassesServedIff(h: Heap, counts: seq<nat>, k: nat)
    requires Shaped(h) && ListsSorted(h.free) && |counts| == CLASSES && k <= CLASSES
    ensures var (h1, bs) := AllocateFrom(h, counts, k);
            && |bs| <= SumFrom(counts, k)
            && (|bs| == SumFrom(counts, k) <==> Fits(h, Need(h, counts, k)))
            && (|bs| == SumFrom(counts, k) ==> h1.heapOff == h.heapOff + Need(h, counts, k))
    decreases CLASSES - k
  {
    hide ListsSorted, AllocateSlabs, Cost, Short;
    if k >= CLASSES {
    } else {
      ClassServedIff(h, k, counts[k]);
      var (h1, bs) := AllocateSlabs(h, k, counts[k]);
      ClassesServedIff(h1, counts, k + 1);
      NeedFrame(h, h1, counts, k + 1);
    }
  }

  /** A request is served in full exactly when what lane 0 lacks of the selected
      blocks fits between the heap offset and the end of the device; the offset
      then advances by just that. */
  lemma {:induction false} ServedIff(h: Heap, size: nat)
    requires Inv(h)
    ensures var (h1, bs) := Allocate(h, size); var need := Need(h, Shape(size), 0);
            && (Bytes(bs) >= size <==> Fits(h, need))
            && (Bytes(bs) >= size ==> h1.heapOff == h.heapOff + need)
  {
    hide Tiled, End, LiveBytes, FreeBlocks, Shape, CoinSelect, AllocateFrom, Counts, Need, SumFrom;
    CoinSelectShape(size);
    SatisfiedIff(h, size);
    ClassesServedIff(h, Shape(size), 0);
    AllocateWithin(h, Shape(size), 0);
    FullCount(Counts(Allocate(h, size).1), Shape(size));
  }

  /** A class that is not served in full leaves the heap offset past the device, where
      nothing is carved any more. */
  lemma {:induction false} ClassShortEnds(h: Heap, k: nat, count: nat)
    requires Shaped(h) && ListsSorted(h.free) && k < CLASSES
    ensures var (h1, bs) := AllocateSlabs(h, k, count);
            && ListsSorted(h1.free) && h.heapOff <= h1.heapOff
            && (|bs| < count ==> h1.heapOff > h1.capacity)
            && (h.heapOff > h.capacity ==> h1.tiles == h.tiles)
    decreases count
  {
    if count == 0 {
    } else {
      hide ListsSorted;
      var (h1, b) := ListAllocate(h, k);
      TakeOne(h, k);
      if b.size > 0 { ClassShortEnds(Granted(h1, b), k, count - 1); }
    }
  }

  lemma {:induction false} ShortEnds(h: Heap, counts: seq<nat>, k: nat)
    requires Shaped(h) && ListsSorted(h.free) && |counts| == CLASSES && k <= CLASSES
    ensures var (h1, bs) := AllocateFrom(h, counts, k);
            && |bs| <= SumFrom(counts, k) && h.heapOff <= h1.heapOff
            && (|bs| < SumFrom(counts, k) ==> h1.heapOff > h1.capacity)
            && (h.heapOff > h.capacity ==> h1.tiles == h.tiles)
    decreases CLASSES - k
  {
    hide ListsSorted, AllocateSlabs;
    if k >= CLASSES {
    } else {
      ClassShortEnds(h, k, counts[k]);
      ShortEnds(AllocateSlabs(h, k, counts[k]).0, counts, k + 1);
    }
  }

  /** Past the end of the device, no operation carves a block or moves the offset back. */
  lemma {:induction false} NothingCarved(h: Heap, op: Op)
    requires Inv(h) && Legal(h, op) && h.heapOff > h.capacity
    ensures var h1 := Step(h, op); h1.tiles == h.tiles && h1.heapOff > h1.capacity
  {
    hide Tiled, End, LiveBytes, FreeBlocks, ListsSorted, AllocateFrom;
    match op
    case AllocateOp(size) => ShortEnds(h, CoinSelect(size).counts, 0);
    case FreeOp(lane, b) =>
  }

  lemma {:induction false} NothingCarvedFrom(hs: seq<Heap>, ops: seq<Op>, i: nat, j: nat, lanes: nat, capacity: nat)
    requires IsRun(hs, ops) && lanes >= 1 && hs[0] == Init(lanes, capacity) && i <= j < |hs|
    requires hs[i].heapOff > hs[i].capacity
    ensures hs[j].tiles == hs[i].tiles && hs[j].heapOff > hs[j].capacity
    decreases j
  {
    hide Inv, Legal, Step;
    if i < j {
      NothingCarvedFrom(hs, ops, i, j - 1, lanes, capacity);
      RunInv(hs, ops, j - 1, lanes, capacity);
      assert Legal(hs[j - 1], ops[j - 1]);
      NothingCarved(hs[j - 1], ops[j - 1]);
    }
  }

  /** The first request that is not served in full is the last to extend the heap: its
      failed extension advances the offset past the device, so that no later request
      carves anything, however small, and only what is freed is handed out again. */
  lemma {:induction false} FailedExtensionIsFinal(hs: seq<Heap>, ops: seq<Op>, i: nat, j: nat, lanes: nat,
                                                  capacity: nat)
    requires IsRun(hs, ops) && lanes >= 1 && hs[0] == Init(lanes, capacity) && i < j < |hs|
    requires Shaped(hs[i]) && ops[i].AllocateOp? && Bytes(Allocate(hs[i], ops[i].size).1) < ops[i].size
    ensures hs[j].tiles == hs[i + 1].tiles && hs[j].heapOff > capacity
  {
    hide Tiled, End, LiveBytes, FreeBlocks, ListsSorted, AllocateFrom, CoinSelect, Shape, SumFrom, Counts;
    var h, size := hs[i], ops[i].size;
    RunInv(hs, ops, i, lanes, capacity);
    RunInv(hs, ops, j, lanes, capacity);
    assert hs[i + 1] == Step(h, ops[i]);
    CoinSelectShape(size);
    SatisfiedIff(h, size);
    AllocateWithin(h, Shape(size), 0);
    FullCount(Counts(Allocate(h, size).1), Shape(size));
    ShortEnds(h, Shape(size), 0);
    NothingCarvedFrom(hs, ops, i + 1, j, lanes, capacity);
  }

  lemma {:induction false} NeedNothing(h: Heap, counts: seq<nat>, k: nat)
    requires Shaped(h) && |counts| == CLASSES && k <= CLASSES
    ensures Need(h, counts, k) == 0 <==> forall j :: k <= j < CLASSES ==> counts[j] <= Listed(h, j)
    decreases CLASSES - k
  {
    if k < CLASSES {
      NeedNothing(h, counts, k + 1);
      if Short(h, counts[k], k) > 0 { CostStep(Short(h, counts[k], k), k); }
    }
  }

  // --------------------------------------------------------------- returning

  /** Return blocks one by one, each to a lane. */
  function FreeAll(h: Heap, bs: seq<Block>, lanes: seq<nat>): (r: Heap)
    requires Shaped(h) && |lanes| == |bs| && forall i :: 0 <= i < |lanes| ==> lanes[i] < |h.free[0]|
    ensures Shaped(r)
    decreases |bs|
  {
    if bs == [] then h else FreeAll(Free(h, lanes[0], bs[0]), bs[1..], lanes[1..])
  }

  /** Blocks of class k waiting in lane 0. */
  function Listed(h: Heap, k: nat): nat
    requires Shaped(h) && k < CLASSES
  {
    |h.free[k][0]|
  }

  /** The blocks that were returned to lane 0. */
  function ToFirst(bs: seq<Block>, lanes: seq<nat>): seq<Block>
    requires |lanes| == |bs|
    decreases |bs|
  {
    if bs == [] then [] else (if lanes[0] == 0 then [bs[0]] else []) + ToFirst(bs[1..], lanes[1..])
  }

  lemma {:induction false} FreeStep(h: Heap, lane: nat, b: Block)
    requires Inv(h) && b in h.live && lane < |h.free[0]|
    ensures var r := Free(h, lane, b);
            && Inv(r) && r.heapOff == h.heapOff && r.capacity == h.capacity
            && r.freeSize == h.freeSize + b.size && r.live == h.live - {b}
            && forall k :: 0 <= k < CLASSES ==>
                 Listed(r, k) == Listed(h, k) + if lane == 0 then CountClass([b], k) else 0
  {
    hide Tiled, End, LiveBytes, FreeBlocks, ListsSorted;
    FreeInv(h, lane, b);
    LiveIsSlab(h, b);
  }

  lemma {:induction false} FreeAllLists(h: Heap, bs: seq<Block>, lanes: seq<nat>)
    requires Inv(h) && |lanes| == |bs|
    requires forall i :: 0 <= i < |bs| ==> bs[i] in h.live && lanes[i] < |h.free[0]|
    requires forall i, j :: 0 <= i < j < |bs| ==> bs[i] != bs[j]
    ensures var r := FreeAll(h, bs, lanes);
            && Inv(r) && r.heapOff == h.heapOff && r.capacity == h.capacity
            && r.freeSize == h.freeSize + Bytes(bs)
            && (forall b :: b in r.live <==> b in h.live && b !in bs)
            && forall k :: 0 <= k < CLASSES ==> Listed(r, k) == Listed(h, k) + CountClass(ToFirst(bs, lanes), k)
    decreases |bs|
  {
    hide Tiled, End, LiveBytes, FreeBlocks, ListsSorted, Free, FreeClass;
    if bs == [] {
    } else {
      assert bs[0] in h.live;
      FreeStep(h, lanes[0], bs[0]);
      FreeAllLists(Free(h, lanes[0], bs[0]), bs[1..], lanes[1..]);
      var rest := ToFirst(bs[1..], lanes[1..]);
      forall k ensures CountClass([bs[0]] + rest, k) == CountClass([bs[0]], k) + CountClass(rest, k) {
        CountAppend([bs[0]], rest, k);
      }
      assert [] + rest == rest;
    }
  }

  lemma {:induction false} AllToFirst(bs: seq<Block>, lanes: seq<nat>)
    requires |lanes| == |bs| && forall i :: 0 <= i < |lanes| ==> lanes[i] == 0
    ensures ToFirst(bs, lanes) == bs
    decreases |bs|
  {
    if bs == [] {
    } else {
      AllToFirst(bs[1..], lanes[1..]);
    }
  }

  /** The blocks of a request, in some order, and the lanes they are returned to. */
  ghost predicate Returns(h: Heap, size: nat, returned: seq<Block>, lanes: seq<nat>)
    requires Shaped(h)
  {
    && multiset(returned) == multiset(Allocate(h, size).1)
    && |lanes| == |returned| && forall i :: 0 <= i < |lanes| ==> lanes[i] < |h.free[0]|
  }

  ghost function AfterReturn(h: Heap, size: nat, returned: seq<Block>, lanes: seq<nat>): Heap
    requires Shaped(h) && Returns(h, size, returned, lanes)
  {
    FreeAll(Allocate(h, size).0, returned, lanes)
  }

  lemma {:induction false} ReturnRestores(h: Heap, size: nat, returned: seq<Block>, lanes: seq<nat>)
    requires Inv(h) && Returns(h, size, returned, lanes)
    ensures var h1 := Allocate(h, size).0; var h2 := AfterReturn(h, size, returned, lanes);
            && Inv(h2) && Shaped(h1) && h2.live == h.live && h2.freeSize == h1.freeSize + Bytes(returned)
            && h2.heapOff == h1.heapOff
            && forall k :: 0 <= k < CLASSES ==>
                 Listed(h2, k) == Listed(h1, k) + CountClass(ToFirst(returned, lanes), k)
  {
    hide Tiled, End, LiveBytes, FreeBlocks, CoinSelect, FreeAll, AllocateFrom, ToFirst, ListsSorted;
    CoinSelectShape(size);
    var (h1, bs) := Allocate(h, size);
    AllocateFromInv(h, Shape(size), 0);
    PermutedFresh(bs, returned);
    FreeAllLists(h1, returned, lanes);
    assert AfterReturn(h, size, returned, lanes).live == h.live;
  }

  lemma {:induction false} FirstLaneSuffices(h: Heap, size: nat, returned: seq<Block>, lanes: seq<nat>, k: nat)
    requires Inv(h) && Bytes(Allocate(h, size).1) >= size && Returns(h, size, returned, lanes) && k < CLASSES
    requires forall i :: 0 <= i < |lanes| ==> lanes[i] == 0
    ensures Shape(size)[k] <= Listed(AfterReturn(h, size, returned, lanes), k)
  {
    hide Tiled, End, LiveBytes, FreeBlocks, ListsSorted, Shape, Allocate, AfterReturn, CountClass, ToFirst;
    ReturnRestores(h, size, returned, lanes);
    AllToFirst(returned, lanes);
    SatisfiedIff(h, size);
    var bs := Allocate(h, size).1;
    CountPermuted(returned, bs, k);
    assert Shape(size)[k] == Counts(bs)[k] == CountClass(bs, k);
  }

  /** A request that was served in full and whose blocks were then returned, in any
      order and to any lanes. Returning restores the free-space counter and what is
      live. The request is served again without moving the heap exactly when lane 0
      now lists every selected block, as it does when all were returned to it. */
  lemma {:induction false} ReturnedRequestIsServedAgainIff(h: Heap, size: nat, returned: seq<Block>, lanes: seq<nat>)
    requires Inv(h) && Bytes(Allocate(h, size).1) >= size && Returns(h, size, returned, lanes)
    ensures var h1 := Allocate(h, size).0; var h2 := AfterReturn(h, size, returned, lanes);
            && Inv(h2) && Shaped(h1) && h2.live == h.live && h2.freeSize == h1.freeSize + Bytes(returned)
            && (forall k :: 0 <= k < CLASSES ==>
                  Listed(h2, k) == Listed(h1, k) + CountClass(ToFirst(returned, lanes), k))
            && (Bytes(Allocate(h2, size).1) >= size && Allocate(h2, size).0.heapOff == h1.heapOff
                <==> forall k :: 0 <= k < CLASSES ==> Shape(size)[k] <= Listed(h2, k))
            && ((forall i :: 0 <= i < |lanes| ==> lanes[i] == 0) ==>
                  forall k :: 0 <= k < CLASSES ==> Shape(size)[k] <= Listed(h2, k))
  {
    hide Tiled, End, LiveBytes, FreeBlocks, ListsSorted, Shape, Allocate, AfterReturn, Need, ToFirst, Listed;
    ReturnRestores(h, size, returned, lanes);
    var h2 := AfterReturn(h, size, returned, lanes);
    ServedIff(h2, size);
    NeedNothing(h2, Shape(size), 0);
    if forall i :: 0 <= i < |lanes| ==> lanes[i] == 0 {
      forall k | 0 <= k < CLASSES ensures Shape(size)[k] <= Listed(h2, k) {
        FirstLaneSuffices(h, size, returned, lanes, k);
      }
    }
  }

  lemma {:induction false} FullCount(c: seq<nat>, counts: seq<nat>)
    requires |c| == CLASSES && |counts| == CLASSES
    requires forall j :: 0 <= j < CLASSES ==> c[j] <= counts[j]
    ensures Blocks(c) == SumFrom(counts, 0) <==> c == counts
  {
    assert SumFrom(counts, 3) == counts[3] + SumFrom(counts, 4) == counts[3];
    assert SumFrom(counts, 2) == counts[2] + counts[3];
    assert SumFrom(counts, 0) == counts[0] + counts[1] + SumFrom(counts, 2);
  }

  lemma {:induction false} PermutedFresh(a: seq<Block>, b: seq<Block>)
    requires multiset(a) == multiset(b)
    requires forall i, j :: 0 <= i < j < |a| ==> a[i] != a[j]
    ensures forall x :: x in a <==> x in b
    ensures forall i, j :: 0 <= i < j < |b| ==> b[i] != b[j]
  {
    forall x ensures x in a <==> x in b {
      assert x in a <==> x in multiset(a);
      assert x in b <==> x in multiset(b);
    }
    forall i, j | 0 <= i < j < |b| ensures b[i] != b[j] {
      if b[i] == b[j] {
        CountOccurrence(b, i, j);
        DistinctOnce(a, b[i]);
      }
    }
  }

  lemma {:induction false} CountOccurrence(b: seq<Block>, i: nat, j: nat)
    requires i < j < |b| && b[i] == b[j]
    ensures multiset(b)[b[i]] >= 2
  {
    assert b == b[..j] + ([b[j]] + b[j + 1..]);
    assert b[i] in b[..j];
  }

  lemma {:induction false} DistinctOnce(a: seq<Block>, x: Block)
    requires forall i, j :: 0 <= i < j < |a| ==> a[i] != a[j]
    ensures multiset(a)[x] <= 1
  {
    if a == [] {
    } else {
      assert a == [a[0]] + a[1..];
      DistinctOnce(a[1..], x);
    }
  }
}
