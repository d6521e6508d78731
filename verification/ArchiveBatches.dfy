/** Whole batches through the archive, and their payload, on both paths. */
module ArchiveBatches {
  import opened Archives

  /** A task as the archive sees it: its segment and what it writes. */
  datatype Job = Job(seg: Segment, items: seq<Item>)

  function StartJob(t: Task): Job { Job(Segment(t.pool, t.method_, t.addr, t.dom), StartItems(t)) }
  function EndJob(t: Task): Job { Job(Segment(t.pool, t.method_, t.retAddr, 0), t.end) }

  function SaveAll(jobs: seq<Job>): Transfer {
    if jobs == [] then Transfer([], [], [])
    else Written(SaveAll(jobs[..|jobs| - 1]), jobs[|jobs| - 1].seg, jobs[|jobs| - 1].items)
  }

  function AllTokens(jobs: seq<Job>): seq<nat> {
    if jobs == [] then [] else Tokens(jobs[0].items) + AllTokens(jobs[1..])
  }

  function AllEntries(jobs: seq<Job>): seq<Entry> {
    if jobs == [] then [] else Entries(jobs[0].items) + AllEntries(jobs[1..])
  }

  /** The entries of job j begin here. */
  function Offset(jobs: seq<Job>, j: nat): nat
    requires j <= |jobs|
  {
    if j == 0 then 0 else |Entries(jobs[0].items)| + Offset(jobs[1..], j - 1)
  }

  lemma {:induction false} AllAppend(jobs: seq<Job>, x: Job)
    ensures AllTokens(jobs + [x]) == AllTokens(jobs) + Tokens(x.items)
    ensures AllEntries(jobs + [x]) == AllEntries(jobs) + Entries(x.items)
  {
    hide Tokens, Entries;
    var all := jobs + [x];
    if jobs == [] {
      assert all == [x] && all[1..] == [];
      assert Tokens(x.items) + [] == Tokens(x.items) && Entries(x.items) + [] == Entries(x.items);
    } else {
      assert all[0] == jobs[0] && all[1..] == jobs[1..] + [x];
      AllAppend(jobs[1..], x);
      var t, e := Tokens(jobs[0].items), Entries(jobs[0].items);
      assert t + (AllTokens(jobs[1..]) + Tokens(x.items)) == (t + AllTokens(jobs[1..])) + Tokens(x.items);
      assert e + (AllEntries(jobs[1..]) + Entries(x.items)) == (e + AllEntries(jobs[1..])) + Entries(x.items);
    }
  }

  lemma {:induction false} SaveAllIs(jobs: seq<Job>)
    ensures SaveAll(jobs).bulk == AllEntries(jobs) && SaveAll(jobs).md == AllTokens(jobs)
    ensures |SaveAll(jobs).tasks| == |jobs| && forall j :: 0 <= j < |jobs| ==> SaveAll(jobs).tasks[j] == jobs[j].seg
  {
    if jobs == [] {
    } else {
      var init, last := jobs[..|jobs| - 1], jobs[|jobs| - 1];
      assert jobs == init + [last];
      SaveAllIs(init);
      AllAppend(init, last);
    }
  }

  // ----------------------------------------------------------------- reading

  datatype Batch = Batch(tasks: seq<seq<Item>>, md: seq<nat>, bulk: seq<Entry>, off: nat)

  /** The serialize functions, found by pool and method. */
  type Shapes = (nat, nat) -> Shape

  function LoadAll(shapes: Shapes, who: nat -> Owner, segs: seq<Segment>, j: nat,
                   md: seq<nat>, bulk: seq<Entry>, off: nat): Result<Batch>
    requires j <= |segs|
    decreases |segs| - j
  {
    if j == |segs| then Ok(Batch([], md, bulk, off))
    else match Load(shapes(segs[j].pool, segs[j].method_), who(j), [], 0, md, bulk, off)
      case Err(e) => Err(e)
      case Ok(l) =>
        var r := LoadAll(shapes, who, segs, j + 1, l.md, l.bulk, l.off);
        if r.Err? then r else Ok(r.value.(tasks := [l.items] + r.value.tasks))
  }

  predicate JobsConform(shapes: Shapes, jobs: seq<Job>) {
    forall j :: 0 <= j < |jobs| ==> Conforms(shapes(jobs[j].seg.pool, jobs[j].seg.method_), [], jobs[j].items)
  }

  /** The entries once all jobs from j on have been read. */
  function BoundAll(who: nat -> Owner, jobs: seq<Job>, j: nat, bulk: seq<Entry>, off: nat): (r: seq<Entry>)
    requires off + |AllEntries(jobs)| <= |bulk|
    ensures |r| == |bulk|
    decreases |jobs|
  {
    if jobs == [] then bulk
    else BoundAll(who, jobs[1..], j + 1, Bound(jobs[0].items, who(j), 0, bulk, off), off + |Entries(jobs[0].items)|)
  }

  /** What each receiver has, task by task. */
  function ReceivedAll(who: nat -> Owner, jobs: seq<Job>, j: nat, bulk: seq<Entry>, off: nat): (r: seq<seq<Item>>)
    requires off + |AllEntries(jobs)| <= |bulk|
    ensures |r| == |jobs|
    decreases |jobs|
  {
    if jobs == [] then []
    else [Received(jobs[0].items, who(j), 0, bulk, off)]
         + ReceivedAll(who, jobs[1..], j + 1, Bound(jobs[0].items, who(j), 0, bulk, off),
                       off + |Entries(jobs[0].items)|)
  }

  lemma {:induction false} LoadAllInverts(shapes: Shapes, who: nat -> Owner, segs: seq<Segment>, jobs: seq<Job>, j: nat,
                                          bulk: seq<Entry>, off: nat)
    requires |segs| == j + |jobs| && forall i :: 0 <= i < |jobs| ==> segs[j + i] == jobs[i].seg
    requires JobsConform(shapes, jobs) && off + |AllEntries(jobs)| <= |bulk|
    ensures LoadAll(shapes, who, segs, j, AllTokens(jobs), bulk, off)
            == Ok(Batch(ReceivedAll(who, jobs, j, bulk, off), [], BoundAll(who, jobs, j, bulk, off),
                off + |AllEntries(jobs)|))
    decreases |jobs|
  {
    hide Load, Received, Bound, Entries, Tokens;
    if jobs == [] {
    } else {
      var x, rest := jobs[0], jobs[1..];
      assert segs[j] == segs[j + 0];
      assert Conforms(shapes(x.seg.pool, x.seg.method_), [], x.items);
      LoadInverts(shapes(x.seg.pool, x.seg.method_), who(j), [], 0, x.items, AllTokens(rest), bulk, off);
      forall i | 0 <= i < |rest| ensures segs[j + 1 + i] == rest[i].seg { assert segs[j + (i + 1)] == jobs[i + 1].seg; }
      LoadAllInverts(shapes, who, segs, rest, j + 1, Bound(x.items, who(j), 0, bulk, off), off + |Entries(x.items)|);
    }
  }

  // --------------------------------------------- which buffer each item gets

  function BulksBefore(xs: seq<Item>, m: nat): nat
    requires m <= |xs|
  {
    if m == 0 then 0 else (if xs[0].Bulk? then 1 else 0) + BulksBefore(xs[1..], m - 1)
  }

  /** The number of entries before that of item m. */
  function Index(xs: seq<Item>, m: nat): nat
    requires m <= |xs|
  {
    if m == 0 then 0 else |EntryOf(xs[0])| + Index(xs[1..], m - 1)
  }

  lemma {:induction false} OwnEntry(xs: seq<Item>, m: nat)
    requires m < |xs| && xs[m].Bulk? && xs[m].size != 0
    ensures Index(xs, m) < |Entries(xs)| && Entries(xs)[Index(xs, m)] == Entry(xs[m].flags, xs[m].data, xs[m].size)
  {
    if m == 0 {
    } else {
      OwnEntry(xs[1..], m - 1);
    }
  }

  lemma {:induction false} OwnEntriesDiffer(xs: seq<Item>, m: nat, n: nat)
    requires m < n < |xs| && xs[m].Bulk? && xs[m].size != 0
    ensures Index(xs, m) < Index(xs, n)
  {
    if m > 0 {
      OwnEntriesDiffer(xs[1..], m - 1, n - 1);
    } else {
      assert xs[0] == xs[m];
    }
  }

  /** The same value; or the same flags and size, in the buffer that entry e is bound
      to, which is the receiver's own k-th if it has one. */
  predicate Arrived(x: Item, y: Item, bulk: seq<Entry>, e: nat, who: Owner, k: nat) {
    match x
    case Field(v) => y == x
    case Bulk(flags, _, size) =>
      && y.Bulk? && y.flags == flags && y.size == size
      && (size != 0 ==> e < |bulk| && y.data == bulk[e].data && (who.Returning? ==> y.data == who.own(k)))
  }

  lemma {:induction false} ReceivedLength(xs: seq<Item>, who: Owner, k: nat, bulk: seq<Entry>, off: nat)
    requires off + |Entries(xs)| <= |bulk|
    ensures |Received(xs, who, k, bulk, off)| == |xs|
    decreases |xs|
  {
    if xs == [] {
    } else {
      ReceivedLength(xs[1..], who, if xs[0].Bulk? then k + 1 else k, bulk, off + |EntryOf(xs[0])|);
    }
  }

  lemma {:induction false} ReceivedAt(xs: seq<Item>, who: Owner, k: nat, bulk: seq<Entry>, off: nat, m: nat)
    requires off + |Entries(xs)| <= |bulk| && m < |xs|
    ensures |Received(xs, who, k, bulk, off)| == |xs|
    ensures xs[m].Field? ==> Received(xs, who, k, bulk, off)[m] == xs[m]
    ensures xs[m].Bulk? ==>
              var y := Received(xs, who, k, bulk, off)[m];
              && y.Bulk? && y.flags == xs[m].flags && y.size == xs[m].size
              && (xs[m].size == 0 ==> y.data == Unbound(who, k + BulksBefore(xs, m)))
              && (xs[m].size != 0 ==>
                    && off + Index(xs, m) < |bulk|
                    && y.data == Bind(who, k + BulksBefore(xs, m), bulk[off + Index(xs, m)]).data)
    decreases |xs|
  {
    ReceivedLength(xs, who, k, bulk, off);
    if m == 0 {
    } else {
      var k1 := if xs[0].Bulk? then k + 1 else k;
      ReceivedAt(xs[1..], who, k1, bulk, off + |EntryOf(xs[0])|, m - 1);
    }
  }

  lemma {:induction false} BoundAt(xs: seq<Item>, who: Owner, k: nat, bulk: seq<Entry>, off: nat, i: nat)
    requires off + |Entries(xs)| <= |bulk| && i < |bulk|
    ensures i < off || i >= off + |Entries(xs)| ==> Bound(xs, who, k, bulk, off)[i] == bulk[i]
    ensures Bound(xs, who, k, bulk, off)[i].flags == bulk[i].flags
        && Bound(xs, who, k, bulk, off)[i].size == bulk[i].size
    ensures who.Starting? ==> Bound(xs, who, k, bulk, off)[i] == bulk[i]
    decreases |xs|
  {
    if xs == [] {
    } else {
      if xs[0].Field? {
        BoundAt(xs[1..], who, k, bulk, off, i);
      } else if xs[0].size == 0 {
        BoundAt(xs[1..], who, k + 1, bulk, off, i);
      } else {
        BoundAt(xs[1..], who, k + 1, bulk[off := Bind(who, k, bulk[off])], off + 1, i);
      }
    }
  }

  /** The entry of an item ends up at the buffer of the receiver's item. */
  lemma {:induction false} BoundItem(xs: seq<Item>, who: Owner, k: nat, bulk: seq<Entry>, off: nat, m: nat)
    requires off + |Entries(xs)| <= |bulk| && m < |xs| && xs[m].Bulk? && xs[m].size != 0
    ensures off + Index(xs, m) < |bulk|
    ensures Bound(xs, who, k, bulk, off)[off + Index(xs, m)]
        == Bind(who, k + BulksBefore(xs, m), bulk[off + Index(xs, m)])
    decreases |xs|
  {
    OwnEntry(xs, m);
    if m == 0 {
      BoundAt(xs[1..], who, k + 1, bulk[off := Bind(who, k, bulk[off])], off + 1, off);
    } else if xs[0].Field? {
      BoundItem(xs[1..], who, k, bulk, off, m - 1);
    } else if xs[0].size == 0 {
      BoundItem(xs[1..], who, k + 1, bulk, off, m - 1);
    } else {
      BoundItem(xs[1..], who, k + 1, bulk[off := Bind(who, k, bulk[off])], off + 1, m - 1);
    }
  }

  lemma {:induction false} BoundAllAt(who: nat -> Owner, jobs: seq<Job>, j: nat, bulk: seq<Entry>, off: nat, i: nat)
    requires off + |AllEntries(jobs)| <= |bulk| && i < |bulk|
    ensures var r := BoundAll(who, jobs, j, bulk, off);
            && (i < off ==> r[i] == bulk[i]) && r[i].flags == bulk[i].flags && r[i].size == bulk[i].size
            && ((forall n :: who(n).Starting?) ==> r[i] == bulk[i])
    decreases |jobs|
  {
    if jobs == [] {
    } else {
      var xs := jobs[0].items;
      BoundAt(xs, who(j), 0, bulk, off, i);
      BoundAllAt(who, jobs[1..], j + 1, Bound(xs, who(j), 0, bulk, off), off + |Entries(xs)|, i);
    }
  }

  /** The entry of item m of job j, counted over the batch. */
  function Place(jobs: seq<Job>, j: nat, m: nat): nat
    requires j < |jobs| && m < |jobs[j].items|
  {
    Offset(jobs, j) + Index(jobs[j].items, m)
  }

  lemma {:induction false} PlaceIsOwn(jobs: seq<Job>, j: nat, m: nat)
    requires j < |jobs| && m < |jobs[j].items| && jobs[j].items[m].Bulk? && jobs[j].items[m].size != 0
    ensures var x := jobs[j].items[m];
            Place(jobs, j, m) < |AllEntries(jobs)| && AllEntries(jobs)[Place(jobs, j, m)]
                == Entry(x.flags, x.data, x.size)
    decreases j
  {
    if j == 0 { OwnEntry(jobs[0].items, m); } else { PlaceIsOwn(jobs[1..], j - 1, m); }
  }

  lemma {:induction false} OneArrives(xs: seq<Item>, who: Owner, bulk: seq<Entry>, off: nat, m: nat)
    requires off + |Entries(xs)| <= |bulk| && m < |xs|
    ensures var r := Received(xs, who, 0, bulk, off);
            && |r| == |xs|
            && Arrived(xs[m], r[m], Bound(xs, who, 0, bulk, off), off + Index(xs, m), who, BulksBefore(xs, m))
  {
    hide Received, Bound, Entries;
    ReceivedAt(xs, who, 0, bulk, off, m);
    if xs[m].Bulk? && xs[m].size != 0 { BoundItem(xs, who, 0, bulk, off, m); }
  }

  lemma {:induction false} ArrivedFrame(x: Item, y: Item, bulk: seq<Entry>, other: seq<Entry>, e: nat, who: Owner,
                                        k: nat)
    requires Arrived(x, y, bulk, e, who, k) && |bulk| == |other|
    requires x.Bulk? && x.size != 0 && e < |bulk| ==> other[e] == bulk[e]
    ensures Arrived(x, y, other, e, who, k)
  {}

  /** Whatever was read before, item m of task j has its value, or the buffer that its
      own entry is bound to in the end. */
  lemma {:induction false} ItemArrives(who: nat -> Owner, jobs: seq<Job>, j0: nat, bulk: seq<Entry>, off: nat,
                                       j: nat, m: nat)
    requires off + |AllEntries(jobs)| <= |bulk| && j < |jobs| && m < |jobs[j].items|
    ensures var r := ReceivedAll(who, jobs, j0, bulk, off)[j]; var xs := jobs[j].items;
            && |r| == |xs|
            && Arrived(xs[m], r[m], BoundAll(who, jobs, j0, bulk, off), off + Place(jobs, j, m), who(j0 + j),
                 BulksBefore(xs, m))
    decreases |jobs|
  {
    hide Received, Bound, Entries, Arrived, Index, BulksBefore;
    var xs := jobs[0].items;
    var bulk1, off1 := Bound(xs, who(j0), 0, bulk, off), off + |Entries(xs)|;
    if j > 0 {
      ItemArrives(who, jobs[1..], j0 + 1, bulk1, off1, j - 1, m);
    } else {
      OneArrives(xs, who(j0), bulk, off, m);
      if xs[m].Bulk? && xs[m].size != 0 {
        OwnEntry(xs, m);
        BoundAllAt(who, jobs[1..], j0 + 1, bulk1, off1, off + Index(xs, m));
      }
      ArrivedFrame(xs[m], Received(xs, who(j0), 0, bulk, off)[m], bulk1, BoundAll(who, jobs, j0, bulk, off),
                   off + Index(xs, m), who(j0), BulksBefore(xs, m));
    }
  }

  // ----------------------------------------------------------------- payload

  type Memory = map<nat, seq<nat>>

  /** DT_WRITE is the two lowest bits, and an entry with any of them set is sent. */
  predicate IsSent(e: Entry) { e.flags % 4 != 0 }

  predicate Readable(bulk: seq<Entry>, mem: Memory) {
    forall i :: 0 <= i < |bulk| && IsSent(bulk[i]) ==> bulk[i].data in mem && bulk[i].size <= |mem[bulk[i].data]|
  }

  /** The bytes that the sender exposes, as one range. */
  function Gather(bulk: seq<Entry>, mem: Memory): seq<nat>
    requires Readable(bulk, mem)
  {
    if bulk == [] then []
    else (if IsSent(bulk[0]) then mem[bulk[0].data][..bulk[0].size] else []) + Gather(bulk[1..], mem)
  }

  function Tail(mem: Memory, a: nat, n: nat): seq<nat> {
    if a in mem && n <= |mem[a]| then mem[a][n..] else []
  }

  /** The range laid over the receiver's buffers. */
  function Scatter(bulk: seq<Entry>, mem: Memory, bytes: seq<nat>): Memory
    decreases |bulk|
  {
    if bulk == [] then mem
    else if !IsSent(bulk[0]) then Scatter(bulk[1..], mem, bytes)
    else if |bytes| < bulk[0].size then mem
    else
      var e := bulk[0];
      Scatter(bulk[1..], mem[e.data := bytes[..e.size] + Tail(mem, e.data, e.size)], bytes[e.size..])
  }

  /** The two sides agree on flags and sizes, if not on addresses. */
  predicate SameSizes(a: seq<Entry>, b: seq<Entry>) {
    |a| == |b| && forall i :: 0 <= i < |a| ==> a[i].flags == b[i].flags && a[i].size == b[i].size
  }

  lemma {:induction false} ScatterFrame(bulk: seq<Entry>, mem: Memory, bytes: seq<nat>, d: nat)
    requires forall i :: 0 <= i < |bulk| && IsSent(bulk[i]) ==> bulk[i].data != d
    ensures d in Scatter(bulk, mem, bytes) <==> d in mem
    ensures d in mem ==> Scatter(bulk, mem, bytes)[d] == mem[d]
    decreases |bulk|
  {
    if bulk != [] && !IsSent(bulk[0]) {
      ScatterFrame(bulk[1..], mem, bytes, d);
    } else if bulk != [] && |bytes| >= bulk[0].size {
      var e := bulk[0];
      ScatterFrame(bulk[1..], mem[e.data := bytes[..e.size] + Tail(mem, e.data, e.size)], bytes[e.size..], d);
    }
  }

  /** Each buffer receives the bytes of its own entry, unless a later entry of the
      message is bound to the same buffer. */
  lemma {:induction false} PayloadArrives(a: seq<Entry>, ma: Memory, b: seq<Entry>, mb: Memory, i: nat)
    requires SameSizes(a, b) && Readable(a, ma) && i < |b| && IsSent(b[i])
    requires forall n :: i < n < |b| && IsSent(b[n]) ==> b[n].data != b[i].data
    ensures var m := Scatter(b, mb, Gather(a, ma));
            b[i].data in m && b[i].size <= |m[b[i].data]| && m[b[i].data][..b[i].size] == ma[a[i].data][..a[i].size]
    decreases |b|
  {
    var bytes, rest := Gather(a, ma), Gather(a[1..], ma);
    if !IsSent(b[0]) {
      assert bytes == rest;
      PayloadArrives(a[1..], ma, b[1..], mb, i - 1);
    } else {
      var e := b[0];
      assert bytes[..e.size] == ma[a[0].data][..e.size] && bytes[e.size..] == rest;
      var mb1 := mb[e.data := bytes[..e.size] + Tail(mb, e.data, e.size)];
      if i > 0 {
        PayloadArrives(a[1..], ma, b[1..], mb1, i - 1);
      } else {
        forall n | 0 <= n < |b[1..]| && IsSent(b[1..][n]) ensures b[1..][n].data != e.data { assert b[n + 1]
            == b[1..][n]; }
        ScatterFrame(b[1..], mb1, rest, e.data);
      }
    }
  }

  // ------------------------------------------------------- buffers in common

  /** No later entry that is sent is bound to the same buffer. */
  predicate LastBound(b: seq<Entry>, e: nat) {
    e < |b| && forall n :: e < n < |b| && IsSent(b[n]) ==> b[n].data != b[e].data
  }

  /** Entry i's bytes are where its buffer is, after the transfer. */
  predicate Intact(a: seq<Entry>, ma: Memory, b: seq<Entry>, mb: Memory, i: nat)
    requires Readable(a, ma) && SameSizes(a, b) && i < |b| && IsSent(b[i])
  {
    var m := Scatter(b, mb, Gather(a, ma));
    b[i].data in m && b[i].size <= |m[b[i].data]| && m[b[i].data][..b[i].size] == ma[a[i].data][..a[i].size]
  }

  /** When the last entry bound to a buffer is n, an earlier and no larger entry i
      bound to it arrives exactly if n carries the same bytes: the later one prevails. */
  lemma {:induction false} LaterPrevails(a: seq<Entry>, ma: Memory, b: seq<Entry>, mb: Memory, i: nat, n: nat)
    requires SameSizes(a, b) && Readable(a, ma) && i < n < |b| && IsSent(b[i]) && IsSent(b[n])
    requires b[n].data == b[i].data && LastBound(b, n) && b[i].size <= b[n].size
    ensures Intact(a, ma, b, mb, n)
    ensures Intact(a, ma, b, mb, i) <==> ma[a[n].data][..a[i].size] == ma[a[i].data][..a[i].size]
  {
    PayloadArrives(a, ma, b, mb, n);
    var buf := Scatter(b, mb, Gather(a, ma))[b[n].data];
    assert buf[..b[i].size] == buf[..b[n].size][..b[i].size] == ma[a[n].data][..a[n].size][..a[i].size];
  }

  lemma {:induction false} LastSharing(b: seq<Entry>, i: nat, top: nat) returns (n: nat)
    requires i < |b| && IsSent(b[i]) && i < top <= |b|
    requires forall k :: top <= k < |b| && IsSent(b[k]) ==> b[k].data != b[i].data
    ensures i <= n < |b| && IsSent(b[n]) && b[n].data == b[i].data && LastBound(b, n)
    decreases top
  {
    if IsSent(b[top - 1]) && b[top - 1].data == b[i].data {
      n := top - 1;
    } else {
      n := LastSharing(b, i, top - 1);
    }
  }

  function Sizes(a: seq<Entry>): nat {
    if a == [] then 0 else a[0].size + Sizes(a[1..])
  }

  lemma {:induction false} SizeBelow(a: seq<Entry>, i: nat)
    requires i < |a|
    ensures a[i].size <= Sizes(a)
  {
    if i == 0 {
    } else {
      SizeBelow(a[1..], i - 1);
    }
  }

  /** Buffers full of zeros, but for buffer d, which is full of ones. */
  function Marked(a: seq<Entry>, d: nat): Memory {
    map e | e in a :: e.data := seq(Sizes(a), _ => if e.data == d then 1 else 0)
  }

  lemma {:induction false} MarkedAt(a: seq<Entry>, d: nat, i: nat)
    requires i < |a|
    ensures a[i].data in Marked(a, d) && a[i].size <= |Marked(a, d)[a[i].data]|
    ensures a[i].size > 0 ==> Marked(a, d)[a[i].data][0] == if a[i].data == d then 1 else 0
  {
    SizeBelow(a, i);
    assert a[i] in a;
  }

  lemma {:induction false} MarkedReadable(a: seq<Entry>, d: nat)
    ensures Readable(a, Marked(a, d))
  {
    hide Marked;
    forall i | 0 <= i < |a| ensures a[i].data in Marked(a, d) && a[i].size <= |Marked(a, d)[a[i].data]| {
      MarkedAt(a, d, i);
    }
  }

  /** A later entry on the same buffer: there are bytes with which entry i is lost. */
  lemma {:induction false} Overwritten(a: seq<Entry>, b: seq<Entry>, i: nat, n: nat)
    requires SameSizes(a, b) && i < n < |b| && IsSent(b[i]) && IsSent(b[n]) && b[n].data == b[i].data
    requires LastBound(b, n) && a[i].size > 0 && a[n].size > 0 && a[i].data != a[n].data
    ensures Readable(a, Marked(a, a[n].data)) && !Intact(a, Marked(a, a[n].data), b, map[], i)
  {
    hide Marked, Scatter, Gather;
    var ma, mb: Memory := Marked(a, a[n].data), map[];
    MarkedReadable(a, a[n].data);
    MarkedAt(a, a[n].data, i);
    MarkedAt(a, a[n].data, n);
    PayloadArrives(a, ma, b, mb, n);
    var buf := Scatter(b, mb, Gather(a, ma))[b[n].data];
    assert buf[0] == buf[..b[n].size][0] == ma[a[n].data][..a[n].size][0] == 1;
    assert ma[a[i].data][..a[i].size][0] == 0;
    assert b[i].size <= |buf| ==> buf[..b[i].size][0] == 1;
  }

  ghost predicate AlwaysIntact(a: seq<Entry>, b: seq<Entry>, i: nat)
    requires SameSizes(a, b) && i < |b| && IsSent(b[i])
  {
    forall ma, mb :: Readable(a, ma) ==> Intact(a, ma, b, mb, i)
  }

  /** What is sent is not empty, and comes from buffers of its own. */
  predicate OwnSources(a: seq<Entry>) {
    && (forall i :: 0 <= i < |a| && IsSent(a[i]) ==> a[i].size > 0)
    && (forall i, n :: 0 <= i < n < |a| && IsSent(a[i]) && IsSent(a[n]) ==> a[i].data != a[n].data)
  }

  /** An entry arrives whatever the memories hold exactly if no later entry that is
      sent is bound to the same buffer. */
  lemma {:induction false} EntryIntactIff(a: seq<Entry>, b: seq<Entry>, i: nat)
    requires SameSizes(a, b) && OwnSources(a) && i < |b| && IsSent(b[i])
    ensures AlwaysIntact(a, b, i) <==> LastBound(b, i)
  {
    if LastBound(b, i) {
      forall ma, mb | Readable(a, ma) ensures Intact(a, ma, b, mb, i) { PayloadArrives(a, ma, b, mb, i); }
    } else {
      var n := LastSharing(b, i, |b|);
      assert IsSent(a[i]) && IsSent(a[n]);
      hide Intact, Marked;
      Overwritten(a, b, i, n);
    }
  }

  /** No two entries that are sent are bound to one buffer. */
  predicate Separate(b: seq<Entry>) {
    forall i, n :: 0 <= i < n < |b| && IsSent(b[i]) && IsSent(b[n]) ==> b[i].data != b[n].data
  }

  /** Everything arrives, whatever the memories hold, exactly if no two entries that
      are sent are bound to one buffer. */
  lemma {:induction false} AllIntactIff(a: seq<Entry>, b: seq<Entry>)
    requires SameSizes(a, b) && OwnSources(a)
    ensures (forall i :: 0 <= i < |b| && IsSent(b[i]) ==> AlwaysIntact(a, b, i)) <==> Separate(b)
  {
    hide AlwaysIntact;
    forall i | 0 <= i < |b| && IsSent(b[i]) ensures AlwaysIntact(a, b, i) <==> LastBound(b, i) {
      EntryIntactIff(a, b, i);
    }
    if !Separate(b) {
      var i, n :| 0 <= i < n < |b| && IsSent(b[i]) && IsSent(b[n]) && b[i].data == b[n].data;
      assert !LastBound(b, i);
    }
  }
}
