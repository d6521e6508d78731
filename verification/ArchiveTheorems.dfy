/** Round trips of whole batches, on the start path and on the return path. */
module ArchiveTheorems {
  import opened Archives
  import opened ArchiveBatches

  /** A batch read in segment order: every item has arrived, the stream is used up
      and the cursor has passed every entry. */
  lemma {:induction false} BatchRoundTrip(shapes: Shapes, who: nat -> Owner, jobs: seq<Job>, bulk: seq<Entry>)
    requires JobsConform(shapes, jobs) && |bulk| == |AllEntries(jobs)|
    ensures var x := SaveAll(jobs);
            && LoadAll(shapes, who, x.tasks, 0, x.md, bulk, 0)
               == Ok(Batch(ReceivedAll(who, jobs, 0, bulk, 0), [], BoundAll(who, jobs, 0, bulk, 0), |bulk|))
            && forall j, m :: 0 <= j < |jobs| && 0 <= m < |jobs[j].items| ==> ArrivedAt(who, jobs, bulk, j, m)
  {
    hide ReceivedAll, BoundAll, Arrived, Written, Conforms, LoadAll;
    SaveAllIs(jobs);
    LoadAllInverts(shapes, who, SaveAll(jobs).tasks, jobs, 0, bulk, 0);
    forall j, m | 0 <= j < |jobs| && 0 <= m < |jobs[j].items| ensures ArrivedAt(who, jobs, bulk, j, m) {
      ItemArrives(who, jobs, 0, bulk, 0, j, m);
    }
  }

  /** Item m of task j has arrived, and its buffer is that of its own entry. */
  predicate ArrivedAt(who: nat -> Owner, jobs: seq<Job>, bulk: seq<Entry>, j: nat, m: nat)
    requires |bulk| == |AllEntries(jobs)| && j < |jobs| && m < |jobs[j].items|
  {
    var r := ReceivedAll(who, jobs, 0, bulk, 0)[j];
    && |r| == |jobs[j].items|
    && Arrived(jobs[j].items[m], r[m], BoundAll(who, jobs, 0, bulk, 0), Place(jobs, j, m), who(j),
         BulksBefore(jobs[j].items, m))
  }

  /** No two buffers share an entry. */
  lemma {:induction false} PlacesDiffer(jobs: seq<Job>, j: nat, m: nat, i: nat, n: nat)
    requires j < |jobs| && m < |jobs[j].items| && jobs[j].items[m].Bulk? && jobs[j].items[m].size != 0
    requires i < |jobs| && n < |jobs[i].items| && (j < i || (j == i && m < n))
    ensures Place(jobs, j, m) < Place(jobs, i, n)
    decreases j
  {
    if j > 0 {
      PlacesDiffer(jobs[1..], j - 1, m, i - 1, n);
    } else {
      OwnEntry(jobs[0].items, m);
      if i == 0 { OwnEntriesDiffer(jobs[0].items, m, n); }
    }
  }

  /** An item that is a non-empty buffer and is sent. */
  predicate Carries(x: Item) { x.Bulk? && x.size != 0 && x.flags % 4 != 0 }

  /** The bytes of a buffer arrive in the receiver's buffer for it, unless a later
      entry of the message is bound to the same one. */
  lemma {:induction false} BytesArrive(who: nat -> Owner, jobs: seq<Job>, bulk: seq<Entry>, ma: Memory, mb: Memory,
                                       j: nat, m: nat)
    requires SameSizes(AllEntries(jobs), bulk) && Readable(AllEntries(jobs), ma)
    requires j < |jobs| && m < |jobs[j].items| && Carries(jobs[j].items[m])
    requires var b := BoundAll(who, jobs, 0, bulk, 0);
             forall n :: Place(jobs, j, m) < n < |b| && IsSent(b[n]) ==> b[n].data != b[Place(jobs, j, m)].data
    ensures var x := jobs[j].items[m]; var y := ReceivedAll(who, jobs, 0, bulk, 0)[j];
            var after := Scatter(BoundAll(who, jobs, 0, bulk, 0), mb, Gather(AllEntries(jobs), ma));
            && m < |y| && y[m].Bulk? && y[m].data in after && x.data in ma && x.size <= |after[y[m].data]|
                 && x.size <= |ma[x.data]|
            && after[y[m].data][..x.size] == ma[x.data][..x.size]
  {
    var a, b, e := AllEntries(jobs), BoundAll(who, jobs, 0, bulk, 0), Place(jobs, j, m);
    PlaceIsOwn(jobs, j, m);
    ItemArrives(who, jobs, 0, bulk, 0, j, m);
    forall i | 0 <= i < |a| ensures a[i].flags == b[i].flags && a[i].size == b[i].size {
      BoundAllAt(who, jobs, 0, bulk, 0, i);
    }
    PayloadArrives(a, ma, b, mb, e);
  }

  // ---------------------------------------------------------- the start path

  function StartJobs(ts: seq<Task>): seq<Job> {
    seq(|ts|, i requires 0 <= i < |ts| => StartJob(ts[i]))
  }

  function StartShapes(shapes: Shapes): Shapes { (p: nat, m: nat) => WithHeader(shapes(p, m)) }

  lemma {:induction false} AfterHeader(shape: Shape, seen: seq<nat>, xs: seq<Item>, head: seq<nat>)
    requires |head| == HEADER && Conforms(shape, seen, xs)
    ensures Conforms(WithHeader(shape), head + seen, xs)
    decreases |xs|
  {
    assert (head + seen)[HEADER..] == seen;
    if xs == [] {
    } else {
      assert head + seen + [Token(xs[0])] == head + (seen + [Token(xs[0])]);
      AfterHeader(shape, seen + [Token(xs[0])], xs[1..], head);
    }
  }

  lemma {:induction false} HeaderFields(shape: Shape, hs: seq<Item>, seen: seq<nat>, xs: seq<Item>)
    requires |seen| + |hs| == HEADER && forall i :: 0 <= i < |hs| ==> hs[i].Field?
    requires Conforms(shape, [], xs)
    ensures Conforms(WithHeader(shape), seen, hs + xs)
    decreases |hs|
  {
    if hs == [] {
      assert hs + xs == xs && seen + [] == seen;
      AfterHeader(shape, [], xs, seen);
    } else {
      assert (hs + xs)[1..] == hs[1..] + xs;
      HeaderFields(shape, hs[1..], seen + [Token(hs[0])], xs);
    }
  }

  lemma {:induction false} StartConforms(shapes: Shapes, ts: seq<Task>)
    requires forall i :: 0 <= i < |ts| ==> Conforms(shapes(ts[i].pool, ts[i].method_), [], ts[i].start)
    ensures JobsConform(StartShapes(shapes), StartJobs(ts))
  {
    forall i | 0 <= i < |ts|
      ensures Conforms(StartShapes(shapes)(ts[i].pool, ts[i].method_), [], StartItems(ts[i]))
    {
      HeaderFields(shapes(ts[i].pool, ts[i].method_), Header(ts[i]), [], ts[i].start);
    }
  }

  /** AllocateBulksServer: every entry gets a new buffer. */
  function Allocated(bulk: seq<Entry>, buffer: nat -> nat): seq<Entry> {
    seq(|bulk|, i requires 0 <= i < |bulk| => bulk[i].(data := buffer(i)))
  }

  /** The copy has the task's header, as much of its own to read, and its address to
      send the result to. */
  predicate IsCopy(t: Task, c: Task) {
    && c.pool == t.pool && c.node == t.node && c.dom == t.dom && c.prio == t.prio && c.method_ == t.method_
    && c.flags == t.flags && c.period == t.period && c.retAddr == t.addr && |c.start| == |t.start|
  }

  lemma {:induction false} SavedStartsIs(ts: seq<Task>)
    ensures SavedStarts(ts) == SaveAll(StartJobs(ts))
  {
    hide Written;
    if ts == [] {
    } else {
      SavedStartsIs(ts[..|ts| - 1]);
      assert StartJobs(ts)[..|ts| - 1] == StartJobs(ts[..|ts| - 1]);
    }
  }

  lemma {:induction false} SavedEndsIs(ts: seq<Task>)
    ensures SavedEnds(ts) == SaveAll(EndJobs(ts))
  {
    hide Written;
    if ts == [] {
    } else {
      SavedEndsIs(ts[..|ts| - 1]);
      assert EndJobs(ts)[..|ts| - 1] == EndJobs(ts[..|ts| - 1]);
    }
  }

  /** The task that is made of what was read, at any address, is a copy. */
  ghost predicate MakesCopy(t: Task, seg: Segment, ys: seq<Item>) {
    HasHeader(ys) && forall addr: nat :: IsCopy(t, Rebuilt(seg, ys, addr))
  }

  /** What the receiver of a batch reads: a starting task owns no buffer yet. */
  function StartOwner(j: nat): Owner { Starting }

  function ReadStarts(shapes: Shapes, ts: seq<Task>, buffer: nat -> nat): Result<Batch> {
    var x := SavedStarts(ts);
    LoadAll(StartShapes(shapes), StartOwner, x.tasks, 0, x.md, Allocated(x.bulk, buffer), 0)
  }

  ghost predicate StartsConform(shapes: Shapes, ts: seq<Task>) {
    forall i :: 0 <= i < |ts| ==> Conforms(shapes(ts[i].pool, ts[i].method_), [], ts[i].start)
  }

  lemma {:induction false} StartRead(shapes: Shapes, ts: seq<Task>, buffer: nat -> nat)
    requires StartsConform(shapes, ts)
    ensures var jobs := StartJobs(ts); var x := SavedStarts(ts); var b := Allocated(AllEntries(jobs), buffer);
            && x.bulk == AllEntries(jobs) && |x.tasks| == |ts|
            && (forall j :: 0 <= j < |ts| ==> x.tasks[j] == jobs[j].seg)
            && ReadStarts(shapes, ts, buffer) == Ok(Batch(ReceivedAll(StartOwner, jobs, 0, b, 0), [], b, |b|))
            && BoundAll(StartOwner, jobs, 0, b, 0) == b
            && forall j, m :: 0 <= j < |ts| && 0 <= m < |jobs[j].items| ==> ArrivedAt(StartOwner, jobs, b, j, m)
  {
    hide Conforms, Written, LoadAll, ReceivedAll, BoundAll, ArrivedAt;
    var jobs := StartJobs(ts);
    SavedStartsIs(ts);
    SaveAllIs(jobs);
    var b := Allocated(AllEntries(jobs), buffer);
    StartConforms(shapes, ts);
    BatchRoundTrip(StartShapes(shapes), StartOwner, jobs, b);
    var bound := BoundAll(StartOwner, jobs, 0, b, 0);
    forall i | 0 <= i < |b| ensures bound[i] == b[i] { BoundAllAt(StartOwner, jobs, 0, b, 0, i); }
    assert bound == b;
  }

  lemma {:induction false} HeaderArrives(ts: seq<Task>, b: seq<Entry>, j: nat)
    requires |b| == |AllEntries(StartJobs(ts))| && j < |ts|
    requires forall m :: 0 <= m < |StartItems(ts[j])| ==> ArrivedAt(StartOwner, StartJobs(ts), b, j, m)
    ensures MakesCopy(ts[j], StartJobs(ts)[j].seg, ReceivedAll(StartOwner, StartJobs(ts), 0, b, 0)[j])
  {
    hide ReceivedAll, BoundAll, AllEntries, Place, BulksBefore;
    var ys, xs := ReceivedAll(StartOwner, StartJobs(ts), 0, b, 0)[j], StartItems(ts[j]);
    assert ArrivedAt(StartOwner, StartJobs(ts), b, j, 0);
    forall m | 0 <= m < HEADER ensures ys[m] == Header(ts[j])[m] {
      assert ArrivedAt(StartOwner, StartJobs(ts), b, j, m) && xs[m] == Header(ts[j])[m];
    }
    assert ys[..HEADER] == Header(ts[j]);
    assert ys[0] == Field(ts[j].pool) && ys[1] == Field(ts[j].node) && ys[3] == Field(ts[j].prio);
    assert ys[4] == Field(ts[j].method_) && ys[5] == Field(ts[j].flags) && ys[6] == Field(ts[j].period);
  }

  /** Any batch of tasks written one after the other to run elsewhere arrives as it was:
      the tasks made of what is read are copies, fields are restored, each non-empty
      buffer is the new one of its own entry and holds the sender's bytes, the stream is
      used up and so are the entries. */
  lemma {:induction false} StartRoundTrip(shapes: Shapes, ts: seq<Task>, buffer: nat -> nat, ma: Memory, mb: Memory)
    requires StartsConform(shapes, ts)
    requires Readable(SavedStarts(ts).bulk, ma) && forall i: nat, n: nat :: i < n ==> buffer(i) != buffer(n)
    ensures var jobs := StartJobs(ts); var x := SavedStarts(ts); var r := ReadStarts(shapes, ts, buffer);
            var after := Scatter(Allocated(x.bulk, buffer), mb, Gather(x.bulk, ma));
            && r.Ok? && |r.value.tasks| == |ts| == |x.tasks| && r.value.md == []
            && r.value.bulk == Allocated(x.bulk, buffer) && r.value.off == |x.bulk|
            && (forall j, m :: 0 <= j < |ts| && 0 <= m < |jobs[j].items| ==>
                  StartArrives(jobs[j].items, r.value.tasks[j], m, buffer(Place(jobs, j, m)), ma, after))
            && (forall j :: 0 <= j < |ts| ==> MakesCopy(ts[j], x.tasks[j], r.value.tasks[j]))
  {
    hide ReadStarts, ReceivedAll, BoundAll, Scatter, Gather, SavedStarts, SaveAll, StartsConform, MakesCopy;
    StartRead(shapes, ts, buffer);
    var jobs := StartJobs(ts);
    var a := AllEntries(jobs);
    var b := Allocated(a, buffer);
    var r := ReceivedAll(StartOwner, jobs, 0, b, 0);
    forall j, m | 0 <= j < |ts| && 0 <= m < |jobs[j].items|
      ensures StartArrives(jobs[j].items, r[j], m, buffer(Place(jobs, j, m)), ma, Scatter(b, mb, Gather(a, ma)))
    {
      assert ArrivedAt(StartOwner, jobs, b, j, m);
      if Carries(jobs[j].items[m]) { BytesArrive(StartOwner, jobs, b, ma, mb, j, m); }
    }
    forall j | 0 <= j < |ts| ensures MakesCopy(ts[j], jobs[j].seg, r[j]) { HeaderArrives(ts, b, j); }
  }

  /** The copies that the receiver makes of a batch. */
  function Copies(segs: seq<Segment>, read: seq<seq<Item>>, addr: nat -> nat): seq<Task>
    requires |segs| == |read| && forall i :: 0 <= i < |read| ==> HasHeader(read[i])
  {
    seq(|read|, i requires 0 <= i < |read| => Rebuilt(segs[i], read[i], addr(i)))
  }

  /** The reply to a copy names the task that the copy was made of. */
  lemma {:induction false} ReplyFindsItsTask(shapes: Shapes, ts: seq<Task>, addr: nat -> nat, buffer: nat -> nat)
    requires StartsConform(shapes, ts)
    ensures var x := SavedStarts(ts); var r := ReadStarts(shapes, ts, buffer);
            && r.Ok? && |r.value.tasks| == |ts| == |x.tasks|
            && (forall i :: 0 <= i < |ts| ==> HasHeader(r.value.tasks[i]))
            && var back := SavedEnds(Copies(x.tasks, r.value.tasks, addr)).tasks;
               |back| == |ts| && forall j :: 0 <= j < |ts| ==> back[j].addr == ts[j].addr
  {
    hide ReadStarts, ReceivedAll, BoundAll, SavedStarts, SavedEnds, SaveAll, StartsConform, IsCopy;
    StartRead(shapes, ts, buffer);
    var b := Allocated(AllEntries(StartJobs(ts)), buffer);
    var r := ReceivedAll(StartOwner, StartJobs(ts), 0, b, 0);
    forall i | 0 <= i < |ts| ensures HasHeader(r[i]) { HeaderArrives(ts, b, i); }
    var copies := Copies(SavedStarts(ts).tasks, r, addr);
    SavedEndsIs(copies);
    SaveAllIs(EndJobs(copies));
    forall j | 0 <= j < |ts| ensures SavedEnds(copies).tasks[j].addr == ts[j].addr {
      assert EndJobs(copies)[j].seg.addr == copies[j].retAddr == SavedStarts(ts).tasks[j].addr;
      assert StartJobs(ts)[j].seg.addr == ts[j].addr;
    }
  }

  /** Item m, with the new buffer of its own entry. */
  predicate StartArrives(xs: seq<Item>, ys: seq<Item>, m: nat, own: nat, ma: Memory, after: Memory)
    requires m < |xs|
  {
    && |ys| == |xs| && (xs[m].Field? ==> ys[m] == xs[m])
    && (xs[m].Bulk? ==> ys[m].Bulk? && ys[m].flags == xs[m].flags && ys[m].size == xs[m].size)
    && (xs[m].Bulk? && xs[m].size != 0 ==> ys[m].data == own)
    && (Carries(xs[m]) ==> SameBytes(ma, xs[m].data, after, own, xs[m].size))
  }

  predicate SameBytes(ma: Memory, a: nat, mb: Memory, b: nat, n: nat) {
    a in ma && b in mb && n <= |ma[a]| && n <= |mb[b]| && ma[a][..n] == mb[b][..n]
  }

  // --------------------------------------------------------- the return path

  function EndJobs(ts: seq<Task>): seq<Job> {
    seq(|ts|, i requires 0 <= i < |ts| => EndJob(ts[i]))
  }

  /** Completed tasks come back: fields are restored, each non-empty buffer of the
      waiting task is still its own, its entry now points there, and it receives the
      bytes of the copy, provided that no later entry is bound to the same buffer. */
  lemma {:induction false} ReturnRoundTrip(shapes: Shapes, ts: seq<Task>, own: (nat, nat) -> nat, ma: Memory,
                                           mb: Memory)
    requires forall i :: 0 <= i < |ts| ==> Conforms(shapes(ts[i].pool, ts[i].method_), [], ts[i].end)
    requires Readable(SavedEnds(ts).bulk, ma)
    ensures var jobs := EndJobs(ts); var x := SavedEnds(ts);
            var r := LoadAll(shapes, (j: nat) => Returning((k: nat) => own(j, k)), x.tasks, 0, x.md, x.bulk, 0);
            && r.Ok? && |r.value.tasks| == |ts| && r.value.md == [] && r.value.off == |x.bulk| == |r.value.bulk|
            && |x.tasks| == |ts| && (forall j :: 0 <= j < |ts| ==> x.tasks[j].addr == ts[j].retAddr)
            && var after := Scatter(r.value.bulk, mb, Gather(x.bulk, ma));
               forall j, m :: 0 <= j < |ts| && 0 <= m < |ts[j].end| ==>
                 ReturnArrives(ts[j].end, r.value.tasks[j], m, (k: nat) => own(j, k), r.value.bulk,
                               Place(jobs, j, m), ma, after)
  {
    hide Conforms, Written, LoadAll, ReceivedAll, BoundAll, Scatter, Gather, SavedEnds;
    SavedEndsIs(ts);
    var jobs := EndJobs(ts);
    var x := SaveAll(jobs);
    SaveAllIs(jobs);
    var who: nat -> Owner := (j: nat) => Returning((k: nat) => own(j, k));
    BatchRoundTrip(shapes, who, jobs, x.bulk);
    var b := BoundAll(who, jobs, 0, x.bulk, 0);
    var r := ReceivedAll(who, jobs, 0, x.bulk, 0);
    forall j, m | 0 <= j < |ts| && 0 <= m < |ts[j].end|
      ensures ReturnArrives(ts[j].end, r[j], m, (k: nat) => own(j, k), b, Place(jobs, j, m), ma,
                            Scatter(b, mb, Gather(x.bulk, ma)))
    {
      assert ArrivedAt(who, jobs, x.bulk, j, m);
      if Carries(ts[j].end[m]) {
        PlaceIsOwn(jobs, j, m);
        if LastBound(b, Place(jobs, j, m)) { BytesArrive(who, jobs, x.bulk, ma, mb, j, m); }
      }
    }
  }

  predicate ReturnArrives(xs: seq<Item>, ys: seq<Item>, m: nat, own: nat -> nat, b: seq<Entry>, e: nat,
                          ma: Memory, after: Memory)
    requires m < |xs|
  {
    && |ys| == |xs| && (xs[m].Field? ==> ys[m] == xs[m])
    && (xs[m].Bulk? ==> ys[m].Bulk? && ys[m].flags == xs[m].flags && ys[m].size == xs[m].size)
    && (xs[m].Bulk? && xs[m].size != 0 ==> e < |b| && ys[m].data == own(BulksBefore(xs, m)) == b[e].data)
    && (Carries(xs[m]) && LastBound(b, e) ==> SameBytes(ma, xs[m].data, after, ys[m].data, xs[m].size))
  }

  // --------------------------------------------- when all bytes come back

  lemma {:induction false} ItemOf(xs: seq<Item>, e: nat) returns (m: nat)
    requires e < |Entries(xs)|
    ensures m < |xs| && xs[m].Bulk? && xs[m].size != 0 && Index(xs, m) == e
  {
    if |EntryOf(xs[0])| > e {
      m := 0;
    } else {
      m := ItemOf(xs[1..], e - |EntryOf(xs[0])|);
      m := m + 1;
    }
  }

  /** Every entry is some item's. */
  lemma {:induction false} PlaceOf(jobs: seq<Job>, e: nat) returns (j: nat, m: nat)
    requires e < |AllEntries(jobs)|
    ensures j < |jobs| && m < |jobs[j].items| && jobs[j].items[m].Bulk? && jobs[j].items[m].size != 0
    ensures Place(jobs, j, m) == e
  {
    var n := |Entries(jobs[0].items)|;
    if e < n {
      m := ItemOf(jobs[0].items, e);
      j := 0;
    } else {
      j, m := PlaceOf(jobs[1..], e - n);
      j := j + 1;
    }
  }

  /** Item m of the j-th returning task is a buffer that is sent back. */
  predicate Carried(ts: seq<Task>, j: nat, m: nat) {
    j < |ts| && m < |ts[j].end| && Carries(ts[j].end[m])
  }

  /** The copies' buffers differ, as buffers allocated for each do. */
  ghost predicate CopiesDiffer(ts: seq<Task>) {
    forall j: nat, m: nat, i: nat, n: nat :: Carried(ts, j, m) && Carried(ts, i, n) && (j != i || m != n) ==>
      ts[j].end[m].data != ts[i].end[n].data
  }

  function Target(ts: seq<Task>, own: (nat, nat) -> nat, j: nat, m: nat): nat
    requires Carried(ts, j, m)
  {
    own(j, BulksBefore(ts[j].end, m))
  }

  /** The waiting tasks' buffers differ. */
  ghost predicate TargetsDiffer(ts: seq<Task>, own: (nat, nat) -> nat) {
    forall j: nat, m: nat, i: nat, n: nat :: Carried(ts, j, m) && Carried(ts, i, n) && (j != i || m != n) ==>
      Target(ts, own, j, m) != Target(ts, own, i, n)
  }

  function Owners(own: (nat, nat) -> nat): nat -> Owner { (j: nat) => Returning((k: nat) => own(j, k)) }

  /** The entries after every task of the batch was read. */
  function ReturnBound(ts: seq<Task>, own: (nat, nat) -> nat): seq<Entry> {
    BoundAll(Owners(own), EndJobs(ts), 0, AllEntries(EndJobs(ts)), 0)
  }

  /** Whatever the memories hold, the copy's bytes come back. */
  ghost predicate ComesBack(ts: seq<Task>, own: (nat, nat) -> nat, j: nat, m: nat)
    requires Carried(ts, j, m)
  {
    var a := AllEntries(EndJobs(ts));
    forall ma, mb :: Readable(a, ma) ==>
      SameBytes(ma, ts[j].end[m].data, Scatter(ReturnBound(ts, own), mb, Gather(a, ma)), Target(ts, own, j, m),
          ts[j].end[m].size)
  }

  lemma {:induction false} ReturnSizes(ts: seq<Task>, own: (nat, nat) -> nat)
    ensures SameSizes(AllEntries(EndJobs(ts)), ReturnBound(ts, own))
  {
    var jobs := EndJobs(ts);
    var a := AllEntries(jobs);
    forall i | 0 <= i < |a|
      ensures a[i].flags == ReturnBound(ts, own)[i].flags && a[i].size == ReturnBound(ts, own)[i].size
    {
      BoundAllAt(Owners(own), jobs, 0, a, 0, i);
    }
  }

  /** The entry of a buffer, before and after. */
  lemma {:induction false} CarriedEntry(ts: seq<Task>, own: (nat, nat) -> nat, j: nat, m: nat)
    requires Carried(ts, j, m)
    ensures var jobs := EndJobs(ts); var x := ts[j].end[m]; var e := Place(jobs, j, m);
            && e < |AllEntries(jobs)| == |ReturnBound(ts, own)|
            && AllEntries(jobs)[e] == Entry(x.flags, x.data, x.size)
            && ReturnBound(ts, own)[e] == Entry(x.flags, Target(ts, own, j, m), x.size)
  {
    hide BoundAll, ReceivedAll;
    var jobs := EndJobs(ts);
    PlaceIsOwn(jobs, j, m);
    ItemArrives(Owners(own), jobs, 0, AllEntries(jobs), 0, j, m);
    ReturnSizes(ts, own);
  }

  lemma {:induction false} SentIsCarried(ts: seq<Task>, e: nat) returns (j: nat, m: nat)
    requires e < |AllEntries(EndJobs(ts))| && IsSent(AllEntries(EndJobs(ts))[e])
    ensures Carried(ts, j, m) && Place(EndJobs(ts), j, m) == e
  {
    j, m := PlaceOf(EndJobs(ts), e);
    PlaceIsOwn(EndJobs(ts), j, m);
  }

  lemma {:induction false} CarriedApart(ts: seq<Task>, j: nat, m: nat, i: nat, n: nat)
    requires Carried(ts, j, m) && Carried(ts, i, n)
    ensures Place(EndJobs(ts), j, m) == Place(EndJobs(ts), i, n) <==> j == i && m == n
  {
    if j < i || (j == i && m < n) {
      PlacesDiffer(EndJobs(ts), j, m, i, n);
    } else if i < j || n < m {
      PlacesDiffer(EndJobs(ts), i, n, j, m);
    }
  }

  lemma {:induction false} SourcesOwn(ts: seq<Task>)
    requires CopiesDiffer(ts)
    ensures OwnSources(AllEntries(EndJobs(ts)))
  {
    var jobs := EndJobs(ts);
    var a := AllEntries(jobs);
    forall e | 0 <= e < |a| && IsSent(a[e]) ensures a[e].size > 0 {
      var j, m := SentIsCarried(ts, e);
      PlaceIsOwn(jobs, j, m);
    }
    forall e, f | 0 <= e < f < |a| && IsSent(a[e]) && IsSent(a[f]) ensures a[e].data != a[f].data {
      var j, m := SentIsCarried(ts, e);
      var i, n := SentIsCarried(ts, f);
      PlaceIsOwn(jobs, j, m);
      PlaceIsOwn(jobs, i, n);
    }
  }

  lemma {:induction false} TargetsSeparate(ts: seq<Task>, own: (nat, nat) -> nat)
    ensures Separate(ReturnBound(ts, own)) <==> TargetsDiffer(ts, own)
  {
    hide ReturnBound, Place;
    var a, b := AllEntries(EndJobs(ts)), ReturnBound(ts, own);
    ReturnSizes(ts, own);
    if Separate(b) {
      forall j, m, i, n | Carried(ts, j, m) && Carried(ts, i, n) && (j != i || m != n)
        ensures Target(ts, own, j, m) != Target(ts, own, i, n)
      {
        CarriedEntry(ts, own, j, m);
        CarriedEntry(ts, own, i, n);
        CarriedApart(ts, j, m, i, n);
      }
    }
    if TargetsDiffer(ts, own) {
      forall e, f | 0 <= e < f < |b| && IsSent(b[e]) && IsSent(b[f]) ensures b[e].data != b[f].data {
        var j, m := SentIsCarried(ts, e);
        var i, n := SentIsCarried(ts, f);
        CarriedEntry(ts, own, j, m);
        CarriedEntry(ts, own, i, n);
      }
    }
  }

  lemma {:induction false} ComesBackIsIntact(ts: seq<Task>, own: (nat, nat) -> nat, j: nat, m: nat)
    requires Carried(ts, j, m)
    ensures var a := AllEntries(EndJobs(ts)); var b := ReturnBound(ts, own); var e := Place(EndJobs(ts), j, m);
            && SameSizes(a, b) && e < |b| && IsSent(b[e])
            && (ComesBack(ts, own, j, m) <==> AlwaysIntact(a, b, e))
  {
    hide ReturnBound, Place, Scatter, Gather;
    ReturnSizes(ts, own);
    CarriedEntry(ts, own, j, m);
    var a, b, e := AllEntries(EndJobs(ts)), ReturnBound(ts, own), Place(EndJobs(ts), j, m);
    var x := ts[j].end[m];
    forall ma, mb | Readable(a, ma)
      ensures Intact(a, ma, b, mb, e)
              <==> SameBytes(ma, x.data, Scatter(b, mb, Gather(a, ma)), Target(ts, own, j, m), x.size)
    {
      assert a[e].data in ma;
    }
  }

  /** On the return path every byte that is sent comes back, whatever the memories
      hold, exactly if no two buffers that are sent back are bound to one buffer of
      the waiting tasks. */
  lemma {:induction false} ReturnBytesComeBackIff(shapes: Shapes, ts: seq<Task>, own: (nat, nat) -> nat)
    requires forall i :: 0 <= i < |ts| ==> Conforms(shapes(ts[i].pool, ts[i].method_), [], ts[i].end)
    requires CopiesDiffer(ts)
    ensures var x := SavedEnds(ts); var r := LoadAll(shapes, Owners(own), x.tasks, 0, x.md, x.bulk, 0);
            r.Ok? && r.value.bulk == ReturnBound(ts, own) && x.bulk == AllEntries(EndJobs(ts))
    ensures (forall j: nat, m: nat :: Carried(ts, j, m) ==> ComesBack(ts, own, j, m)) <==> TargetsDiffer(ts, own)
  {
    hide Conforms, Written, LoadAll, ReceivedAll, BoundAll, Place, AlwaysIntact, ComesBack, Separate, SavedEnds;
    SavedEndsIs(ts);
    var jobs := EndJobs(ts);
    var a, b := AllEntries(jobs), ReturnBound(ts, own);
    SaveAllIs(jobs);
    BatchRoundTrip(shapes, Owners(own), jobs, a);
    SourcesOwn(ts);
    ReturnSizes(ts, own);
    AllIntactIff(a, b);
    TargetsSeparate(ts, own);
    hide ReturnBound, TargetsDiffer;
    forall j, m | Carried(ts, j, m)
      ensures var e := Place(jobs, j, m);
              e < |b| && IsSent(b[e]) && (ComesBack(ts, own, j, m) <==> AlwaysIntact(a, b, e))
    {
      ComesBackIsIntact(ts, own, j, m);
    }
    forall e | 0 <= e < |b| && IsSent(b[e]) ensures exists j, m :: Carried(ts, j, m) && Place(jobs, j, m) == e {
      var j, m := SentIsCarried(ts, e);
    }
  }

  function OneBuffer(addr: nat, data: nat): Task {
    Task(addr, addr, 0, 0, 0, 0, 0, 0, 0, [], [Bulk(3, data, 1)])
  }

  lemma {:induction false} SecondPrevails(a: seq<Entry>, b: seq<Entry>, ma: Memory)
    requires a == [Entry(3, 10, 1), Entry(3, 20, 1)] && b == [Entry(3, 7, 1), Entry(3, 7, 1)]
    requires ma == map[10 := [1], 20 := [2]]
    ensures Readable(a, ma) && Scatter(b, map[], Gather(a, ma)) == map[7 := [2]]
  {
    assert a[1..] == [Entry(3, 20, 1)] && a[1..][1..] == [] && b[1..] == [Entry(3, 7, 1)] && b[1..][1..] == [];
    assert Gather(a[1..], ma) == [2];
    assert Gather(a, ma) == [1, 2];
    var m0: Memory, m1: Memory := map[], map[7 := [1]];
    assert [1] + Tail(m0, 7, 1) == [1] && [1, 2][..1] == [1] && [1, 2][1..] == [2];
    assert Scatter(b, m0, [1, 2]) == Scatter(b[1..], m1, [2]);
    assert [2] + Tail(m1, 7, 1) == [2];
    assert Scatter(b[1..], m1, [2]) == Scatter([], m1[7 := [2]], []);
  }

  /** Two copies of one byte each whose tasks wait with the same buffer: the second
      byte prevails and the first is lost. */
  lemma {:induction false} SharedBufferLosesBytes()
    ensures var ts := [OneBuffer(1, 10), OneBuffer(2, 20)]; var own := (j: nat, k: nat) => 7;
            var a := AllEntries(EndJobs(ts)); var ma: Memory := map[10 := [1], 20 := [2]];
            Readable(a, ma) && Scatter(ReturnBound(ts, own), map[], Gather(a, ma)) == map[7 := [2]]
  {
    var ts := [OneBuffer(1, 10), OneBuffer(2, 20)];
    var own := (j: nat, k: nat) => 7;
    var jobs := EndJobs(ts);
    assert jobs[1..][1..] == [] && [Bulk(3, 10, 1)][1..] == [] && [Bulk(3, 20, 1)][1..] == [];
    assert Entries(jobs[0].items) == [Entry(3, 10, 1)] && Entries(jobs[1..][0].items) == [Entry(3, 20, 1)];
    assert AllEntries(jobs[1..]) == [Entry(3, 20, 1)];
    CarriedEntry(ts, own, 0, 0);
    CarriedEntry(ts, own, 1, 0);
    assert Place(jobs, 0, 0) == 0 && Place(jobs, 1, 0) == 1;
    hide ReturnBound, Scatter, Gather;
    SecondPrevails(AllEntries(jobs), ReturnBound(ts, own), map[10 := [1], 20 := [2]]);
  }
}
