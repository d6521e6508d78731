/** The loops of the remote queue's server: draining a queue into one batch per node,
    and signalling the submit tasks of a completed batch. */
module RemoteServers {
  import opened RemoteQueues
  import opened RemoteRuns
  import opened RemoteTheorems

  /** A queued task with the node it goes to. */
  datatype Entry = Entry(task: nat, node: nat, flush: bool)

  /** The entries for node u, in order. */
  function For(q: seq<Entry>, u: nat): seq<Entry> {
    if q == [] then [] else (if q[0].node == u then [q[0]] else []) + For(q[1..], u)
  }

  function NonFlush(q: seq<Entry>): nat {
    if q == [] then 0 else One(q[0].flush) + NonFlush(q[1..])
  }

  predicate Goes(q: seq<Entry>, u: nat) { exists i :: 0 <= i < |q| && q[i].node == u }

  lemma {:induction false} ForAppend(q: seq<Entry>, x: Entry, u: nat)
    ensures For(q + [x], u) == For(q, u) + if x.node == u then [x] else []
    ensures NonFlush(q + [x]) == NonFlush(q) + One(x.flush)
  {
    var all := q + [x];
    if q == [] {
      assert all == [x] && all[1..] == [];
    } else {
      assert all[0] == q[0] && all[1..] == q[1..] + [x];
      ForAppend(q[1..], x, u);
      var first := if q[0].node == u then [q[0]] else [];
      var last := if x.node == u then [x] else [];
      assert first + (For(q[1..], u) + last) == (first + For(q[1..], u)) + last;
    }
  }

  /** Batches keep every entry: none is in two batches, none in no batch. */
  lemma {:induction false} BatchesPartition(q: seq<Entry>, x: Entry, u: nat)
    ensures multiset(For(q, u))[x] == if x.node == u then multiset(q)[x] else 0
  {
    if q == [] {
    } else {
      assert q == [q[0]] + q[1..];
      BatchesPartition(q[1..], x, u);
    }
  }

  // ---------------------------------------------- the machine drains likewise

  /** A replica as an entry of the submit queue, or of the complete queue. */
  ghost function EntryOf(x: Replica, r: nat, done: bool): Entry { Entry(r, if done then x.ret else x.dest, x.flush) }

  ghost function Entries(reps: seq<Replica>, q: seq<nat>, done: bool): seq<Entry> {
    seq(|q|, i requires 0 <= i < |q| =>
      if q[i] < |reps| then EntryOf(reps[q[i]], q[i], done) else Entry(q[i], 0, true))
  }

  ghost function Queue(v: nat, done: bool): Place { if done then CompleteQ(v) else SubmitQ(v) }
  ghost function Out(v: nat, u: nat, done: bool): Place { if done then OutC(v, u) else OutS(v, u) }
  ghost function PopOf(v: nat, done: bool): Event { if done then PopDone(v) else Pop(v) }
  ghost function Times(e: Event, n: nat): seq<Event> { seq(n, i => e) }

  ghost predicate SameEntries(a: seq<Replica>, b: seq<Replica>) {
    && |a| == |b|
    && forall r :: 0 <= r < |a| ==> a[r].dest == b[r].dest && a[r].ret == b[r].ret && a[r].flush == b[r].flush
  }

  /** The batches of node v and its counter after draining q, compared with before. */
  ghost predicate Drained(s: Net, t: Net, v: nat, q: seq<nat>, done: bool) {
    && |t.pending| == |s.pending| && v < |s.pending| && SameEntries(s.reps, t.reps)
    && t.pending[v] == s.pending[v] + (if done then 0 else NonFlush(Entries(s.reps, q, done)))
    && forall u: nat :: BatchGrew(s, t, v, u, q, done)
  }

  ghost function Batch(s: Net, v: nat, u: nat, done: bool): seq<Entry> {
    Entries(s.reps, List(s, Out(v, u, done)), done)
  }

  /** The batch of v for u has grown by what q holds for u. */
  ghost predicate BatchGrew(s: Net, t: Net, v: nat, u: nat, q: seq<nat>, done: bool) {
    Batch(t, v, u, done) == Batch(s, v, u, done) + For(Entries(s.reps, q, done), u)
  }

  lemma {:induction false} OneEntry(x: Entry, u: nat)
    ensures For([x], u) == (if x.node == u then [x] else []) && NonFlush([x]) == One(x.flush)
  {
    assert [x][1..] == [];
  }

  /** What one pop changes. */
  lemma {:induction false} PopEffect(s: Net, v: nat, done: bool)
    requires v < |s.pending| && Enabled(s, PopOf(v, done))
    ensures var t := Next(s, PopOf(v, done)); var x := List(s, Queue(v, done))[0];
            && x < |s.reps| && |t.pending| == |s.pending| && SameEntries(s.reps, t.reps)
            && List(t, Queue(v, done)) == List(s, Queue(v, done))[1..]
            && t.pending[v] == s.pending[v] + (if done then 0 else One(s.reps[x].flush))
            && forall u: nat :: List(t, Out(v, u, done))
                 == List(s, Out(v, u, done)) + if EntryOf(s.reps[x], x, done).node == u then [x] else []
  {}

  lemma {:induction false} PopDrains(s: Net, v: nat, done: bool)
    requires v < |s.pending| && Enabled(s, PopOf(v, done))
    ensures var x := List(s, Queue(v, done))[0]; Drained(s, Next(s, PopOf(v, done)), v, [x], done)
  {
    hide For, NonFlush, Next, Entries, List;
    PopEffect(s, v, done);
    var x, t := List(s, Queue(v, done))[0], Next(s, PopOf(v, done));
    var e := EntryOf(s.reps[x], x, done);
    EntriesOne(s.reps, x, done);
    OneEntry(e, 0);
    forall u: nat ensures BatchGrew(s, t, v, u, [x], done) {
      OneEntry(e, u);
      var was := List(s, Out(v, u, done));
      EntriesFrame(s.reps, t.reps, List(t, Out(v, u, done)), done);
      EntriesAppend(s.reps, was, x, done);
      assert was + [] == was && Batch(s, v, u, done) + [] == Batch(s, v, u, done);
    }
  }

  lemma {:induction false} EntriesOne(reps: seq<Replica>, x: nat, done: bool)
    requires x < |reps|
    ensures Entries(reps, [x], done) == [EntryOf(reps[x], x, done)]
  {}

  lemma {:induction false} EntriesAppend(reps: seq<Replica>, q: seq<nat>, x: nat, done: bool)
    requires x < |reps|
    ensures Entries(reps, q + [x], done) == Entries(reps, q, done) + [EntryOf(reps[x], x, done)]
  {}

  lemma {:induction false} PopOne(s: Net, v: nat, done: bool)
    requires Inv(s) && v < |s.pending| && List(s, Queue(v, done)) != []
    ensures Enabled(s, PopOf(v, done)) && Inv(Next(s, PopOf(v, done)))
    ensures List(Next(s, PopOf(v, done)), Queue(v, done)) == List(s, Queue(v, done))[1..]
    ensures Drained(s, Next(s, PopOf(v, done)), v, [List(s, Queue(v, done))[0]], done)
  {
    LooseTake(s, Queue(v, done));
    assert Enabled(s, PopOf(v, done));
    hide Inv, Loose, Next, Enabled, Drained;
    StepInv(s, PopOf(v, done));
    PopEffect(s, v, done);
    PopDrains(s, v, done);
  }

  lemma {:induction false} EntriesFrame(a: seq<Replica>, b: seq<Replica>, q: seq<nat>, done: bool)
    requires SameEntries(a, b)
    ensures Entries(a, q, done) == Entries(b, q, done)
  {}

  lemma {:induction false} EntriesSplit(reps: seq<Replica>, q: seq<nat>, done: bool)
    requires q != []
    ensures Entries(reps, q, done) == Entries(reps, [q[0]], done) + Entries(reps, q[1..], done)
    ensures |Entries(reps, [q[0]], done)| == 1
  {}

  lemma {:induction false} SplitFirst(q: seq<Entry>, a: seq<Entry>, b: seq<Entry>, u: nat)
    requires q == a + b && |a| == 1
    ensures For(q, u) == For(a, u) + For(b, u) && NonFlush(q) == NonFlush(a) + NonFlush(b)
  {
    assert a == [q[0]] && b == q[1..];
    OneEntry(q[0], u);
  }

  lemma {:induction false} DrainedTrans(s: Net, t: Net, o: Net, v: nat, q: seq<nat>, done: bool)
    requires q != [] && Drained(s, t, v, [q[0]], done) && Drained(t, o, v, q[1..], done)
    ensures Drained(s, o, v, q, done)
  {
    hide Entries, For, NonFlush;
    var a, b, c := Entries(s.reps, q, done), Entries(s.reps, [q[0]], done), Entries(s.reps, q[1..], done);
    EntriesFrame(s.reps, t.reps, q[1..], done);
    EntriesSplit(s.reps, q, done);
    SplitFirst(a, b, c, 0);
    forall u: nat ensures BatchGrew(s, o, v, u, q, done) {
      SplitFirst(a, b, c, u);
      assert BatchGrew(s, t, v, u, [q[0]], done) && BatchGrew(t, o, v, u, q[1..], done);
      var was := Batch(s, v, u, done);
      assert (was + For(b, u)) + For(c, u) == was + (For(b, u) + For(c, u));
    }
  }

  lemma {:induction false} RunPrepend(s: Net, e: Event, tt: seq<Net>, n: nat)
    requires Enabled(s, e) && IsRun(tt, Times(e, n)) && tt[0] == Next(s, e)
    ensures IsRun([s] + tt, Times(e, n + 1))
  {
    hide Enabled, Next;
    var ss, es := [s] + tt, Times(e, n + 1);
    forall i | 0 <= i < |es| ensures Step(ss, es, i) {
      if i > 0 { assert Step(tt, Times(e, n), i - 1); }
    }
  }

  /** From any state, popping until the submit or complete queue of a node is empty is
      a run, and leaves for each node the batch, and in the counter the sum, that
      ClientSubmit or ServerComplete computes. */
  lemma {:induction false} DrainIsRun(s: Net, v: nat, done: bool) returns (ss: seq<Net>)
    requires Inv(s) && v < |s.pending|
    ensures var q := List(s, Queue(v, done));
            && IsRun(ss, Times(PopOf(v, done), |q|)) && ss[0] == s
            && List(ss[|q|], Queue(v, done)) == [] && Drained(s, ss[|q|], v, q, done)
    decreases |List(s, Queue(v, done))|
  {
    var q := List(s, Queue(v, done));
    if q == [] {
      ss := [s];
      assert Entries(s.reps, q, done) == [];
    } else {
      hide Inv, Next, Enabled, Step;
      PopOne(s, v, done);
      var t := Next(s, PopOf(v, done));
      assert |t.pending| == |s.pending|;
      hide Drained;
      var tt := DrainIsRun(t, v, done);
      ss := [s] + tt;
      RunPrepend(s, PopOf(v, done), tt, |q| - 1);
      DrainedTrans(s, t, ss[|q|], v, q, done);
    }
  }

  // ------------------------------------------- and completes a batch likewise

  /** How many of the tasks belong to submit task i. */
  function Signals(batch: seq<Entry>, submitOf: nat -> nat, i: nat): nat {
    if batch == [] then 0
    else (if submitOf(batch[0].task) == i then 1 else 0) + Signals(batch[1..], submitOf, i)
  }

  ghost function SubmitOf(reps: seq<Replica>): nat -> nat {
    (r: nat) => if r < |reps| then reps[r].submit else 0
  }

  ghost predicate SameSubmits(a: seq<Replica>, b: seq<Replica>) {
    |a| == |b| && forall r :: 0 <= r < |a| ==> a[r].submit == b[r].submit
  }

  /** Counters, requeues and pending count after completing batch q on node v. */
  ghost predicate Completed(s: Net, t: Net, v: nat, q: seq<nat>) {
    var batch := Entries(s.reps, q, true);
    && |t.pending| == |s.pending| && v < |s.pending| && SameEntries(s.reps, t.reps) && SameSubmits(s.reps, t.reps)
    && t.msgs == s.msgs && t.pending[v] == s.pending[v] - NonFlush(batch)
    && |t.submits| == |s.submits|
    && forall i :: 0 <= i < |s.submits| ==> Woken(s.submits[i], t.submits[i], Signals(batch, SubmitOf(s.reps), i))
  }

  /** The counter went down by n, and the task was requeued once if it reached zero on the way. */
  predicate Woken(t: Submit, u: Submit, n: nat) {
    u.count == t.count - n && u.resumed == t.resumed + if 1 <= t.count <= n then 1 else 0
  }

  lemma {:induction false} CompleteOne(s: Net, k: nat)
    requires Inv(s) && k < |s.msgs| && List(s, WireC(k)) != []
    ensures Enabled(s, Complete(k)) && Inv(Next(s, Complete(k)))
    ensures List(Next(s, Complete(k)), WireC(k)) == List(s, WireC(k))[1..]
    ensures s.msgs[k].to < |s.pending| && Completed(s, Next(s, Complete(k)), s.msgs[k].to, [List(s, WireC(k))[0]])
  {
    LooseTake(s, WireC(k));
    var x := List(s, WireC(k))[0];
    assert RepOk(s, x);
    hide Inv, Loose, NonFlush;
    StepInv(s, Complete(k));
    var batch := Entries(s.reps, [x], true);
    assert batch == [EntryOf(s.reps[x], x, true)] && batch[1..] == [];
    OneEntry(batch[0], 0);
    forall i ensures Signals(batch, SubmitOf(s.reps), i) == if s.reps[x].submit == i then 1 else 0 {
      assert Signals(batch[1..], SubmitOf(s.reps), i) == 0;
    }
  }

  lemma {:induction false} SignalsFrame(batch: seq<Entry>, f: nat -> nat, g: nat -> nat, i: nat)
    requires forall r: nat :: f(r) == g(r)
    ensures Signals(batch, f, i) == Signals(batch, g, i)
  {
    if batch == [] {
    } else {
      SignalsFrame(batch[1..], f, g, i);
    }
  }

  lemma {:induction false} CompletedTrans(s: Net, t: Net, o: Net, v: nat, q: seq<nat>)
    requires q != [] && Completed(s, t, v, [q[0]]) && Completed(t, o, v, q[1..])
    ensures Completed(s, o, v, q)
  {
    var a, b, c := Entries(s.reps, q, true), Entries(s.reps, [q[0]], true), Entries(s.reps, q[1..], true);
    EntriesFrame(s.reps, t.reps, q[1..], true);
    assert a[1..] == c && b == [a[0]] && b[1..] == [];
    OneEntry(a[0], 0);
    hide Entries, NonFlush;
    assert NonFlush(a) == NonFlush(b) + NonFlush(c) by { NonFlushSplit(a); }
    forall i | 0 <= i < |s.submits| ensures Woken(s.submits[i], o.submits[i], Signals(a, SubmitOf(s.reps), i)) {
      SignalsFrame(c, SubmitOf(s.reps), SubmitOf(t.reps), i);
      assert Signals(b[1..], SubmitOf(s.reps), i) == 0;
      assert Woken(s.submits[i], t.submits[i], Signals(b, SubmitOf(s.reps), i));
      assert Woken(t.submits[i], o.submits[i], Signals(c, SubmitOf(t.reps), i));
    }
  }

  lemma {:induction false} NonFlushSplit(q: seq<Entry>)
    requires q != []
    ensures NonFlush(q) == NonFlush([q[0]]) + NonFlush(q[1..])
  {
    OneEntry(q[0], 0);
  }

  /** From any state, completing a message task by task is a run, and leaves the
      counters, the requeued submit tasks and the pending count that RpcTaskComplete
      computes. */
  lemma {:induction false} CompleteIsRun(s: Net, k: nat) returns (ss: seq<Net>)
    requires Inv(s) && k < |s.msgs| && s.msgs[k].to < |s.pending|
    ensures var q := List(s, WireC(k));
            && IsRun(ss, Times(Complete(k), |q|)) && ss[0] == s
            && List(ss[|q|], WireC(k)) == [] && Completed(s, ss[|q|], s.msgs[k].to, q)
    decreases |List(s, WireC(k))|
  {
    var q := List(s, WireC(k));
    if q == [] {
      ss := [s];
      assert Entries(s.reps, q, true) == [];
    } else {
      hide Inv, Next, Enabled, Step;
      CompleteOne(s, k);
      var t := Next(s, Complete(k));
      assert t.msgs == s.msgs && |t.pending| == |s.pending|;
      hide Completed;
      var tt := CompleteIsRun(t, k);
      ss := [s] + tt;
      RunPrepend(s, Complete(k), tt, |q| - 1);
      CompletedTrans(s, t, ss[|q|], s.msgs[k].to, q);
    }
  }

  // ------------------------------------------------------------------- loops

  /** An entry joins the batch of its node; a node without a batch gets one. */
  function Added(batches: map<nat, seq<Entry>>, x: Entry): map<nat, seq<Entry>> {
    batches[x.node := (if x.node in batches then batches[x.node] else []) + [x]]
  }

  /** One batch for each node that an entry goes to, with the entries for it. */
  ghost predicate Batched(batches: map<nat, seq<Entry>>, q: seq<Entry>) {
    && (forall u: nat :: u in batches <==> Goes(q, u))
    && (forall u: nat :: u in batches ==> batches[u] == For(q, u))
  }

  lemma {:induction false} NothingFor(q: seq<Entry>, u: nat)
    requires !Goes(q, u)
    ensures For(q, u) == []
  {
    if q == [] {
    } else {
      assert q[0].node != u;
      assert forall i :: 0 <= i < |q[1..]| ==> q[1..][i] == q[i + 1];
      NothingFor(q[1..], u);
    }
  }

  lemma {:induction false} NoneBatched()
    ensures Batched(map[], [])
  {}

  lemma {:induction false} BatchedAdd(batches: map<nat, seq<Entry>>, q: seq<Entry>, x: Entry)
    requires Batched(batches, q)
    ensures Batched(Added(batches, x), q + [x])
  {
    GoesAppend(q, x);
    ForAppend(q, x, x.node);
    if x.node !in batches { NothingFor(q, x.node); }
    forall u: nat | u in batches && u != x.node ensures For(q + [x], u) == batches[u] { ForAppend(q, x, u); }
  }

  class Server {
    var submit: seq<Entry>
    var complete: seq<Entry>
    var pending: int
    var counts: map<nat, int>

    function Count(i: nat): int
      reads this
    {
      if i in counts then counts[i] else 0
    }

    /** The submit queue is drained into one batch per node, in order. */
    method ClientSubmit() returns (batches: map<nat, seq<Entry>>)
      modifies this`submit, this`pending
      ensures submit == [] && pending == old(pending) + NonFlush(old(submit))
      ensures Batched(batches, old(submit))
    {
      hide Batched, Added;
      batches := map[];
      ghost var taken: seq<Entry> := [];
      NoneBatched();
      while submit != []
        invariant taken + submit == old(submit) && pending == old(pending) + NonFlush(taken)
        invariant Batched(batches, taken)
        decreases |submit|
      {
        var entry := submit[0];
        submit := submit[1..];
        BatchedAdd(batches, taken, entry);
        ForAppend(taken, entry, 0);
        batches := Added(batches, entry);
        pending := pending + One(entry.flush);
        taken := taken + [entry];
      }
      assert taken == old(submit);
    }

    /** The same for completed tasks, which go back to the nodes they came from. */
    method ServerComplete() returns (batches: map<nat, seq<Entry>>)
      modifies this`complete
      ensures complete == [] && Batched(batches, old(complete))
    {
      hide Batched, Added;
      batches := map[];
      ghost var taken: seq<Entry> := [];
      NoneBatched();
      while complete != []
        invariant taken + complete == old(complete) && Batched(batches, taken)
        decreases |complete|
      {
        var entry := complete[0];
        complete := complete[1..];
        BatchedAdd(batches, taken, entry);
        batches := Added(batches, entry);
        taken := taken + [entry];
      }
      assert taken == old(complete);
    }

    /** Each task of a completed batch signals its submit task. The tasks that go
        back to a lane are those whose counter reached zero, once each. */
    method RpcTaskComplete(batch: seq<Entry>, submitOf: nat -> nat) returns (woken: seq<nat>)
      modifies this`counts, this`pending
      ensures pending == old(pending) - NonFlush(batch)
      ensures forall i: nat :: Count(i) == old(Count(i)) - Signals(batch, submitOf, i)
      ensures forall i: nat :: multiset(woken)[i] == if 1 <= old(Count(i)) <= Signals(batch, submitOf, i) then 1 else 0
    {
      woken := [];
      for k := 0 to |batch|
        invariant pending == old(pending) - NonFlush(batch[..k])
        invariant forall i: nat :: Count(i) == old(Count(i)) - Signals(batch[..k], submitOf, i)
        invariant forall i: nat ::
            multiset(woken)[i] == if 1 <= old(Count(i)) <= Signals(batch[..k], submitOf, i) then 1 else 0
      {
        hide NonFlush, Signals;
        var i := submitOf(batch[k].task);
        var count := Count(i) - 1;
        counts := counts[i := count];
        if count == 0 {
          woken := woken + [i];
        }
        pending := pending - One(batch[k].flush);
        assert batch[..k + 1] == batch[..k] + [batch[k]];
        ForAppend(batch[..k], batch[k], 0);
        forall j: nat
          ensures Signals(batch[..k + 1], submitOf, j) == Signals(batch[..k], submitOf, j) + if i == j then 1 else 0
        {
          SignalsAppend(batch[..k], batch[k], submitOf, j);
        }
      }
      assert batch[..|batch|] == batch;
    }
  }

  lemma {:induction false} SignalsAppend(q: seq<Entry>, x: Entry, submitOf: nat -> nat, i: nat)
    ensures Signals(q + [x], submitOf, i) == Signals(q, submitOf, i) + if submitOf(x.task) == i then 1 else 0
  {
    if q == [] {
      assert (q + [x])[1..] == [] && (q + [x])[0] == x;
    } else {
      assert (q + [x])[1..] == q[1..] + [x] && (q + [x])[0] == q[0];
      SignalsAppend(q[1..], x, submitOf, i);
    }
  }

  lemma {:induction false} GoesAppend(q: seq<Entry>, x: Entry)
    ensures forall u: nat :: Goes(q + [x], u) <==> Goes(q, u) || x.node == u
  {
    forall u: nat ensures Goes(q + [x], u) <==> Goes(q, u) || x.node == u {
      if Goes(q, u) {
        var i :| 0 <= i < |q| && q[i].node == u;
        assert (q + [x])[i].node == u;
      }
      if x.node == u { assert (q + [x])[|q|].node == u; }
    }
  }
}
