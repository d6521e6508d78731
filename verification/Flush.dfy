/** Flushing: worker 0 marks all workers, waits for each to finish a round, and ends
    the flush only when no work counter moved. BeginFlush, EndFlush, AnyFlushing and
    AnyFlushWorkDone of src/work_orchestrator/worker.cc. */
module Flushing {

  /** What worker 0 is about to do: loop, mark worker i (first flushing, then
      tmp_flushing), run its queues, wait at the barrier, compare or copy the counter
      of worker i, or unmark it. */
  datatype Root =
    | Working
    | Mark(i: nat, half: bool)
    | Running
    | Barrier(i: nat)
    | Collect(i: nat, ret: bool)
    | Copy(i: nat)
    | Unmark(i: nat, half: bool)

  /** Per worker: the two flags, the work counter and the value last collected. The
      rest is history: who passed EndFlush since marked, and the counters when the
      last collection ended and when the current one began. */
  datatype Flush = Flush(flushing: seq<bool>, tmp: seq<bool>, count: seq<nat>, done: seq<nat>, root: Root,
                         passed: seq<bool>, lastEnd: seq<nat>, began: seq<nat>)

  /** A worker ends a task or does other work, a worker other than 0 passes
      EndFlush, worker 0 starts a flush, or takes its next step. */
  datatype Event = Grow(w: nat, k: nat) | Pass(w: nat) | Start | Root

  predicate Sized(s: Flush) {
    && |s.tmp| == |s.flushing| && |s.count| == |s.flushing| && |s.done| == |s.flushing|
    && |s.passed| == |s.flushing| && |s.lastEnd| == |s.flushing| && |s.began| == |s.flushing| && |s.flushing| > 0
  }

  predicate Enabled(s: Flush, e: Event) {
    match e
    case Grow(w, k) => w < |s.flushing| && k > 0
    case Pass(w) => 0 < w < |s.flushing|
    case Start => s.root.Working?
    case Root => !s.root.Working?
  }

  function RootStep(s: Flush): (r: Flush)
    requires Sized(s)
    ensures Sized(r) && |r.flushing| == |s.flushing| && r.count == s.count
  {
    var n := |s.flushing|;
    match s.root
    case Working => s
    case Mark(i, half) =>
      if i >= n then s.(root := Running)
      else if !half then s.(flushing := s.flushing[i := true], root := Mark(i, true))
      else s.(tmp := s.tmp[i := true], passed := s.passed[i := false], root := Mark(i + 1, false))
    case Running => s.(tmp := s.tmp[0 := false], passed := s.passed[0 := true], root := Barrier(0))
    case Barrier(i) =>
      if i >= n then s.(began := s.count, root := Collect(0, false))
      else if s.tmp[i] then s.(root := Barrier(0))
      else s.(root := Barrier(i + 1))
    case Collect(i, ret) =>
      if i >= n then s.(lastEnd := s.count, root := if ret then Working else Unmark(0, false))
      else if s.count[i] != s.done[i] then s.(root := Copy(i))
      else s.(root := Collect(i + 1, ret))
    case Copy(i) =>
      if i >= n then s else s.(done := s.done[i := s.count[i]], root := Collect(i + 1, true))
    case Unmark(i, half) =>
      if i >= n then s.(root := Working)
      else if !half then s.(flushing := s.flushing[i := false], root := Unmark(i, true))
      else s.(tmp := s.tmp[i := false], root := Unmark(i + 1, false))
  }

  function Next(s: Flush, e: Event): (r: Flush)
    requires Sized(s) && Enabled(s, e)
    ensures Sized(r) && |r.flushing| == |s.flushing|
  {
    match e
    case Grow(w, k) => s.(count := s.count[w := s.count[w] + k])
    case Pass(w) => s.(tmp := s.tmp[w := false], passed := s.passed[w := true])
    case Start => s.(root := Mark(0, false))
    case Root => RootStep(s)
  }

  // --------------------------------------------------------------- invariant

  predicate Le(a: seq<nat>, b: seq<nat>) {
    |a| == |b| && forall j :: 0 <= j < |a| ==> a[j] <= b[j]
  }

  /** Worker j's flag is down only if it passed since it was marked. */
  predicate Marked(s: Flush, j: nat)
    requires Sized(s) && j < |s.tmp|
  {
    s.tmp[j] || s.passed[j]
  }

  predicate Collecting(s: Flush) { s.root.Collect? || s.root.Copy? }

  /** The workers up to and including those marked half are told to flush; all are while
      a flush goes on, and none of those that are unmarked. */
  predicate FlushingOk(s: Flush)
    requires Sized(s)
  {
    && (s.root.Mark? ==> forall j :: 0 <= j < |s.flushing| && (j < s.root.i || (j == s.root.i && s.root.half)) ==>
          s.flushing[j])
    && (s.root.Running? || s.root.Barrier? || Collecting(s) ==> forall j :: 0 <= j < |s.flushing| ==> s.flushing[j])
    && (s.root.Unmark? ==> forall j :: 0 <= j < |s.flushing| && (j < s.root.i || (j == s.root.i && s.root.half)) ==>
          !s.flushing[j])
    && (s.root.Unmark? ==> forall j :: 0 <= j < |s.flushing| && j < s.root.i ==> !s.tmp[j])
  }

  predicate FlagsOk(s: Flush)
    requires Sized(s)
  {
    && (s.root.Mark? ==> s.root.i <= |s.tmp| && forall j :: 0 <= j < s.root.i ==> Marked(s, j))
    && (s.root.Running? || s.root.Barrier? || Collecting(s) ==> forall j :: 0 <= j < |s.tmp| ==> Marked(s, j))
    && (s.root.Barrier? ==> s.root.i <= |s.tmp| && forall j :: 0 <= j < s.root.i ==> !s.tmp[j])
    && (Collecting(s) ==> s.root.i <= |s.tmp| && forall j :: 0 <= j < |s.tmp| ==> !s.tmp[j])
  }

  /** While collecting: what is not yet collected dates from before the last end, and
      as long as nothing was found, no counter collected so far has moved since. */
  predicate CountsOk(s: Flush)
    requires Sized(s)
  {
    && Le(s.lastEnd, s.count) && Le(s.done, s.count)
    && (!Collecting(s) ==> Le(s.done, s.lastEnd))
    && (Collecting(s) ==>
          && Le(s.lastEnd, s.began) && Le(s.began, s.count)
          && (forall j :: s.root.i <= j < |s.done| ==> s.done[j] <= s.lastEnd[j])
          && (s.root.Collect? && !s.root.ret ==>
                Le(s.done, s.lastEnd) && forall j :: 0 <= j < s.root.i && j < |s.began| ==> s.lastEnd[j] == s.began[j]))
  }

  predicate Ok(s: Flush) { Sized(s) && FlushingOk(s) && FlagsOk(s) && CountsOk(s) }

  lemma {:induction false} FlushingStep(s: Flush, e: Event)
    requires Ok(s) && Enabled(s, e)
    ensures FlushingOk(Next(s, e))
  {
    hide CountsOk;
  }

  lemma {:induction false} FlagsStep(s: Flush, e: Event)
    requires Ok(s) && Enabled(s, e)
    ensures FlagsOk(Next(s, e))
  {
    hide CountsOk, FlushingOk;
    var r := Next(s, e);
    forall j | 0 <= j < |s.tmp| && Marked(s, j)
      ensures Marked(r, j) || s.root.Mark? || s.root.Unmark? || s.root.Working?
    {}
    forall j | 0 <= j < |s.tmp| && s.root.Mark? && j < s.root.i ensures Marked(r, j) { assert Marked(s, j); }
  }

  lemma {:induction false} CountsStep(s: Flush, e: Event)
    requires Ok(s) && Enabled(s, e)
    ensures CountsOk(Next(s, e))
  {
    hide FlagsOk, FlushingOk;
  }

  // -------------------------------------------------------------------- runs

  predicate Step(ss: seq<Flush>, es: seq<Event>, i: nat)
    requires |ss| == |es| + 1 && i < |es|
  {
    Sized(ss[i]) && Enabled(ss[i], es[i]) && ss[i + 1] == Next(ss[i], es[i])
  }

  predicate IsRun(ss: seq<Flush>, es: seq<Event>) {
    |ss| == |es| + 1 && forall i :: 0 <= i < |es| ==> Step(ss, es, i)
  }

  /** Nothing marked, nothing collected. */
  predicate Fresh(s: Flush) {
    && Sized(s) && s.root.Working? && s.lastEnd == s.count
    && forall j :: 0 <= j < |s.done| ==> s.done[j] == 0
  }

  lemma {:induction false} RunOk(ss: seq<Flush>, es: seq<Event>, k: nat)
    requires IsRun(ss, es) && Fresh(ss[0]) && k <= |es|
    ensures Ok(ss[k])
  {
    if k == 0 {
    } else {
      RunOk(ss, es, k - 1);
      hide FlagsOk, CountsOk, FlushingOk, Next;
      assert Step(ss, es, k - 1);
      FlushingStep(ss[k - 1], es[k - 1]);
      FlagsStep(ss[k - 1], es[k - 1]);
      CountsStep(ss[k - 1], es[k - 1]);
    }
  }

  /** Worker 0 decides at step k that the flush is over. */
  predicate Decides(ss: seq<Flush>, es: seq<Event>, k: nat)
    requires |ss| == |es| + 1 && k < |es|
  {
    es[k] == Event.Root && ss[k].root == Collect(|ss[k].flushing|, false)
  }

  /** A collection ends with step k, whatever it found. */
  predicate Ends(ss: seq<Flush>, es: seq<Event>, k: nat)
    requires |ss| == |es| + 1 && k < |es|
  {
    es[k] == Event.Root && ss[k].root.Collect? && ss[k].root.i >= |ss[k].flushing|
  }

  /** When the last collection ended, or the run began. */
  lemma {:induction false} LastEnd(ss: seq<Flush>, es: seq<Event>, k: nat) returns (a: nat)
    requires IsRun(ss, es) && Fresh(ss[0]) && k <= |es|
    ensures a <= k && ss[k].lastEnd == ss[a].count && (a == 0 || Ends(ss, es, a - 1))
    ensures forall m :: a <= m < k ==> !Ends(ss, es, m)
  {
    a := 0;
    if k == 0 {
    } else {
      assert Step(ss, es, k - 1);
      if Ends(ss, es, k - 1) { a := k; } else { a := LastEnd(ss, es, k - 1); }
    }
  }

  /** When the current collection began. */
  lemma {:induction false} Began(ss: seq<Flush>, es: seq<Event>, k: nat) returns (b: nat)
    requires IsRun(ss, es) && Fresh(ss[0]) && k <= |es| && Collecting(ss[k])
    ensures b <= k && ss[b].root == Collect(0, false) && ss[k].began == ss[b].count
    ensures forall m :: b <= m < k ==> !Ends(ss, es, m)
  {
    assert k > 0;
    assert Step(ss, es, k - 1);
    if Collecting(ss[k - 1]) { b := Began(ss, es, k - 1); } else { b := k; }
  }

  lemma {:induction false} CountsGrow(ss: seq<Flush>, es: seq<Event>, a: nat, b: nat)
    requires IsRun(ss, es) && a <= b <= |es|
    ensures Le(ss[a].count, ss[b].count)
    decreases b - a
  {
    if a >= b {
    } else {
      CountsGrow(ss, es, a, b - 1);
      assert Step(ss, es, b - 1);
    }
  }

  lemma {:induction false} NoGrowth(ss: seq<Flush>, es: seq<Event>, a: nat, b: nat, m: nat)
    requires IsRun(ss, es) && a <= m < b <= |es| && ss[a].count == ss[b].count
    ensures ss[m].count == ss[a].count && !es[m].Grow?
  {
    assert Step(ss, es, m);
    CountsGrow(ss, es, a, m);
    CountsGrow(ss, es, m, m + 1);
    CountsGrow(ss, es, m + 1, b);
    assert ss[m].count == ss[a].count == ss[m + 1].count;
  }

  /** Flushing ends only after a quiet window: when worker 0 decides that it is over,
      there is an interval from the end of the previous collection to the beginning
      of this one in which no work counter moved, so nobody ended a task, and every
      worker was told to flush and has passed EndFlush since it was marked. */
  lemma {:induction false} QuietWindow(ss: seq<Flush>, es: seq<Event>, k: nat) returns (a: nat, b: nat)
    requires IsRun(ss, es) && Fresh(ss[0]) && k < |es| && Decides(ss, es, k)
    ensures a < b <= k && (a == 0 || Ends(ss, es, a - 1)) && ss[b].root == Collect(0, false)
    ensures forall m :: a <= m < k ==> !Ends(ss, es, m)
    ensures forall m :: a <= m < b ==> ss[m].count == ss[a].count && !es[m].Grow?
    ensures Sized(ss[k]) && forall j :: 0 <= j < |ss[k].passed| ==> ss[k].passed[j] && ss[k].flushing[j]
  {
    RunOk(ss, es, k);
    a := LastEnd(ss, es, k);
    b := Began(ss, es, k);
    assert ss[k].lastEnd == ss[k].began;
    if b <= a {
      RootAfterEnd(ss, es, a);
      assert false;
    }
    forall m | a <= m < b ensures ss[m].count == ss[a].count && !es[m].Grow? { NoGrowth(ss, es, a, b, m); }
    forall j | 0 <= j < |ss[k].passed| ensures ss[k].passed[j] && ss[k].flushing[j] {
      assert Marked(ss[k], j);
    }
  }

  /** When worker 0 has taken the flags down and goes back to its loop, no worker is told
      to flush any more. */
  lemma {:induction false} FlushEndsEverywhere(ss: seq<Flush>, es: seq<Event>, k: nat)
    requires IsRun(ss, es) && Fresh(ss[0]) && k < |es| && ss[k].root.Unmark? && ss[k + 1].root.Working?
    ensures var s := ss[k + 1];
            Sized(s) && forall j :: 0 <= j < |s.flushing| ==> !s.flushing[j] && !s.tmp[j]
  {
    RunOk(ss, es, k);
    assert Step(ss, es, k);
  }

  lemma {:induction false} RootAfterEnd(ss: seq<Flush>, es: seq<Event>, a: nat)
    requires IsRun(ss, es) && Fresh(ss[0]) && a <= |es| && (a == 0 || Ends(ss, es, a - 1))
    ensures !Collecting(ss[a])
  {
    if a > 0 { assert Step(ss, es, a - 1); }
  }

  // ---------------------------------------------------------------- in place

  class FlushFlags {
    var flushing: array<bool>
    var tmp: array<bool>
    var count: array<nat>
    var done: array<nat>
    var iter: nat
    var queue: seq<nat>

    predicate Valid()
      reads this
    {
      && tmp != flushing && count != done
      && tmp.Length == flushing.Length && count.Length == flushing.Length && done.Length == flushing.Length
    }

    method AnyFlushing() returns (any: bool)
      requires Valid()
      ensures any <==> exists j :: 0 <= j < tmp.Length && tmp[j]
    {
      for i := 0 to tmp.Length
        invariant forall j :: 0 <= j < i ==> !tmp[j]
      {
        if tmp[i] { return true; }
      }
      return false;
    }

    /** Every counter is collected, and the answer is whether one had moved. */
    method AnyFlushWorkDone() returns (ret: bool)
      requires Valid()
      modifies done
      ensures done[..] == count[..]
      ensures ret <==> old(done[..]) != count[..]
    {
      ret := false;
      for i := 0 to count.Length
        invariant done[..i] == count[..i]
        invariant forall j :: i <= j < done.Length ==> done[j] == old(done[j])
        invariant ret <==> exists j :: 0 <= j < i && old(done[j]) != count[j]
      {
        if count[i] != done[i] {
          done[i] := count[i];
          ret := true;
        }
      }
    }

    method MarkAll(on: bool)
      requires Valid()
      modifies flushing, tmp
      ensures forall j :: 0 <= j < tmp.Length ==> flushing[j] == on && tmp[j] == on
    {
      for i := 0 to flushing.Length
        invariant forall j :: 0 <= j < i ==> flushing[j] == on && tmp[j] == on
      {
        flushing[i] := on;
        tmp[i] := on;
      }
    }

    /** The end of EndFlush on worker 0, past the barrier: another round if a counter
        had moved, otherwise all flags are taken down, the flush queue is reaped, and the
        runtime is finalized if it was beginning to shut down. */
    method Conclude(shutdown: bool) returns (over: bool, reaped: seq<nat>, finalize: bool)
      requires Valid()
      modifies flushing, tmp, done, this`iter, this`queue
      ensures done[..] == count[..] && (over <==> old(done[..]) == count[..])
      ensures over ==> iter == 0 && forall j :: 0 <= j < tmp.Length ==> !flushing[j] && !tmp[j]
      ensures over ==> queue == [] && reaped == old(queue) && finalize == shutdown
      ensures !over ==> iter == old(iter) + 1 && flushing[..] == old(flushing[..]) && tmp[..] == old(tmp[..])
      ensures !over ==> queue == old(queue) && reaped == [] && !finalize
    {
      reaped, finalize := [], false;
      var moved := AnyFlushWorkDone();
      if moved {
        iter := iter + 1;
      } else {
        MarkAll(false);
        while queue != []
          modifies this`queue
          invariant reaped + queue == old(queue)
          decreases |queue|
        {
          reaped, queue := reaped + [queue[0]], queue[1..];
        }
        finalize := shutdown;
        iter := 0;
      }
      over := !moved;
    }
  }
}
