/** The remote task protocol over whole runs. */
module RemoteTheorems {
  import opened Common
  import opened RemoteQueues
  import opened RemoteRuns

  predicate Step(ss: seq<Net>, es: seq<Event>, i: nat)
    requires |ss| == |es| + 1 && i < |es|
  {
    Enabled(ss[i], es[i]) && ss[i + 1] == Next(ss[i], es[i])
  }

  predicate IsRun(ss: seq<Net>, es: seq<Event>) {
    |ss| == |es| + 1 && forall i :: 0 <= i < |es| ==> Step(ss, es, i)
  }

  predicate Fresh(s: Net) {
    && s.lists == map[] && s.msgs == [] && s.reps == [] && s.submits == []
    && forall v :: 0 <= v < |s.pending| ==> s.pending[v] == 0
  }

  lemma {:induction false} RunInv(ss: seq<Net>, es: seq<Event>, n: nat)
    requires IsRun(ss, es) && n <= |es| && Fresh(ss[0])
    ensures Inv(ss[n])
  {
    if n > 0 {
      assert Step(ss, es, n - 1);
      RunInv(ss, es, n - 1);
      StepInv(ss[n - 1], es[n - 1]);
    } else {
      forall v | 0 <= v < |ss[0].pending| ensures PendingOk(ss[0], v) { assert Outstanding([], v) == {}; }
    }
  }

  /** Every replica of submit task i has completed, after its node handled it once. */
  ghost predicate AllHandled(s: Net, i: nat) {
    forall r :: 0 <= r < |s.reps| && s.reps[r].submit == i ==>
      s.reps[r].place.Gone? && s.reps[r].handled == [s.reps[r].dest]
  }

  /** In every reachable state, the counter of a submit task is the number of its
      replicas that have not completed, those not queued yet included; and it has
      been resumed exactly once if it has made a replica for each node that its task
      resolved to, in order, and every one of them was handled by that node and has
      completed, and not at all otherwise. */
  lemma {:induction false} SubmitResumesOnceAfterLast(ss: seq<Net>, es: seq<Event>, i: nat)
    requires IsRun(ss, es) && Fresh(ss[0]) && i < |ss[|es|].submits|
    ensures var s := ss[|es|]; var t := s.submits[i];
            && t.count == |t.todo| + |Open(s.reps, i)|
            && i < |Starts(es, |es|)| && IsStartOf(Starts(es, |es|)[i], t)
            && t.targets == DestsOf(s.reps, i) + t.todo
            && t.resumed <= 1
            && (t.resumed == 1 <==> t.targets == DestsOf(s.reps, i) && AllHandled(s, i))
  {
    RunInv(ss, es, |es|);
    var s := ss[|es|];
    SubmitsAreStarts(ss, es, |es|);
    assert SubmitOk(s, i) && DestsOk(s, i);
    OpenIsEmpty(s, i);
  }

  lemma {:induction false} OpenIsEmpty(s: Net, i: nat)
    requires Reps(s)
    ensures |Open(s.reps, i)| == 0 <==> AllHandled(s, i)
  {
    if |Open(s.reps, i)| == 0 {
      forall r | 0 <= r < |s.reps| && s.reps[r].submit == i
        ensures s.reps[r].place.Gone? && s.reps[r].handled == [s.reps[r].dest]
      {
        assert r !in Open(s.reps, i);
        assert RepOk(s, r);
      }
    } else {
      var r :| r in Open(s.reps, i);
    }
  }

  /** No replica is handled twice, or anywhere but on the node it resolved to, and
      none is lost: it is in one queue, once, or at its node, or completed. */
  lemma {:induction false} ReplicaRunsOnceOnItsNode(ss: seq<Net>, es: seq<Event>, r: nat)
    requires IsRun(ss, es) && Fresh(ss[0]) && r < |ss[|es|].reps|
    ensures var s := ss[|es|]; var x := s.reps[r];
            && x.handled <= [x.dest] && (x.place.Gone? ==> x.handled == [x.dest])
            && (forall p :: multiset(List(s, p))[r] == if p == x.place && IsQueue(p) then 1 else 0)
            && (!IsQueue(x.place) ==>
                  x.place == At(x.dest) || (x.place.Delegated? && x.place.v == x.dest) || x.place == Gone)
  {
    RunInv(ss, es, |es|);
    var s := ss[|es|];
    assert RepOk(s, r);
    forall p ensures multiset(List(s, p))[r] == if p == s.reps[r].place && IsQueue(p) then 1 else 0 {
      assert multiset(List(s, p))[r] == Here(s.reps, p, r);
    }
  }

  // ----------------------------------------------- what was submitted

  /** The submissions among the first n events, in order. */
  function Starts(es: seq<Event>, n: nat): seq<Event>
    requires n <= |es|
  {
    if n == 0 then [] else Starts(es, n - 1) + if es[n - 1].Start? then [es[n - 1]] else []
  }

  /** Submit task t is the one that event e starts. */
  predicate IsStartOf(e: Event, t: Submit) {
    e.Start? && t.node == e.v && t.targets == e.targets && t.flush == e.flush && t.parent == e.parent
  }

  lemma {:induction false} StepStarts(s: Net, e: Event)
    requires Enabled(s, e)
    ensures var t := Next(s, e);
            && |t.submits| == |s.submits| + (if e.Start? then 1 else 0)
            && (forall i :: 0 <= i < |s.submits| ==> SameTask(s.submits[i], t.submits[i]))
            && (e.Start? ==> IsStartOf(e, t.submits[|s.submits|]))
  {}

  /** There is one submit task per submission, for the task, targets and node it was
      made with. */
  lemma {:induction false} SubmitsAreStarts(ss: seq<Net>, es: seq<Event>, n: nat)
    requires IsRun(ss, es) && Fresh(ss[0]) && n <= |es|
    ensures |ss[n].submits| == |Starts(es, n)|
    ensures forall i :: 0 <= i < |ss[n].submits| ==> IsStartOf(Starts(es, n)[i], ss[n].submits[i])
  {
    hide Enabled, Next;
    if n == 0 {
    } else {
      assert Step(ss, es, n - 1);
      SubmitsAreStarts(ss, es, n - 1);
      StepStarts(ss[n - 1], es[n - 1]);
    }
  }

  /** Replica r was made for a submission of node v that is not a flush task. */
  ghost predicate IsWorkOf(s: Net, starts: seq<Event>, r: nat, v: nat) {
    && r < |s.reps| && s.reps[r].submit < |starts|
    && var e := starts[s.reps[r].submit]; e.Start? && e.v == v && !e.flush
  }

  /** The work of node v that has not completed, and the part of it that ClientSubmit
      has serialised. */
  ghost function Unfinished(s: Net, starts: seq<Event>, v: nat): set<nat> {
    set r | 0 <= r < |s.reps| && IsWorkOf(s, starts, r, v) && !s.reps[r].place.Gone?
  }

  ghost function Serialised(s: Net, starts: seq<Event>, v: nat): set<nat> {
    set r | r in Unfinished(s, starts, v) && !s.reps[r].place.SubmitQ?
  }

  lemma {:induction false} SerialisedIsOutstanding(s: Net, starts: seq<Event>, v: nat)
    requires Reps(s) && |starts| == |s.submits|
    requires forall i :: 0 <= i < |s.submits| ==> IsStartOf(starts[i], s.submits[i])
    ensures Serialised(s, starts, v) == Outstanding(s.reps, v)
    ensures forall r :: r in Unfinished(s, starts, v) ==> r < |s.reps| && s.reps[r].home == v
  {
    forall r | 0 <= r < |s.reps|
      ensures IsWorkOf(s, starts, r, v) <==> s.reps[r].home == v && !s.reps[r].flush
    {
      assert RepOk(s, r);
      assert IsStartOf(starts[s.reps[r].submit], s.submits[s.reps[r].submit]);
    }
  }

  lemma {:induction false} FewInList(q: seq<nat>, a: set<nat>)
    requires forall r :: r in a ==> r in q
    ensures |a| <= |q|
  {
    if q == [] {
      assert a == {};
    } else {
      FewInList(q[1..], a - {q[0]});
    }
  }

  /** pending_ is exactly the number of copies that ClientSubmit serialised and that
      have not completed of tasks submitted on the node as no flush tasks, so it is
      never negative, and what the flush monitor adds up is never less than the remote
      work that is left. */
  lemma {:induction false} PendingNeverUndercounts(ss: seq<Net>, es: seq<Event>, v: nat)
    requires IsRun(ss, es) && Fresh(ss[0]) && v < |ss[|es|].pending|
    ensures var s := ss[|es|];
            && s.pending[v] == |Serialised(s, Starts(es, |es|), v)| >= 0
            && |List(s, SubmitQ(v))| + s.pending[v] >= |Unfinished(s, Starts(es, |es|), v)|
  {
    RunInv(ss, es, |es|);
    SubmitsAreStarts(ss, es, |es|);
    var s, starts := ss[|es|], Starts(es, |es|);
    SerialisedIsOutstanding(s, starts, v);
    assert PendingOk(s, v);
    hide IsWorkOf, Starts, IsRun;
    var queued := Unfinished(s, starts, v) - Serialised(s, starts, v);
    forall r | r in queued ensures r in List(s, SubmitQ(v)) {
      assert RepOk(s, r);
      assert multiset(List(s, SubmitQ(v)))[r] == Here(s.reps, SubmitQ(v), r);
      assert r in multiset(List(s, SubmitQ(v)));
    }
    FewInList(List(s, SubmitQ(v)), queued);
    assert Unfinished(s, starts, v) == queued + Serialised(s, starts, v);
  }

  // -------------------------------------------------------------- delegation

  /** Submit task j serves a replica of i, directly or through other submit tasks. */
  ghost predicate Below(s: Net, j: nat, i: nat)
    requires Parents(s) && j < |s.submits|
    decreases j
  {
    s.submits[j].parent.Some? &&
    (assert ParentOk(s, j);
     var k := s.reps[s.submits[j].parent.value].submit;
     k == i || Below(s, k, i))
  }

  lemma {:induction false} BelowIsClosed(s: Net, j: nat, i: nat)
    requires Inv(s) && i < |s.submits| && j < |s.submits| && s.submits[i].resumed == 1 && Below(s, j, i)
    ensures s.submits[j].closed && s.submits[j].resumed == 1
    decreases j
  {
    assert ParentOk(s, j) && SubmitOk(s, j);
    var r := s.submits[j].parent.value;
    var k := s.reps[r].submit;
    if k != i { BelowIsClosed(s, k, i); }
    assert SubmitOk(s, k);
    OpenIsEmpty(s, k);
  }

  /** A resumed submit task leaves nothing behind: all that copies of its task
      delegated, however deep, was resumed before it. */
  lemma {:induction false} DelegatedWorkEndsFirst(ss: seq<Net>, es: seq<Event>, i: nat)
    requires IsRun(ss, es) && Fresh(ss[0]) && i < |ss[|es|].submits|
    ensures Parents(ss[|es|])
    ensures var s := ss[|es|];
            s.submits[i].resumed == 1 ==>
              forall j :: 0 <= j < |s.submits| && Below(s, j, i) ==> s.submits[j].resumed == 1 && AllHandled(s, j)
  {
    RunInv(ss, es, |es|);
    var s := ss[|es|];
    if s.submits[i].resumed == 1 {
      forall j | 0 <= j < |s.submits| && Below(s, j, i) ensures s.submits[j].resumed == 1 && AllHandled(s, j) {
        BelowIsClosed(s, j, i);
        assert SubmitOk(s, j);
        OpenIsEmpty(s, j);
      }
    }
  }

  // ---------------------------------------------------------------- progress

  /** The step that takes a replica on from where it is. */
  ghost function Onward(s: Net, r: nat): Event
    requires r < |s.reps|
  {
    match s.reps[r].place
    case SubmitQ(v) => Pop(v)
    case OutS(v, u) => Send(v, u)
    case WireS(k) => Receive(k)
    case At(v) => Execute(r)
    case Delegated(v, i) => Close(i)
    case CompleteQ(v) => PopDone(v)
    case OutC(v, u) => SendDone(v, u)
    case WireC(k) => Complete(k)
    case Gone => Execute(r)
  }

  lemma {:induction false} OnwardEnabled(s: Net, r: nat)
    requires Inv(s) && r < |s.reps| && !s.reps[r].place.Gone? && !s.reps[r].place.Delegated?
    ensures Enabled(s, Onward(s, r))
  {
    assert RepOk(s, r);
    var p := s.reps[r].place;
    if IsQueue(p) {
      assert multiset(List(s, p))[r] == Here(s.reps, p, r);
      assert r in List(s, p);
      LooseTake(s, p);
      assert RepOk(s, List(s, p)[0]);
    }
  }

  /** Until every submit task has been resumed, some step is possible: the protocol
      cannot come to a halt with work left. */
  lemma {:induction false} NeverStuck(s: Net, i: nat) returns (e: Event)
    requires Inv(s) && i < |s.submits| && s.submits[i].resumed == 0
    ensures Enabled(s, e) && !e.Start?
    decreases |s.submits| - i
  {
    assert SubmitOk(s, i);
    if s.submits[i].todo != [] {
      e := Emplace(i);
    } else {
      var r :| r in Open(s.reps, i);
      assert WaitOk(s, r);
      if s.reps[r].place.Delegated? {
        var j := s.reps[r].place.i;
        assert SubmitOk(s, j);
        if s.submits[j].resumed == 0 { e := NeverStuck(s, j); } else { e := Close(j); }
      } else {
        OnwardEnabled(s, r);
        e := Onward(s, r);
      }
    }
  }

  lemma {:induction false} RunsNeverHalt(ss: seq<Net>, es: seq<Event>, i: nat) returns (e: Event)
    requires IsRun(ss, es) && Fresh(ss[0]) && i < |ss[|es|].submits| && ss[|es|].submits[i].resumed == 0
    ensures Enabled(ss[|es|], e) && !e.Start?
  {
    RunInv(ss, es, |es|);
    e := NeverStuck(ss[|es|], i);
  }
}
