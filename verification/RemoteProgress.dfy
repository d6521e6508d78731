/** The remote task protocol comes to an end: every step other than a new submission
    brings it closer, and where no step is left all work is done. */
module RemoteProgress {
  import opened RemoteQueues
  import opened RemoteRuns
  import opened RemoteTheorems

  /** How many steps a replica has before it at most. */
  function Rank(p: Place): nat {
    match p
    case SubmitQ(_) => 8
    case OutS(_, _) => 7
    case WireS(_) => 6
    case At(_) => 5
    case Delegated(_, _) => 4
    case CompleteQ(_) => 3
    case OutC(_, _) => 2
    case WireC(_) => 1
    case Gone => 0
  }

  function Ranks(reps: seq<Replica>): nat {
    if reps == [] then 0 else Rank(reps[|reps| - 1].place) + Ranks(reps[..|reps| - 1])
  }

  /** A replica to be made has nine steps before it, a submit task its closing. */
  function Left(t: Submit): nat { 9 * |t.todo| + if t.closed then 0 else 1 }

  function Lefts(submits: seq<Submit>): nat {
    if submits == [] then 0 else Left(submits[|submits| - 1]) + Lefts(submits[..|submits| - 1])
  }

  function Measure(s: Net): nat { Ranks(s.reps) + Lefts(s.submits) }

  lemma {:induction false} RanksLess(a: seq<Replica>, b: seq<Replica>)
    requires |a| == |b| && forall r :: 0 <= r < |a| ==> Rank(b[r].place) <= Rank(a[r].place)
    ensures Ranks(b) <= Ranks(a)
    ensures (exists r :: 0 <= r < |a| && Rank(b[r].place) < Rank(a[r].place)) ==> Ranks(b) < Ranks(a)
  {
    hide Rank;
    if a == [] {
    } else {
      var n := |a| - 1;
      RanksLess(a[..n], b[..n]);
      if r :| 0 <= r < |a| && Rank(b[r].place) < Rank(a[r].place) {
        assert r < n ==> Rank(b[..n][r].place) < Rank(a[..n][r].place);
      }
    }
  }

  lemma {:induction false} LeftsUpdate(a: seq<Submit>, i: nat, t: Submit)
    requires i < |a|
    ensures Lefts(a[i := t]) + Left(a[i]) == Lefts(a) + Left(t)
  {
    hide Left;
    var n := |a| - 1;
    if i == n {
      assert a[i := t][..n] == a[..n];
    } else {
      assert a[i := t][..n] == a[..n][i := t];
      LeftsUpdate(a[..n], i, t);
    }
  }

  /** No step but a new submission or the making of a replica moves a replica back,
      and the one it moves comes closer. */
  lemma {:induction false} RanksStep(s: Net, e: Event)
    requires Inv(s) && Enabled(s, e) && !e.Start? && !e.Emplace?
    ensures var t := Next(s, e);
            && |t.reps| == |s.reps| && Ranks(t.reps) <= Ranks(s.reps)
            && (!e.Close? ==> Ranks(t.reps) < Ranks(s.reps))
  {
    var t := Next(s, e);
    RepsStayFor(s, e);
    forall r | 0 <= r < |s.reps| ensures Rank(t.reps[r].place) <= Rank(s.reps[r].place) { RankStep(s, e, r); }
    if !e.Close? {
      var x := Mover(s, e);
      assert Rank(t.reps[x].place) < Rank(s.reps[x].place);
    }
    hide Rank, Next, Enabled;
    RanksLess(s.reps, t.reps);
  }

  lemma {:induction false} RankStep(s: Net, e: Event, r: nat)
    requires Inv(s) && Enabled(s, e) && !e.Start? && !e.Emplace? && r < |s.reps|
    ensures r < |Next(s, e).reps| && Rank(Next(s, e).reps[r].place) <= Rank(s.reps[r].place)
  {
    if Moving(s, e) < |s.reps| { MovingFrom(s, e); }
    hide Inv;
    if !e.Send? && !e.SendDone? { NextFrame(s, e); }
  }

  /** A replica that the step brings closer. */
  lemma {:induction false} Mover(s: Net, e: Event) returns (x: nat)
    requires Inv(s) && Enabled(s, e) && !e.Start? && !e.Emplace? && !e.Close?
    ensures x < |s.reps| && x < |Next(s, e).reps|
    ensures Rank(Next(s, e).reps[x].place) < Rank(s.reps[x].place)
  {
    if e.Send? {
      x := List(s, OutS(e.v, e.u))[0];
      LooseTake(s, OutS(e.v, e.u));
    } else if e.SendDone? {
      x := List(s, OutC(e.v, e.u))[0];
      LooseTake(s, OutC(e.v, e.u));
    } else {
      x := Moving(s, e);
      MovingFrom(s, e);
    }
  }

  /** The submit tasks' share: a replica is made, a task is closed, or nothing changes. */
  lemma {:induction false} LeftsStep(s: Net, e: Event)
    requires Enabled(s, e) && !e.Start?
    ensures Lefts(Next(s, e).submits) ==
            Lefts(s.submits) - if e.Emplace? then 9 else if e.Close? then 1 else 0
  {
    if e.Emplace? || e.Close? {
      LeftsUpdate(s.submits, e.i, Next(s, e).submits[e.i]);
    } else if e.Complete? {
      var i := s.reps[List(s, WireC(e.k))[0]].submit;
      LeftsUpdate(s.submits, i, Next(s, e).submits[i]);
    }
  }

  /** Every step other than a new submission lowers the measure. */
  lemma {:induction false} StepCounts(s: Net, e: Event)
    requires Inv(s) && Enabled(s, e) && !e.Start?
    ensures Measure(Next(s, e)) < Measure(s)
  {
    LeftsStep(s, e);
    if e.Emplace? {
      var reps := Next(s, e).reps;
      assert reps[..|reps| - 1] == s.reps;
    } else {
      hide Next, Enabled, Inv;
      RanksStep(s, e);
    }
  }

  lemma {:induction false} RunCounts(ss: seq<Net>, es: seq<Event>, i: nat, n: nat)
    requires IsRun(ss, es) && Fresh(ss[0]) && i <= n <= |es|
    requires forall k :: i <= k < n ==> !es[k].Start?
    ensures n - i + Measure(ss[n]) <= Measure(ss[i])
    decreases n - i
  {
    if i >= n {
    } else {
      RunCounts(ss, es, i, n - 1);
      RunInv(ss, es, n - 1);
      assert Step(ss, es, n - 1);
      StepCounts(ss[n - 1], es[n - 1]);
    }
  }

  /** Nothing can happen but a new submission. */
  ghost predicate Quiet(s: Net) { forall e :: Enabled(s, e) ==> e.Start? }

  lemma {:induction false} QuietIsDone(s: Net)
    requires Inv(s) && Quiet(s)
    ensures forall i :: 0 <= i < |s.submits| ==> s.submits[i].resumed == 1 && s.submits[i].closed && AllHandled(s, i)
    ensures forall v :: 0 <= v < |s.pending| ==> s.pending[v] == 0
  {
    forall i | 0 <= i < |s.submits| ensures s.submits[i].resumed == 1 && s.submits[i].closed && AllHandled(s, i) {
      assert SubmitOk(s, i);
      if s.submits[i].resumed == 0 {
        var e := NeverStuck(s, i);
        assert false;
      }
      OpenIsEmpty(s, i);
      assert ParentOk(s, i);
      assert !Enabled(s, Close(i));
    }
    forall r | 0 <= r < |s.reps| ensures s.reps[r].place.Gone? {
      assert RepOk(s, r);
      assert AllHandled(s, s.reps[r].submit);
    }
    forall v | 0 <= v < |s.pending| ensures s.pending[v] == 0 {
      assert PendingOk(s, v);
      assert Outstanding(s.reps, v) == {};
    }
  }

  /** From any reachable state on, a run without new submissions has a bounded number
      of steps, and one that cannot go on has resumed and closed every submit task,
      with every replica handled and completed and nothing pending on any node. */
  lemma {:induction false} WorkComesToAnEnd(ss: seq<Net>, es: seq<Event>, i: nat)
    requires IsRun(ss, es) && Fresh(ss[0]) && i <= |es| && forall k :: i <= k < |es| ==> !es[k].Start?
    ensures |es| - i <= Measure(ss[i])
    ensures var s := ss[|es|];
            Quiet(s) ==>
              && (forall t :: 0 <= t < |s.submits| ==>
                    s.submits[t].resumed == 1 && s.submits[t].closed && AllHandled(s, t))
              && (forall v :: 0 <= v < |s.pending| ==> s.pending[v] == 0)
  {
    RunCounts(ss, es, i, |es|);
    RunInv(ss, es, |es|);
    if Quiet(ss[|es|]) { QuietIsDone(ss[|es|]); }
  }
}
