/** Block counters count children: in every run of a node's workers, what a task has
    waited for, less the children of it that have ended and the signals it was sent by
    others, is its block counter. */
module SchedulerChildren {
  import opened Common
  import opened Scheduling
  import opened SchedulerRuns
  import opened SchedulerTheorems
  import opened SchedulerPlaces

  function ParentIn(info: map<Task, Info>, t: Task): Option<Task> {
    if t in info then info[t].parent else PLAIN.parent
  }

  /** How many tasks of a queue are children of task a. */
  function Children(q: seq<Task>, info: map<Task, Info>, a: Task): nat {
    if q == [] then 0
    else Children(q[..|q| - 1], info, a) + if ParentIn(info, q[|q| - 1]) == Some(a) then 1 else 0
  }

  /** The children of task a that have ended, here or for their home node. */
  function EndedChildren(s: Node, a: Task): nat {
    Children(s.ended, s.info, a) + Children(s.complete, s.info, a)
  }

  /** Signals that the actions of a turn send to task a. */
  function SentBy(acts: seq<Action>, a: Task): nat {
    if acts == [] then 0
    else (if acts[0] == SignalTask(a) then 1 else 0) + SentBy(acts[1..], a)
  }

  /** Signals sent to task a in a step, other than by a child that ends. */
  function SentIn(s: Node, e: Event, a: Task): nat
    requires Enabled(s, e)
  {
    match e
    case Run(w, x) => if GetsTurn(s, Head(s, e)) then SentBy(x.actions, a) else 0
    case Outside(w, t) => if t == a then 1 else 0
    case _ => 0
  }

  /** Children that task a starts to wait for in a step. */
  function WaitedIn(s: Node, e: Event, a: Task): nat
    requires Enabled(s, e)
  {
    if e.Run? && Head(s, e) == a && GetsTurn(s, a) && e.x.end.WaitFor? then e.x.end.n else 0
  }

  function SentUpTo(ss: seq<Node>, es: seq<Event>, n: nat, a: Task): nat
    requires IsRun(ss, es) && n <= |es|
  {
    if n == 0 then 0
    else
      assert Step(ss, es, n - 1);
      SentUpTo(ss, es, n - 1, a) + SentIn(ss[n - 1], es[n - 1], a)
  }

  function WaitedUpTo(ss: seq<Node>, es: seq<Event>, n: nat, a: Task): nat
    requires IsRun(ss, es) && n <= |es|
  {
    if n == 0 then 0
    else
      assert Step(ss, es, n - 1);
      WaitedUpTo(ss, es, n - 1, a) + WaitedIn(ss[n - 1], es[n - 1], a)
  }

  // ------------------------------------------------------------ bookkeeping

  lemma {:induction false} ChildrenFrame(q: seq<Task>, info: map<Task, Info>, info1: map<Task, Info>, a: Task)
    requires forall t :: t in q ==> ParentIn(info1, t) == ParentIn(info, t)
    ensures Children(q, info1, a) == Children(q, info, a)
  {
    if q == [] {
    } else {
      assert q[|q| - 1] in q && forall t :: t in q[..|q| - 1] ==> t in q;
      ChildrenFrame(q[..|q| - 1], info, info1, a);
    }
  }

  lemma {:induction false} ChildrenAppend(q: seq<Task>, t: Task, info: map<Task, Info>, a: Task)
    ensures Children(q + [t], info, a) == Children(q, info, a) + if ParentIn(info, t) == Some(a) then 1 else 0
  {
    assert (q + [t])[..|q|] == q;
  }

  /** Signals that task a has still to get, and has got from its children. */
  ghost function Tally(s: Node, a: Task): int { CountOf(s, a) + EndedChildren(s, a) }

  lemma {:induction false} SameTally(s: Node, r: Node, a: Task)
    requires r.blockCount == s.blockCount && r.ended == s.ended && r.complete == s.complete
    requires forall t :: t in s.ended || t in s.complete ==> ParentIn(r.info, t) == ParentIn(s.info, t)
    ensures Tally(r, a) == Tally(s, a)
  {
    ChildrenFrame(s.ended, s.info, r.info, a);
    ChildrenFrame(s.complete, s.info, r.info, a);
  }

  lemma {:induction false} SignalTally(s: Node, w: nat, u: Task, a: Task)
    requires Shaped(s) && Routed(s)
    ensures Tally(Signal(s, w, u), a) == Tally(s, a) - (if u == a then 1 else 0)
    ensures Signal(s, w, u).info == s.info
  {
    hide Children;
  }

  lemma {:induction false} EndTally(s: Node, w: nat, t: Task, a: Task)
    requires Shaped(s) && Routed(s)
    ensures Tally(EndTask(s, w, t), a) == Tally(s, a)
  {
    hide Signal, Children;
    var i := InfoOf(s, t);
    assert i.parent == ParentIn(s.info, t);
    var s1 := match i.parent case None => s case Some(p) => Signal(s, w, p);
    if i.parent.Some? { SignalTally(s, w, i.parent.value, a); }
    ChildrenAppend(s1.complete, t, s1.info, a);
    ChildrenAppend(s1.ended, t, s1.info, a);
  }

  lemma {:induction false} PushTaskTally(s: Node, w: nat, t: Task, env: Env, a: Task)
    requires Shaped(s) && Routed(s) && w < |s.fail| && env.lane < |s.lanes|
    ensures Tally(PushTask(s, w, t, env), a) == Tally(s, a)
  {
    hide EndTask, Tally, Routed;
    RouteLeads(s, t);
    if InfoOf(s, t).complete {
      EndTally(s, w, t, a);
    } else {
      SameTally(s, PushTask(s, w, t, env), a);
    }
  }

  /** A task that is given to the node is not among those that have ended. */
  lemma {:induction false} GiveTally(s: Node, w: nat, t: Task, info: Info, env: Env, a: Task)
    requires Shaped(s) && Routed(s) && w < |s.fail| && env.lane < |s.lanes| && info.route < |s.lanes|
    requires Places(s)[t] == 0
    ensures Tally(PushTask(s.(info := s.info[t := info]), w, t, env), a) == Tally(s, a)
  {
    NowhereIf(s, t);
    hide PushTask, Tally, Places;
    var s1 := s.(info := s.info[t := info]);
    SameTally(s, s1, a);
    PushTaskTally(s1, w, t, env, a);
  }

  ghost predicate OnceEach(m: multiset<Task>) { forall t :: m[t] <= 1 }

  lemma {:induction false} ActAllTally(s: Node, w: nat, acts: seq<Action>, a: Task, r: Option<nat>)
    requires Ok(s, r) && w < |s.fail| && ActionsOk(s, acts) && OnceEach(Places(s) + New(acts))
    ensures Tally(ActAll(s, w, acts), a) == Tally(s, a) - SentBy(acts, a)
    decreases |acts|
  {
    hide LanesOk, WaitersParked, Places, PushTask, Signal, Tally;
    if acts == [] {
    } else {
      assert ActionOk(s, acts[0]);
      match acts[0] {
        case Schedule(t, info, env) =>
          assert (Places(s) + New(acts))[t] <= 1;
          InfoKeeps(s, t, info, r);
          PushTaskOk(s.(info := s.info[t := info]), w, t, env, r);
          GiveTally(s, w, t, info, env, a);
        case SignalTask(t) =>
          SignalOk(s, w, t, r);
          SignalTally(s, w, t, a);
      }
      var s1 := Act(s, w, acts[0]);
      assert Places(s1) + New(acts[1..]) == Places(s) + New(acts);
      ActAllTally(s1, w, acts[1..], a, r);
    }
  }

  lemma {:induction false} StopTally(s: Node, w: nat, t: Task, end: End, a: Task)
    requires Shaped(s) && Routed(s) && w < |s.fail|
    ensures Tally(Stop(s, w, t, end).0, a) == Tally(s, a) + if t == a && end.WaitFor? then end.n else 0
  {
    hide EndTask, Children, Routed;
    match end
    case Reroute => SameTally(s, Stop(s, w, t, end).0, a);
    case YieldOnce =>
    case Return(done) => EndTally(s, w, t, a);
    case WaitFor(n) =>
  }

  lemma {:induction false} RunTaskTally(s: Node, w: nat, t: Task, x: Script, a: Task, r: Option<nat>)
    requires Ok(s, r) && w < |s.fail| && ScriptOk(s, x) && OnceEach(Places(s) + NewOf(s, t, x))
    ensures Tally(RunTask(s, w, t, x).0, a)
         == Tally(s, a) + if !GetsTurn(s, t) then 0
                          else (if t == a && x.end.WaitFor? then x.end.n else 0) - SentBy(x.actions, a)
  {
    hide LanesOk, WaitersParked, Places, EndTask, ActAll, Stop, Tally, New, SentBy, Routed;
    if CountOf(s, t) > 0 {
      SameTally(s, Park(s, t), a);
    } else if InfoOf(s, t).complete {
      EndTally(s, w, t, a);
    } else {
      var s0 := s.(log := s.log + [Ran(t)]);
      LogKeeps(s, s0.log, r);
      SameTally(s, s0, a);
      ActAllTally(s0, w, x.actions, a, r);
      StopTally(ActAll(s0, w, x.actions), w, t, x.end, a);
    }
  }

  lemma {:induction false} TurnTally(s: Node, e: Event, a: Task)
    requires Ok(s, None) && Enabled(s, e) && e.Run? && OnceEach(Places(s) + Introduced(s, e))
    ensures Tally(Next(s, e), a) == Tally(s, a) + WaitedIn(s, e, a) - SentIn(s, e, a)
  {
    hide LanesOk, WaitersParked, Places, RunTask, LanePush, Tally, New, SentBy, Routed;
    var u, w := Head(s, e), e.w;
    TakenOk(s, w);
    var s1 := Taken(s, w);
    SameTally(s, s1, a);
    TakenNew(s, w, u, e.x);
    FewerOnce(Places(s1), multiset{u}, NewOf(s, u, e.x));
    RunTaskTally(s1, w, u, e.x, a, Some(w));
    var (s2, back) := RunTask(s1, w, u, e.x);
    RunTaskOk(s1, w, u, e.x, Some(w));
    TurnOk(s2, w, u);
    if back { PushTally(s2, w, s.cur[w].lane, u, a); } else { SameTally(s2, Next(s, e), a); }
  }

  lemma {:induction false} PushTally(s: Node, w: nat, l: nat, u: Task, a: Task)
    requires Shaped(s) && l < |s.lanes|
    ensures Tally(LanePush(s, w, l, u, false), a) == Tally(s, a)
  {}

  lemma {:induction false} FewerOnce(m: multiset<Task>, u: multiset<Task>, n: multiset<Task>)
    requires OnceEach(m + u + n)
    ensures OnceEach(m + n)
  {
    forall t ensures (m + n)[t] <= 1 { assert (m + u + n)[t] <= 1; }
  }

  lemma {:induction false} NextTally(s: Node, e: Event, a: Task)
    requires Ok(s, None) && Enabled(s, e) && OnceEach(Places(s) + Introduced(s, e))
    ensures Tally(Next(s, e), a) == Tally(s, a) + WaitedIn(s, e, a) - SentIn(s, e, a)
  {
    hide LanesOk, WaitersParked, Places, RunNext, PushTask, Signal, Tally, Routed;
    match e
    case Begin(w, p) => SameTally(s, Next(s, e), a);
    case Run(w, x) => TurnTally(s, e, a);
    case Finish(w) => SameTally(s, Next(s, e), a);
    case Retry(w, env) =>
      var s1 := s.(fail := s.fail[w := s.fail[w][1..]]);
      FailTaken(s, w);
      SameTally(s, s1, a);
      PushTaskTally(s1, w, s.fail[w][0], env, a);
    case Ingest(w, t, info, env) =>
      assert (Places(s) + multiset{t})[t] <= 1;
      GiveTally(s, w, t, info, env, a);
    case Reap(env) =>
      var t := s.flush[0];
      var s1 := s.(flush := s.flush[1..], info := s.info[t := InfoOf(s, t).(flush := false)]);
      FlushTaken(s);
      SameTally(s, s1, a);
      PushTaskTally(s1, 0, t, env, a);
    case Outside(w, t) => SignalTally(s, w, t, a);
  }

  // ------------------------------------------------------------------- runs

  lemma {:induction false} FreshTally(s: Node, a: Task)
    requires Fresh(s)
    ensures Tally(s, a) == 0
  {
    hide LaneTasks, Union;
    assert multiset(s.ended) <= Places(s) && multiset(s.complete) <= Places(s);
    EmptyQueue(s.ended);
    EmptyQueue(s.complete);
  }

  lemma {:induction false} RunTally(ss: seq<Node>, es: seq<Event>, n: nat, a: Task)
    requires IsRun(ss, es) && n <= |es| && Fresh(ss[0]) && OnceEach(IntroducedBy(ss, es, n))
    ensures Tally(ss[n], a) == WaitedUpTo(ss, es, n, a) - SentUpTo(ss, es, n, a)
  {
    hide Fresh, Ok, Places, Tally, Enabled, Next, Introduced, WaitedIn, SentIn;
    if n == 0 {
      FreshTally(ss[0], a);
    } else {
      assert Step(ss, es, n - 1);
      FreshIsEmpty(ss[0]);
      RunOk(ss, es, n - 1);
      var more := Introduced(ss[n - 1], es[n - 1]);
      assert IntroducedBy(ss, es, n) == IntroducedBy(ss, es, n - 1) + more + multiset{};
      FewerOnce(IntroducedBy(ss, es, n - 1), more, multiset{});
      assert IntroducedBy(ss, es, n - 1) + multiset{} == IntroducedBy(ss, es, n - 1);
      RunTally(ss, es, n - 1, a);
      assert Places(ss[n - 1]) + more == IntroducedBy(ss, es, n);
      NextTally(ss[n - 1], es[n - 1], a);
    }
  }

  /** In every run in which no task is given to the node twice: a task's block counter is
      the number of children it has waited for, less those that have ended and the
      signals others sent it; and while it is positive the task is parked. */
  lemma {:induction false} CountersCountChildren(ss: seq<Node>, es: seq<Event>, a: Task)
    requires IsRun(ss, es) && Fresh(ss[0]) && OnceEach(IntroducedBy(ss, es, |es|))
    ensures var s := ss[|es|];
            && CountOf(s, a) == WaitedUpTo(ss, es, |es|, a) - SentUpTo(ss, es, |es|, a) - EndedChildren(s, a)
            && (WaitedUpTo(ss, es, |es|, a) > SentUpTo(ss, es, |es|, a) + EndedChildren(s, a) ==> a in s.parked)
  {
    hide Fresh, LanesOk, Step, WaitedUpTo, SentUpTo, EndedChildren, OnceEach, IntroducedBy;
    RunTally(ss, es, |es|, a);
    FreshOk(ss[0]);
    RunOk(ss, es, |es|);
  }
}
