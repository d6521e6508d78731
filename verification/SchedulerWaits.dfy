/** The workers and the block counter together: in every run of a node, each task's
    waits are waits of the counter machine, so a parent is requeued exactly once, when
    its children have ended. */
module SchedulerWaits {
  import opened Common
  import opened Scheduling
  import opened SchedulerRuns
  import opened SchedulerTheorems
  import B = BlockCounters

  /** The wait that a task is in, or was in last, and how many children it covers. */
  datatype Track = Track(n: nat, wait: B.Wait)

  /** A turn begins: signals that no wait has covered yet count for the next one. */
  function Resumed(w: B.Wait): B.Wait {
    var early: nat := if w.bits.count <= 0 then -w.bits.count else 0;
    B.Wait(B.Bits(w.bits.count, false, false), B.Running, early, early, 0)
  }

  /** The three steps of a wait, taken in one turn. */
  function Waits(w: B.Wait, n: nat): B.Wait { B.Next(B.Next(B.Next(w, n, B.Add), n, B.Flag), n, B.Sort) }

  function Tracked(k: Track, m: Mark, t: Task): Track {
    if m.t != t then k
    else match m
      case Ran(_) => Track(0, Resumed(k.wait))
      case Waited(_, n) => Track(n, Waits(k.wait, n))
      case Signalled(_) => k.(wait := B.Next(k.wait, k.n, B.Signal))
  }

  /** The history of task t, played on the counter machine. */
  function TrackOf(log: seq<Mark>, t: Task): Track {
    if log == [] then Track(0, B.INIT)
    else Tracked(TrackOf(log[..|log| - 1], t), log[|log| - 1], t)
  }

  lemma {:induction false} TrackAppend(log: seq<Mark>, m: Mark, t: Task)
    ensures TrackOf(log + [m], t) == Tracked(TrackOf(log, t), m, t)
  {
    assert (log + [m])[..|log|] == log;
  }

  /** All children that t waited for, less all signals it got. */
  function Balance(log: seq<Mark>, t: Task): int {
    if log == [] then 0
    else
      var m := log[|log| - 1];
      Balance(log[..|log| - 1], t)
      + if m.t != t || m.Ran? then 0 else if m.Waited? then m.n else -1
  }

  lemma {:induction false} BalanceAppend(log: seq<Mark>, m: Mark, t: Task)
    ensures Balance(log + [m], t)
         == Balance(log, t) + if m.t != t || m.Ran? then 0 else if m.Waited? then m.n else -1
  {
    assert (log + [m])[..|log|] == log;
  }

  /** The part of the state that one task's waiting is about. */
  datatype Status = Status(track: Track, balance: int, count: int, parked: nat)

  ghost function StatusOf(s: Node, t: Task): Status {
    Status(TrackOf(s.log, t), Balance(s.log, t), CountOf(s, t), s.parked[t])
  }

  /** The counter is what the machine has, and the task is parked exactly while its
      wait has not been requeued. */
  ghost predicate Fine(x: Status) {
    var w := x.track.wait;
    && B.Inv(w, x.track.n) && (w.phase.Running? || ((w.phase.Parked? || w.phase.Back?) && x.track.n >= 1))
    && w.bits.count == x.count == x.balance
    && x.parked == if w.phase.Parked? && w.woken == 0 then 1 else 0
  }

  // ------------------------------------------------------- what changes it

  lemma {:induction false} SignalFine(x: Status)
    requires Fine(x)
    ensures Fine(AfterSignal(x)) && AfterSignal(x).track.wait.phase == x.track.wait.phase
  {}

  lemma {:induction false} RanFine(x: Status)
    requires Fine(x) && x.parked == 0
    ensures x.count <= 0 && Fine(x.(track := Track(0, Resumed(x.track.wait))))
  {}

  lemma {:induction false} WaitedFine(x: Status, n: nat)
    requires Fine(x) && x.track.wait.phase.Running? && n >= 1
    ensures Fine(Status(Track(n, Waits(x.track.wait, n)), x.balance + n, x.count + n,
                        if x.count + n != 0 then x.parked + 1 else x.parked))
  {}

  /** Nothing but the log, the counters and the parked tasks matters. */
  lemma {:induction false} PushStatus(s: Node, w: nat, l: nat, u: Task, counted: bool, t: Task)
    requires Shaped(s) && l < |s.lanes|
    ensures StatusOf(LanePush(s, w, l, u, counted), t) == StatusOf(s, t)
  {}

  ghost function AfterSignal(x: Status): Status {
    var c := x.count - 1;
    Status(x.track.(wait := B.Next(x.track.wait, x.track.n, B.Signal)), x.balance - 1, c,
           if c == 0 && x.parked > 0 then x.parked - 1 else x.parked)
  }

  lemma {:induction false} SignalEffect(s: Node, w: nat, u: Task, t: Task)
    requires Shaped(s) && Routed(s)
    ensures StatusOf(Signal(s, w, u), t) == if u == t then AfterSignal(StatusOf(s, t)) else StatusOf(s, t)
  {
    assert InfoOf(s, u).route < |s.lanes|;
    hide LanePush, TrackOf, Balance, Routed, B.Next;
    var c := CountOf(s, u) - 1;
    var s1 := s.(blockCount := s.blockCount[u := c], log := s.log + [Signalled(u)]);
    TrackAppend(s.log, Signalled(u), t);
    BalanceAppend(s.log, Signalled(u), t);
    if c == 0 {
      PushStatus(s1.(parked := s1.parked - multiset{u}), w, InfoOf(s, u).route, u, true, t);
    }
  }

  lemma {:induction false} SignalStatus(s: Node, w: nat, u: Task, t: Task)
    requires Shaped(s) && Routed(s) && Fine(StatusOf(s, t))
    ensures Fine(StatusOf(Signal(s, w, u), t))
    ensures StatusOf(Signal(s, w, u), t).track.wait.phase == StatusOf(s, t).track.wait.phase
  {
    hide Fine, Signal;
    SignalEffect(s, w, u, t);
    if u == t { SignalFine(StatusOf(s, t)); }
    hide StatusOf;
  }

  /** Lanes, lists and polls do not matter. */
  lemma {:induction false} LayoutStatus(s: Node, r: Node, t: Task)
    requires r.log == s.log && r.blockCount == s.blockCount && r.parked == s.parked
    ensures StatusOf(r, t) == StatusOf(s, t)
  {}

  /** Both facts that a step keeps: the status, and whether the task is in its turn. */
  ghost predicate Keeps(x: Status, y: Status) {
    Fine(y) && (x.track.wait.phase.Running? ==> y.track.wait.phase.Running?)
  }

  lemma {:induction false} EndStatus(s: Node, w: nat, u: Task, t: Task)
    requires Shaped(s) && Routed(s) && Fine(StatusOf(s, t))
    ensures Keeps(StatusOf(s, t), StatusOf(EndTask(s, w, u), t))
  {
    hide Signal, Fine, StatusOf;
    match InfoOf(s, u).parent
    case None => LayoutStatus(s, EndTask(s, w, u), t);
    case Some(p) =>
      SignalStatus(s, w, p, t);
      LayoutStatus(Signal(s, w, p), EndTask(s, w, u), t);
  }

  lemma {:induction false} PushTaskStatus(s: Node, w: nat, u: Task, env: Env, t: Task)
    requires Shaped(s) && Routed(s) && w < |s.fail| && env.lane < |s.lanes| && Fine(StatusOf(s, t))
    ensures Keeps(StatusOf(s, t), StatusOf(PushTask(s, w, u, env), t))
  {
    hide EndTask, LanePush, Fine, StatusOf, Routed;
    RouteLeads(s, u);
    var i := InfoOf(s, u);
    if i.complete {
      EndStatus(s, w, u, t);
    } else if i.routed && env.created {
      PushStatus(s, w, i.route, u, true, t);
    } else if !i.routed && !i.remote && env.local && !i.flush && env.created {
      var s1 := s.(info := s.info[u := i.(routed := true, route := env.lane)]);
      LayoutStatus(s, s1, t);
      PushStatus(s1, w, env.lane, u, true, t);
    } else {
      LayoutStatus(s, PushTask(s, w, u, env), t);
    }
  }

  lemma {:induction false} ActStatus(s: Node, w: nat, a: Action, t: Task)
    requires Shaped(s) && Routed(s) && w < |s.fail| && ActionOk(s, a) && Fine(StatusOf(s, t))
    ensures Keeps(StatusOf(s, t), StatusOf(Act(s, w, a), t))
  {
    hide PushTask, Signal, Fine, StatusOf;
    match a
    case Schedule(u, info, env) =>
      var s1 := s.(info := s.info[u := info]);
      LayoutStatus(s, s1, t);
      PushTaskStatus(s1, w, u, env, t);
    case SignalTask(u) => SignalStatus(s, w, u, t);
  }

  lemma {:induction false} ActAllStatus(s: Node, w: nat, acts: seq<Action>, t: Task)
    requires Shaped(s) && Routed(s) && w < |s.fail| && ActionsOk(s, acts) && Fine(StatusOf(s, t))
    ensures Keeps(StatusOf(s, t), StatusOf(ActAll(s, w, acts), t))
    decreases |acts|
  {
    hide Act, Fine, StatusOf;
    if acts == [] {
    } else {
      assert ActionOk(s, acts[0]);
      ActStatus(s, w, acts[0], t);
      ActAllStatus(Act(s, w, acts[0]), w, acts[1..], t);
    }
  }

  lemma {:induction false} WaitStatus(s: Node, u: Task, n: nat, t: Task)
    requires Fine(StatusOf(s, t)) && n >= 1 && (u == t ==> StatusOf(s, t).track.wait.phase.Running?)
    ensures var s1 := s.(blockCount := s.blockCount[u := CountOf(s, u) + n], log := s.log + [Waited(u, n)]);
            Fine(StatusOf(if CountOf(s1, u) != 0 then Park(s1, u) else s1, t))
  {
    hide TrackOf, Balance, Fine, Waits;
    TrackAppend(s.log, Waited(u, n), t);
    BalanceAppend(s.log, Waited(u, n), t);
    if u == t { WaitedFine(StatusOf(s, t), n); }
  }

  /** The turn of task u stops; if it is t, t was in its turn and not parked. */
  lemma {:induction false} StopStatus(s: Node, w: nat, u: Task, end: End, t: Task)
    requires Shaped(s) && Routed(s) && w < |s.fail| && Fine(StatusOf(s, t)) && (end.WaitFor? ==> end.n >= 1)
    requires u == t ==> StatusOf(s, t).track.wait.phase.Running?
    ensures Fine(StatusOf(Stop(s, w, u, end).0, t))
  {
    hide EndTask, Fine, StatusOf, Park;
    match end
    case Reroute => LayoutStatus(s, Stop(s, w, u, end).0, t);
    case YieldOnce =>
    case Return(done) => EndStatus(s, w, u, t);
    case WaitFor(n) => WaitStatus(s, u, n, t);
  }

  lemma {:induction false} RanStatus(s: Node, u: Task, t: Task)
    requires Fine(StatusOf(s, t)) && (u == t ==> t !in s.parked)
    ensures var s0 := s.(log := s.log + [Ran(u)]);
            Fine(StatusOf(s0, t)) && (u == t ==> CountOf(s, t) <= 0 && StatusOf(s0, t).track.wait.phase.Running?)
  {
    hide TrackOf, Balance, Fine;
    TrackAppend(s.log, Ran(u), t);
    BalanceAppend(s.log, Ran(u), t);
    if u == t { RanFine(StatusOf(s, t)); }
  }

  lemma {:induction false} ParkStatus(s: Node, u: Task, t: Task)
    requires u != t
    ensures StatusOf(Park(s, u), t) == StatusOf(s, t)
  {}

  lemma {:induction false} RunTaskStatus(s: Node, w: nat, u: Task, x: Script, t: Task)
    requires Shaped(s) && Routed(s) && w < |s.fail| && ScriptOk(s, x) && Fine(StatusOf(s, t))
    requires u == t ==> t !in s.parked
    ensures Fine(StatusOf(RunTask(s, w, u, x).0, t))
  {
    hide EndTask, ActAll, Stop, Fine, StatusOf, Park;
    RanStatus(s, u, t);
    if CountOf(s, u) > 0 {
      ParkStatus(s, u, t);
    } else if InfoOf(s, u).complete {
      EndStatus(s, w, u, t);
    } else {
      var s0 := s.(log := s.log + [Ran(u)]);
      ActAllStatus(s0, w, x.actions, t);
      StopStatus(ActAll(s0, w, x.actions), w, u, x.end, t);
    }
  }

  // ------------------------------------------------------------------- steps

  /** A task at the head of a lane, known once, is not parked. */
  lemma {:induction false} HeadNotParked(s: Node, w: nat, t: Task)
    requires Ok(s, None) && w < |s.fail| && s.cur[w].Polling? && s.cur[w].todo > 0 && Places(s)[t] <= 1
    ensures var c := s.cur[w];
            && c.lane < |s.lanes| && s.lanes[c.lane].tasks != []
            && (s.lanes[c.lane].tasks[0] == t ==> t !in s.parked)
  {
    TakenOk(s, w);
    hide LanesOk, LaneTasks, Union;
    LaneTasksUpdate(s.lanes, s.cur[w].lane, s.lanes[s.cur[w].lane]);
    assert s.lanes[s.cur[w].lane].tasks[0] in multiset(s.lanes[s.cur[w].lane].tasks);
  }

  lemma {:induction false} RunNextFine(s: Node, e: Event, t: Task)
    requires Ok(s, None) && Enabled(s, e) && e.Run? && Fine(StatusOf(s, t)) && Places(s)[t] <= 1
    ensures Fine(StatusOf(Next(s, e), t))
  {
    hide Ok, Places, Fine, StatusOf, RunTask, LanePush;
    HeadNotParked(s, e.w, t);
    var u, l := Head(s, e), s.cur[e.w].lane;
    var s1 := Taken(s, e.w);
    LayoutStatus(s, s1, t);
    RunTaskStatus(s1, e.w, u, e.x, t);
    var (s2, back) := RunTask(s1, e.w, u, e.x);
    if back {
      PushStatus(s2, e.w, l, u, false, t);
    } else {
      LayoutStatus(s2, Next(s, e), t);
    }
  }

  lemma {:induction false} NextFine(s: Node, e: Event, t: Task)
    requires Ok(s, None) && Enabled(s, e) && Fine(StatusOf(s, t)) && Places(s)[t] <= 1
    ensures Fine(StatusOf(Next(s, e), t))
  {
    hide Ok, Places, Fine, StatusOf, RunNext, PushTask, Signal;
    match e
    case Begin(w, p) => LayoutStatus(s, Next(s, e), t);
    case Run(w, x) => RunNextFine(s, e, t);
    case Finish(w) => LayoutStatus(s, Next(s, e), t);
    case Retry(w, env) =>
      var s1 := s.(fail := s.fail[w := s.fail[w][1..]]);
      LayoutStatus(s, s1, t);
      PushTaskStatus(s1, w, s.fail[w][0], env, t);
    case Ingest(w, u, info, env) =>
      var s1 := s.(info := s.info[u := info]);
      LayoutStatus(s, s1, t);
      PushTaskStatus(s1, w, u, env, t);
    case Reap(env) =>
      var u := s.flush[0];
      var s1 := s.(flush := s.flush[1..], info := s.info[u := InfoOf(s, u).(flush := false)]);
      LayoutStatus(s, s1, t);
      PushTaskStatus(s1, 0, u, env, t);
    case Outside(w, u) => SignalStatus(s, w, u, t);
  }

  lemma {:induction false} FreshFine(s: Node, t: Task)
    requires Fresh(s)
    ensures Fine(StatusOf(s, t))
  {
    hide LaneTasks, Union;
    assert s.parked <= Places(s);
  }

  lemma {:induction false} KnownOnce(ss: seq<Node>, es: seq<Event>, n: nat, t: Task)
    requires IsRun(ss, es) && 0 < n <= |es| && Fresh(ss[0]) && IntroducedBy(ss, es, n)[t] <= 1
    ensures IntroducedBy(ss, es, n - 1)[t] <= 1 && Ok(ss[n - 1], None) && Places(ss[n - 1])[t] <= 1
  {
    hide Fresh, Ok, Places, Introduced, Enabled, Next;
    FreshIsEmpty(ss[0]);
    RunOk(ss, es, n - 1);
    assert Step(ss, es, n - 1);
  }

  lemma {:induction false} RunFine(ss: seq<Node>, es: seq<Event>, n: nat, t: Task)
    requires IsRun(ss, es) && n <= |es| && Fresh(ss[0]) && IntroducedBy(ss, es, n)[t] <= 1
    ensures Fine(StatusOf(ss[n], t))
  {
    hide Fresh, Ok, Places, Fine, StatusOf, Enabled, Next, IntroducedBy;
    if n == 0 {
      FreshFine(ss[0], t);
    } else {
      KnownOnce(ss, es, n, t);
      RunFine(ss, es, n - 1, t);
      assert Step(ss, es, n - 1);
      NextFine(ss[n - 1], es[n - 1], t);
    }
  }

  /** What a fine status says: parked means waiting, and requeued once otherwise. */
  lemma {:induction false} FineMeans(x: Status)
    requires Fine(x)
    ensures var k := x.track;
            && x.count == x.balance == k.wait.bits.count
            && (x.parked > 0 <==> k.wait.phase.Parked? && B.Requeues(k.wait) == 0)
            && B.Requeues(k.wait) <= 1
            && (!k.wait.phase.Running? ==>
                  && k.n >= 1 && (B.Requeues(k.wait) == 1 <==> k.wait.early <= k.n <= k.wait.sent)
                  && (x.parked == 0 <==> k.wait.early <= k.n <= k.wait.sent))
  {}

  /** In every run of a node, for a task given to it once: its counter is the children
      it waited for less the signals it got; it is parked exactly while its wait has
      not been requeued; and once it waits for n children it is back in a lane or
      queue exactly when no more than n of the signals came before the wait and n have
      come in all, having been requeued once. */
  lemma {:induction false} ParentIsRequeuedOnce(ss: seq<Node>, es: seq<Event>, t: Task)
    requires IsRun(ss, es) && Fresh(ss[0]) && IntroducedBy(ss, es, |es|)[t] <= 1
    ensures var s := ss[|es|]; var k := TrackOf(s.log, t);
            && CountOf(s, t) == Balance(s.log, t) == k.wait.bits.count
            && (t in s.parked <==> k.wait.phase.Parked? && B.Requeues(k.wait) == 0)
            && B.Requeues(k.wait) <= 1
            && (!k.wait.phase.Running? ==>
                  && k.n >= 1 && (B.Requeues(k.wait) == 1 <==> k.wait.early <= k.n <= k.wait.sent)
                  && (t !in s.parked <==> k.wait.early <= k.n <= k.wait.sent))
            && Places(s)[t] == IntroducedBy(ss, es, |es|)[t]
  {
    hide Fresh, Fine, Places, TrackOf, Balance, CountOf, IntroducedBy, Step;
    RunFine(ss, es, |es|, t);
    FineMeans(StatusOf(ss[|es|], t));
    RunsSettleAndConserve(ss, es);
  }
}
