/** Where a task is tells how it was last routed and how its last turn stopped, in every
    run of a node's workers. */
module SchedulerPlaces {
  import opened Common
  import opened Scheduling
  import opened SchedulerRuns
  import opened SchedulerTheorems

  // ------------------------------------------------------ a task's past

  /** What a step does with one task: a worker routes it, with its flags and the answers
      for it; or its turn stops. */
  datatype Deed = Routing(t: Task, w: nat, info: Info, env: Env) | Stopping(t: Task, end: End)

  /** How a task was last routed, and how its last turn since then stopped. */
  datatype Past = Unknown | Known(pusher: nat, info: Info, env: Env, stop: Option<End>)

  function RoutingsOf(w: nat, acts: seq<Action>): seq<Deed> {
    if acts == [] then []
    else (if acts[0].Schedule? then [Routing(acts[0].t, w, acts[0].info, acts[0].env)] else [])
         + RoutingsOf(w, acts[1..])
  }

  /** A task found blocked or complete gets no turn. */
  predicate GetsTurn(s: Node, t: Task) { CountOf(s, t) <= 0 && !InfoOf(s, t).complete }

  function Deeds(s: Node, e: Event): seq<Deed>
    requires Enabled(s, e)
  {
    match e
    case Run(w, x) =>
      if GetsTurn(s, Head(s, e)) then RoutingsOf(w, x.actions) + [Stopping(Head(s, e), x.end)] else []
    case Retry(w, env) => [Routing(s.fail[w][0], w, InfoOf(s, s.fail[w][0]), env)]
    case Ingest(w, t, info, env) => [Routing(t, w, info, env)]
    case Reap(env) => [Routing(s.flush[0], 0, InfoOf(s, s.flush[0]).(flush := false), env)]
    case _ => []
  }

  function After(p: Past, d: Deed, t: Task): Past {
    if d.t != t then p
    else match d
      case Routing(_, w, info, env) => Known(w, info, env, None)
      case Stopping(_, end) => if p.Known? then p.(stop := Some(end)) else p
  }

  function AfterAll(p: Past, ds: seq<Deed>, t: Task): Past
    decreases |ds|
  {
    if ds == [] then p else AfterAll(After(p, ds[0], t), ds[1..], t)
  }

  function PastOf(ss: seq<Node>, es: seq<Event>, n: nat, t: Task): Past
    requires IsRun(ss, es) && n <= |es|
  {
    if n == 0 then Unknown
    else
      assert Step(ss, es, n - 1);
      AfterAll(PastOf(ss, es, n - 1, t), Deeds(ss[n - 1], es[n - 1]), t)
  }

  // ------------------------------------------------ where it should be then

  /** Not complete, its container is there, and it had a route or resolves to this node. */
  predicate ToLane(p: Past) {
    p.Known? && !p.info.complete && p.env.created
    && (p.info.routed || (!p.info.remote && p.env.local && !p.info.flush))
  }

  /** The route it had, or else the lane its container maps it to. */
  function LaneOf(p: Past): nat
    requires p.Known?
  {
    if p.info.routed then p.info.route else p.env.lane
  }

  predicate JustRouted(p: Past) { p.Known? && !p.info.complete && p.stop.None? }

  predicate ToFlush(p: Past) {
    JustRouted(p) && !p.info.routed && !p.info.remote && p.env.local && p.info.flush
  }

  /** It is marked remote or does not resolve to this node alone. */
  predicate ToRemote(p: Past) {
    JustRouted(p) && !p.info.routed && (p.info.remote || !p.env.local) && !(p.info.longRunning && p.env.useless)
  }

  /** Its container is not there yet, or sending it would serve no flush. */
  predicate ToRetry(p: Past) {
    && JustRouted(p) && !ToFlush(p)
    && if p.info.routed || (!p.info.remote && p.env.local) then !p.env.created else p.info.longRunning && p.env.useless
  }

  /** The turn did not end the task, and did not ask for another route. */
  predicate Stays(p: Past) {
    p.Known? && (p.stop.None? || p.stop.value.YieldOnce? || p.stop.value.WaitFor?
                 || (p.stop.value.Return? && !p.stop.value.done && p.info.longRunning))
  }

  predicate Waiting(p: Past) { p.Known? && p.stop.Some? && p.stop.value.WaitFor? }
  predicate Rerouting(p: Past) { p.Known? && p.stop == Some(Reroute) }

  /** It came complete, or its last turn returned and it does not run on. */
  predicate Over(p: Past) {
    && p.Known?
    && if p.stop.None? then p.info.complete
       else ToLane(p) && p.stop.value.Return? && (p.stop.value.done || !p.info.longRunning)
  }

  predicate MayLane(s: Node, l: nat, p: Past)
    requires l < |s.lanes|
  {
    ToLane(p) && l == LaneOf(p) && Stays(p) && (p.stop.None? ==> p.pusher == s.lanes[l].owner)
  }

  /** The worker that failed to route it, or the owner of its lane when another worker
      routed or signalled it, or when it asked for another route. */
  predicate MayRetry(s: Node, w: nat, p: Past) {
    || (ToRetry(p) && p.pusher == w)
    || (&& ToLane(p) && LaneOf(p) < |s.lanes| && s.lanes[LaneOf(p)].owner == w
        && if p.stop.None? then p.pusher != w else Waiting(p) || Rerouting(p))
  }

  predicate MayPark(p: Past) { ToLane(p) && Waiting(p) }

  /** The flags are those it was routed with, but for the route it was given or gave up. */
  predicate Told(i: Info, p: Past) {
    p.Known? ==>
      if ToLane(p) then i == p.info.(routed := !Rerouting(p), route := LaneOf(p)) else i == p.info && p.stop.None?
  }

  /** Every place that task t is in is one that its past accounts for. */
  ghost predicate Explained(s: Node, t: Task, p: Past) {
    && (forall l :: 0 <= l < |s.lanes| && t in s.lanes[l].tasks ==> MayLane(s, l, p))
    && (forall w :: 0 <= w < |s.fail| && t in s.fail[w] ==> MayRetry(s, w, p))
    && (t in s.parked ==> MayPark(p))
    && (t in s.flush ==> ToFlush(p))
    && (t in s.remote ==> ToRemote(p))
    && (t in s.complete ==> Over(p) && p.info.signalRemote)
    && (t in s.ended ==> Over(p) && !p.info.signalRemote)
  }

  ghost predicate Good(s: Node, t: Task, p: Past) { Told(InfoOf(s, t), p) && Explained(s, t, p) }

  // --------------------------------------------------------------- frames

  /** The task is in no place of r where it was not in s, and its flags are the same. */
  ghost predicate NoNew(s: Node, r: Node, t: Task) {
    && |r.lanes| == |s.lanes| && |r.fail| == |s.fail| && InfoOf(r, t) == InfoOf(s, t)
    && (forall l :: 0 <= l < |s.lanes| ==>
          r.lanes[l].owner == s.lanes[l].owner && (t in r.lanes[l].tasks ==> t in s.lanes[l].tasks))
    && (forall w :: 0 <= w < |s.fail| && t in r.fail[w] ==> t in s.fail[w])
    && (t in r.parked ==> t in s.parked) && (t in r.flush ==> t in s.flush) && (t in r.remote ==> t in s.remote)
    && (t in r.complete ==> t in s.complete) && (t in r.ended ==> t in s.ended)
  }

  lemma {:induction false} NoNewGood(s: Node, r: Node, t: Task, p: Past)
    requires NoNew(s, r, t) && Good(s, t, p)
    ensures Good(r, t, p)
  {
    hide Told, ToLane, Stays, ToRetry, ToFlush, ToRemote, Over, MayPark;
  }

  ghost predicate Nowhere(s: Node, t: Task) {
    && (forall l :: 0 <= l < |s.lanes| ==> t !in s.lanes[l].tasks)
    && (forall w :: 0 <= w < |s.fail| ==> t !in s.fail[w])
    && t !in s.parked && t !in s.flush && t !in s.remote && t !in s.complete && t !in s.ended
  }

  lemma {:induction false} NowhereIf(s: Node, t: Task)
    requires Places(s)[t] == 0
    ensures Nowhere(s, t)
  {
    hide LaneTasks, Union;
    forall l | 0 <= l < |s.lanes| ensures t !in s.lanes[l].tasks {
      LaneTasksUpdate(s.lanes, l, s.lanes[l]);
      assert t !in multiset(s.lanes[l].tasks);
    }
    forall w | 0 <= w < |s.fail| ensures t !in s.fail[w] {
      UnionUpdate(s.fail, w, s.fail[w]);
      assert t !in multiset(s.fail[w]);
    }
    assert t !in multiset(s.flush) && t !in multiset(s.remote) && t !in multiset(s.complete) && t !in multiset(s.ended);
  }

  // ------------------------------------------------------- pushes, signals

  lemma {:induction false} PushOther(s: Node, w: nat, l: nat, u: Task, counted: bool, t: Task)
    requires Shaped(s) && l < |s.lanes| && u != t
    ensures NoNew(s, LanePush(s, w, l, u, counted), t)
  {}

  /** A push leaves the task in the lane, if it is the pusher's, or in its owner's fail queue. */
  lemma {:induction false} PushSelf(s: Node, w: nat, l: nat, t: Task, counted: bool, p: Past)
    requires Shaped(s) && l < |s.lanes| && Nowhere(s, t) && Told(InfoOf(s, t), p)
    requires if s.lanes[l].owner == w then MayLane(s, l, p) else MayRetry(s, s.lanes[l].owner, p)
    ensures Good(LanePush(s, w, l, t, counted), t, p)
  {
    hide Told, ToLane, Stays, ToRetry, Waiting, Rerouting;
  }

  lemma {:induction false} SignalNotLast(s: Node, w: nat, u: Task, t: Task)
    requires Shaped(s) && Routed(s) && (u == t ==> CountOf(s, t) != 1)
    ensures NoNew(s, Signal(s, w, u), t)
  {
    hide LanePush;
    RouteLeads(s, u);
    var s1 := s.(blockCount := s.blockCount[u := CountOf(s, u) - 1], log := s.log + [Signalled(u)]);
    if u != t { PushOther(s1.(parked := s1.parked - multiset{u}), w, InfoOf(s, u).route, u, true, t); }
  }

  lemma {:induction false} SignalWaiting(s: Node, w: nat, t: Task, p: Past)
    requires Shaped(s) && Routed(s) && CountOf(s, t) == 1 && Places(s)[t] == 1 && t in s.parked && Good(s, t, p)
    ensures Good(Signal(s, w, t), t, p)
  {
    hide LanePush, Places;
    RouteLeads(s, t);
    var s1 := s.(blockCount := s.blockCount[t := 0], log := s.log + [Signalled(t)]);
    CountsKeep(s, s1.blockCount, s1.log);
    UnparkPlaces(s1, t);
    var s2 := s1.(parked := s1.parked - multiset{t});
    NowhereIf(s2, t);
    hide Nowhere;
    PushSelf(s2, w, LaneOf(p), t, true, p);
  }

  lemma {:induction false} SignalPlaces(s: Node, w: nat, u: Task, t: Task, p: Past, r: Option<nat>)
    requires Ok(s, r) && Places(s)[t] <= 1 && Good(s, t, p)
    ensures Good(Signal(s, w, u), t, p)
  {
    hide LanesOk, Signal, Good, NoNew, LaneTasks, Union;
    if u == t && CountOf(s, t) == 1 {
      SignalWaiting(s, w, t, p);
    } else {
      SignalNotLast(s, w, u, t);
      NoNewGood(s, Signal(s, w, u), t, p);
    }
  }

  // -------------------------------------------------------- ending, routing

  lemma {:induction false} NoNewNowhere(s: Node, r: Node, t: Task)
    requires NoNew(s, r, t) && Nowhere(s, t)
    ensures Nowhere(r, t)
  {}

  /** A task that is nowhere is explained by any past. */
  lemma {:induction false} NowhereGood(s: Node, t: Task, p: Past)
    requires Nowhere(s, t) && Told(InfoOf(s, t), p)
    ensures Good(s, t, p)
  {}

  lemma {:induction false} EndOther(s: Node, w: nat, u: Task, t: Task, p: Past, r: Option<nat>)
    requires Ok(s, r) && Places(s)[t] <= 1 && Good(s, t, p) && u != t
    ensures Good(EndTask(s, w, u), t, p)
  {
    hide LanesOk, WaitersParked, Signal, Good, Places;
    match InfoOf(s, u).parent
    case None => NoNewGood(s, EndTask(s, w, u), t, p);
    case Some(a) =>
      SignalPlaces(s, w, a, t, p, r);
      NoNewGood(Signal(s, w, a), EndTask(s, w, u), t, p);
  }

  lemma {:induction false} EndSelf(s: Node, w: nat, t: Task, p: Past)
    requires Shaped(s) && Routed(s) && WaitersParked(s.blockCount, s.parked) && Nowhere(s, t)
    requires Told(InfoOf(s, t), p) && Over(p)
    ensures Good(EndTask(s, w, t), t, p)
  {
    assert p.Known?;
    hide Signal, NoNew, Over, ToLane, Stays, ToRetry, ToFlush, ToRemote, MayPark, MayLane, MayRetry;
    var i := InfoOf(s, t);
    assert i.signalRemote == p.info.signalRemote;
    match i.parent
    case None =>
    case Some(a) =>
      SignalNotLast(s, w, a, t);
      NoNewNowhere(s, Signal(s, w, a), t);
      SameInfo(s, Signal(s, w, a), t);
  }

  lemma {:induction false} SameInfo(s: Node, r: Node, t: Task)
    requires NoNew(s, r, t)
    ensures InfoOf(r, t) == InfoOf(s, t)
  {}

  lemma {:induction false} RouteOther(s: Node, w: nat, u: Task, env: Env, t: Task, p: Past, r: Option<nat>)
    requires Ok(s, r) && w < |s.fail| && env.lane < |s.lanes| && Places(s)[t] <= 1 && Good(s, t, p) && u != t
    ensures Good(PushTask(s, w, u, env), t, p)
  {
    hide LanesOk, WaitersParked, EndTask, LanePush, Good, Places, Routed;
    RouteLeads(s, u);
    var i := InfoOf(s, u);
    if i.complete {
      EndOther(s, w, u, t, p, r);
    } else if i.routed && env.created {
      PushOther(s, w, i.route, u, true, t);
      NoNewGood(s, PushTask(s, w, u, env), t, p);
    } else if !i.routed && !i.remote && env.local && !i.flush && env.created {
      var s1 := s.(info := s.info[u := i.(routed := true, route := env.lane)]);
      NoNewGood(s, s1, t, p);
      PushOther(s1, w, env.lane, u, true, t);
      NoNewGood(s1, PushTask(s, w, u, env), t, p);
    } else {
      NoNewGood(s, PushTask(s, w, u, env), t, p);
    }
  }

  /** However a task is routed, it goes to the one place that its flags and the answers call for. */
  lemma {:induction false} RouteSelf(s: Node, w: nat, t: Task, env: Env)
    requires Shaped(s) && Routed(s) && WaitersParked(s.blockCount, s.parked)
    requires w < |s.fail| && env.lane < |s.lanes| && Nowhere(s, t)
    ensures Good(PushTask(s, w, t, env), t, Known(w, InfoOf(s, t), env, None))
  {
    hide WaitersParked, EndTask, LanePush;
    RouteLeads(s, t);
    var i := InfoOf(s, t);
    var p := Known(w, i, env, None);
    if i.complete {
      EndSelf(s, w, t, p);
    } else if i.routed && env.created {
      PushSelf(s, w, i.route, t, true, p);
    } else if !i.routed && !i.remote && env.local && !i.flush && env.created {
      PushSelf(s.(info := s.info[t := i.(routed := true, route := env.lane)]), w, env.lane, t, true, p);
    }
  }

  /** What routing does to the queues: the task is the last of the one it goes to. */
  ghost predicate Goes(s: Node, r: Node, t: Task, p: Past)
    requires Shaped(s) && p.Known? && p.pusher < |s.fail|
  {
    && r.remote == s.remote + (if ToRemote(p) then [t] else [])
    && r.flush == s.flush + (if ToFlush(p) then [t] else [])
    && r.complete == s.complete + (if Over(p) && p.info.signalRemote then [t] else [])
    && r.ended == s.ended + (if Over(p) && !p.info.signalRemote then [t] else [])
    && (ToRetry(p) ==> r.fail == s.fail[p.pusher := s.fail[p.pusher] + [t]] && r.lanes == s.lanes)
    && (ToLane(p) ==>
          && |r.lanes| == |s.lanes| && LaneOf(p) < |s.lanes|
          && var own := s.lanes[LaneOf(p)];
             if own.owner == p.pusher then r.lanes[LaneOf(p)].tasks == own.tasks + [t] && r.fail == s.fail
             else r.fail == s.fail[own.owner := s.fail[own.owner] + [t]] && r.lanes == s.lanes)
  }

  lemma {:induction false} EndQueues(s: Node, w: nat, t: Task)
    requires Shaped(s) && Routed(s)
    ensures var r := EndTask(s, w, t); var far := InfoOf(s, t).signalRemote;
            && r.remote == s.remote && r.flush == s.flush
            && r.complete == s.complete + (if far then [t] else []) && r.ended == s.ended + (if far then [] else [t])
  {}

  lemma {:induction false} RoutedGoes(s: Node, w: nat, t: Task, env: Env)
    requires Shaped(s) && Routed(s) && w < |s.fail| && env.lane < |s.lanes|
    ensures Goes(s, PushTask(s, w, t, env), t, Known(w, InfoOf(s, t), env, None))
  {
    RouteLeads(s, t);
    hide Routed, EndTask;
    var i := InfoOf(s, t);
    if i.complete {
      EndQueues(s, w, t);
    } else if i.routed {
      assert ToLane(Known(w, i, env, None)) <==> env.created;
    } else if !i.remote && env.local {
      assert ToLane(Known(w, i, env, None)) <==> env.created && !i.flush;
    } else {
      assert !ToLane(Known(w, i, env, None));
    }
  }

  // ---------------------------------------------------------------- running

  lemma {:induction false} AfterBoth(p: Past, a: seq<Deed>, b: seq<Deed>, t: Task)
    ensures AfterAll(p, a + b, t) == AfterAll(AfterAll(p, a, t), b, t)
    decreases |a|
  {
    if a == [] {
      assert a + b == b;
    } else {
      assert (a + b)[1..] == a[1..] + b;
      AfterBoth(After(p, a[0], t), a[1..], b, t);
    }
  }

  lemma {:induction false} AfterOne(p: Past, d: Deed, t: Task)
    ensures AfterAll(p, [d], t) == After(p, d, t)
  {
    assert [d][1..] == [];
    assert AfterAll(After(p, d, t), [d][1..], t) == After(p, d, t);
  }

  lemma {:induction false} ActPlaces(s: Node, w: nat, a: Action, t: Task, p: Past, r: Option<nat>)
    requires Ok(s, r) && w < |s.fail| && ActionOk(s, a) && Good(s, t, p) && Places(s)[t] + New([a])[t] <= 1
    ensures Good(Act(s, w, a), t, AfterAll(p, RoutingsOf(w, [a]), t))
    ensures Ok(Act(s, w, a), r) && Places(Act(s, w, a)) == Places(s) + New([a])
  {
    hide LanesOk, WaitersParked, PushTask, Signal, Good, Places, ActAll;
    assert [a][1..] == [] && New([a][1..]) == multiset{} && RoutingsOf(w, [a][1..]) == [];
    match a
    case Schedule(u, info, env) =>
      var s1 := s.(info := s.info[u := info]);
      InfoKeeps(s, u, info, r);
      PushTaskOk(s1, w, u, env, r);
      AfterOne(p, Routing(u, w, info, env), t);
      if u == t {
        NowhereIf(s1, t);
        hide Nowhere;
        RouteSelf(s1, w, t, env);
      } else {
        NoNewGood(s, s1, t, p);
        RouteOther(s1, w, u, env, t, p, r);
      }
    case SignalTask(u) =>
      SignalOk(s, w, u, r);
      SignalPlaces(s, w, u, t, p, r);
  }

  lemma {:induction false} FirstOf(w: nat, acts: seq<Action>)
    requires acts != []
    ensures New(acts) == New([acts[0]]) + New(acts[1..])
    ensures RoutingsOf(w, acts) == RoutingsOf(w, [acts[0]]) + RoutingsOf(w, acts[1..])
  {
    var a := acts[0];
    assert [a][1..] == [] && New([a][1..]) == multiset{} && RoutingsOf(w, [a][1..]) == [];
  }

  lemma {:induction false} ActAllPlaces(s: Node, w: nat, acts: seq<Action>, t: Task, p: Past, r: Option<nat>)
    requires Ok(s, r) && w < |s.fail| && ActionsOk(s, acts) && Good(s, t, p) && Places(s)[t] + New(acts)[t] <= 1
    ensures Good(ActAll(s, w, acts), t, AfterAll(p, RoutingsOf(w, acts), t))
    decreases |acts|
  {
    hide LanesOk, WaitersParked, Act, Good, Places;
    if acts == [] {
      assert RoutingsOf(w, acts) == [];
    } else {
      var a := acts[0];
      assert ActionOk(s, a);
      FirstOf(w, acts);
      ActPlaces(s, w, a, t, p, r);
      AfterBoth(p, RoutingsOf(w, [a]), RoutingsOf(w, acts[1..]), t);
      ActAllPlaces(Act(s, w, a), w, acts[1..], t, AfterAll(p, RoutingsOf(w, [a]), t), r);
    }
  }

  lemma {:induction false} NotScheduled(w: nat, acts: seq<Action>, t: Task, p: Past)
    requires t !in New(acts)
    ensures AfterAll(p, RoutingsOf(w, acts), t) == p
    decreases |acts|
  {
    if acts == [] {
    } else {
      var more := RoutingsOf(w, acts[1..]);
      NotScheduled(w, acts[1..], t, p);
      if acts[0].Schedule? {
        var d := Routing(acts[0].t, w, acts[0].info, acts[0].env);
        AfterBoth(p, [d], more, t);
        AfterOne(p, d, t);
      } else {
        assert [] + more == more;
      }
    }
  }

  /** The task is in the turn that worker w gives it, taken from its lane. */
  ghost predicate Held(s: Node, w: nat, t: Task, p: Past) {
    && Nowhere(s, t) && Told(InfoOf(s, t), p) && ToLane(p) && Stays(p)
    && LaneOf(p) < |s.lanes| && s.lanes[LaneOf(p)].owner == w
  }

  lemma {:induction false} StopSelf(s: Node, w: nat, t: Task, end: End, p: Past)
    requires Shaped(s) && Routed(s) && WaitersParked(s.blockCount, s.parked) && w < |s.fail| && Held(s, w, t, p)
    ensures var (s1, back) := Stop(s, w, t, end); var p1 := p.(stop := Some(end));
            if back then Held(s1, w, t, p1) else Good(s1, t, p1)
  {
    hide WaitersParked, EndTask;
    var p1 := p.(stop := Some(end));
    assert Told(InfoOf(s, t), p1) || end.Reroute?;
    if end.Return? && (end.done || !p.info.longRunning) { EndSelf(s, w, t, p1); }
  }

  lemma {:induction false} StopOther(s: Node, w: nat, u: Task, end: End, t: Task, p: Past, r: Option<nat>)
    requires Ok(s, r) && w < |s.fail| && Places(s)[t] <= 1 && Good(s, t, p) && u != t
    ensures Good(Stop(s, w, u, end).0, t, p)
  {
    hide LanesOk, WaitersParked, EndTask, Good, Places, Routed;
    if end.Return? && (end.done || !InfoOf(s, u).longRunning) {
      EndOther(s, w, u, t, p, r);
    } else {
      NoNewGood(s, Stop(s, w, u, end).0, t, p);
    }
  }

  lemma {:induction false} HeldGetsTurn(s: Node, w: nat, t: Task, p: Past)
    requires Held(s, w, t, p) && WaitersParked(s.blockCount, s.parked)
    ensures GetsTurn(s, t)
  {}

  lemma {:induction false} HeldGoesBack(s: Node, w: nat, t: Task, p: Past)
    requires Shaped(s) && Held(s, w, t, p) && p.stop.Some?
    ensures Good(LanePush(s, w, LaneOf(p), t, false), t, p)
  {
    hide LanePush, Told;
    PushSelf(s, w, LaneOf(p), t, false, p);
  }

  lemma {:induction false} RunSelf(s: Node, w: nat, t: Task, x: Script, p: Past)
    requires Ok(s, Some(w)) && w < |s.fail| && ScriptOk(s, x) && Places(s)[t] == 0 && New(x.actions)[t] == 0
    requires Held(s, w, t, p) && s.cur[w].Polling? && s.cur[w].lane == LaneOf(p)
    ensures var (s1, back) := RunTask(s, w, t, x); var p1 := p.(stop := Some(x.end));
            if back then Held(s1, w, t, p1) else Good(s1, t, p1)
  {
    HeldGetsTurn(s, w, t, p);
    hide LanesOk, WaitersParked, ActAll, Stop, Places, Told, ToLane, Stays;
    var s0 := s.(log := s.log + [Ran(t)]);
    LogKeeps(s, s0.log, Some(w));
    NowhereGood(s0, t, p);
    ActAllPlaces(s0, w, x.actions, t, p, Some(w));
    ActAllOk(s0, w, x.actions, Some(w));
    NotScheduled(w, x.actions, t, p);
    var s2 := ActAll(s0, w, x.actions);
    PolledIsOwn(s2, w);
    NowhereIf(s2, t);
    StopSelf(s2, w, t, x.end, p);
  }

  lemma {:induction false} PolledIsOwn(s: Node, w: nat)
    requires Ok(s, Some(w)) && w < |s.fail| && s.cur[w].Polling?
    ensures s.cur[w].lane < |s.lanes| && s.lanes[s.cur[w].lane].owner == w
  {
    assert PollOk(ViewOf(s), w);
  }

  lemma {:induction false} RunOther(s: Node, w: nat, u: Task, x: Script, t: Task, p: Past, r: Option<nat>)
    requires Ok(s, r) && w < |s.fail| && ScriptOk(s, x) && Places(s)[t] + NewOf(s, u, x)[t] <= 1
    requires Good(s, t, p) && u != t
    ensures var ds := if GetsTurn(s, u) then RoutingsOf(w, x.actions) else [];
            Good(RunTask(s, w, u, x).0, t, AfterAll(p, ds, t))
  {
    hide LanesOk, WaitersParked, EndTask, ActAll, Stop, Places, Good, Routed;
    if CountOf(s, u) > 0 {
      NoNewGood(s, Park(s, u), t, p);
    } else if InfoOf(s, u).complete {
      EndOther(s, w, u, t, p, r);
    } else {
      var s0 := s.(log := s.log + [Ran(u)]);
      LogKeeps(s, s0.log, r);
      NoNewGood(s, s0, t, p);
      ActAllPlaces(s0, w, x.actions, t, p, r);
      ActAllOk(s0, w, x.actions, r);
      StopOther(ActAll(s0, w, x.actions), w, u, x.end, t, AfterAll(p, RoutingsOf(w, x.actions), t), r);
    }
  }

  // ------------------------------------------------------------------ steps

  lemma {:induction false} TakenSelf(s: Node, w: nat, t: Task, p: Past)
    requires Ok(s, None) && w < |s.fail| && s.cur[w].Polling? && s.cur[w].todo > 0 && Places(s)[t] <= 1
    requires Good(s, t, p) && s.cur[w].lane < |s.lanes| && s.lanes[s.cur[w].lane].tasks != []
    requires s.lanes[s.cur[w].lane].tasks[0] == t
    ensures var s1 := Taken(s, w);
            && Ok(s1, Some(w)) && Places(s)[t] == 1 && Places(s1)[t] == 0 && p.Known? && Held(s1, w, t, p)
            && s1.cur[w].Polling? && s1.cur[w].lane == LaneOf(p)
  {
    assert PollOk(ViewOf(s), w);
    hide LanesOk, WaitersParked, Places;
    TakenOk(s, w);
    NowhereIf(Taken(s, w), t);
  }

  lemma {:induction false} TurnSelf(s: Node, w: nat, x: Script, t: Task, p: Past)
    requires Ok(s, None) && w < |s.fail| && s.cur[w].Polling? && s.cur[w].todo > 0 && ScriptOk(s, x)
    requires s.cur[w].lane < |s.lanes| && s.lanes[s.cur[w].lane].tasks != []
    requires s.lanes[s.cur[w].lane].tasks[0] == t
    requires Good(s, t, p) && Places(s)[t] + NewOf(s, t, x)[t] <= 1
    ensures GetsTurn(s, t) && Good(RunNext(s, w, x), t, AfterAll(p, RoutingsOf(w, x.actions) + [Stopping(t, x.end)], t))
  {
    hide LanesOk, WaitersParked, Places, RunTask, LanePush, Good, Held, New;
    TakenSelf(s, w, t, p);
    var s1 := Taken(s, w);
    HeldGetsTurn(s1, w, t, p);
    RunSelf(s1, w, t, x, p);
    RunTaskOk(s1, w, t, x, Some(w));
    var ds, d := RoutingsOf(w, x.actions), Stopping(t, x.end);
    NotScheduled(w, x.actions, t, p);
    AfterBoth(p, ds, [d], t);
    AfterOne(p, d, t);
    var (s2, back) := RunTask(s1, w, t, x);
    TurnOk(s2, w, t);
    if back {
      HeldGoesBack(s2, w, t, p.(stop := Some(x.end)));
    } else {
      NoNewGood(s2, RunNext(s, w, x), t, p.(stop := Some(x.end)));
    }
  }

  lemma {:induction false} TurnOther(s: Node, e: Event, t: Task, p: Past)
    requires Ok(s, None) && Enabled(s, e) && e.Run? && Head(s, e) != t
    requires Good(s, t, p) && Places(s)[t] + Introduced(s, e)[t] <= 1
    ensures Good(Next(s, e), t, AfterAll(p, Deeds(s, e), t))
  {
    hide LanesOk, WaitersParked, Places, RunTask, LanePush, Good, NewOf, Routed;
    var u, w, x := Head(s, e), e.w, e.x;
    TakenOk(s, w);
    var s1 := Taken(s, w);
    NoNewGood(s, s1, t, p);
    TakenNew(s, w, u, x);
    RunOther(s1, w, u, x, t, p, Some(w));
    RunTaskOk(s1, w, u, x, Some(w));
    var (s2, back) := RunTask(s1, w, u, x);
    TurnOk(s2, w, u);
    var ds, d := RoutingsOf(w, x.actions), Stopping(u, x.end);
    AfterBoth(p, ds, [d], t);
    AfterOne(AfterAll(p, ds, t), d, t);
    if back { PushOther(s2, w, s.cur[w].lane, u, false, t); }
    NoNewGood(s2, Next(s, e), t, AfterAll(p, Deeds(s, e), t));
  }

  lemma {:induction false} TakenNew(s: Node, w: nat, u: Task, x: Script)
    requires Shaped(s) && w < |s.fail| && s.cur[w].Polling? && s.cur[w].todo > 0 && s.cur[w].lane < |s.lanes|
    requires s.lanes[s.cur[w].lane].tasks != []
    ensures var s1 := Taken(s, w);
            NewOf(s1, u, x) == NewOf(s, u, x) && (GetsTurn(s1, u) <==> GetsTurn(s, u)) && (Routed(s) ==> Routed(s1))
  {}

  lemma {:induction false} FailTaken(s: Node, w: nat)
    requires Ok(s, None) && w < |s.fail| && s.fail[w] != []
    ensures var s1 := s.(fail := s.fail[w := s.fail[w][1..]]);
            Ok(s1, None) && Places(s1) + multiset{s.fail[w][0]} == Places(s)
  {
    hide LanesOk, WaitersParked, LaneTasks, Union;
    assert s.fail[w] == [s.fail[w][0]] + s.fail[w][1..];
    UnionUpdate(s.fail, w, s.fail[w][1..]);
  }

  lemma {:induction false} FlushTaken(s: Node)
    requires Ok(s, None) && s.flush != []
    ensures var t := s.flush[0];
            var s1 := s.(flush := s.flush[1..], info := s.info[t := InfoOf(s, t).(flush := false)]);
            Ok(s1, None) && Places(s1) + multiset{t} == Places(s)
  {
    hide LanesOk, WaitersParked, LaneTasks, Union;
    assert s.flush == [s.flush[0]] + s.flush[1..];
  }

  lemma {:induction false} RetryPlaces(s: Node, w: nat, env: Env, t: Task, p: Past)
    requires Ok(s, None) && w < |s.fail| && s.fail[w] != [] && env.lane < |s.lanes|
    requires Good(s, t, p) && Places(s)[t] <= 1
    ensures Good(RetryFailed(s, w, env), t, After(p, Routing(s.fail[w][0], w, InfoOf(s, s.fail[w][0]), env), t))
  {
    hide LanesOk, WaitersParked, Places, PushTask, Good;
    var u := s.fail[w][0];
    var s1 := s.(fail := s.fail[w := s.fail[w][1..]]);
    FailTaken(s, w);
    if u == t {
      NowhereIf(s1, t);
      hide Nowhere;
      RouteSelf(s1, w, t, env);
    } else {
      NoNewGood(s, s1, t, p);
      hide NoNew;
      RouteOther(s1, w, u, env, t, p, None);
    }
  }

  lemma {:induction false} ReapPlaces(s: Node, env: Env, t: Task, p: Past)
    requires Ok(s, None) && 0 < |s.fail| && s.flush != [] && env.lane < |s.lanes|
    requires Good(s, t, p) && Places(s)[t] <= 1
    ensures Good(ReapFlush(s, env), t, After(p, Routing(s.flush[0], 0, InfoOf(s, s.flush[0]).(flush := false), env), t))
  {
    hide LanesOk, WaitersParked, Places, PushTask, Good;
    var u := s.flush[0];
    var s1 := s.(flush := s.flush[1..], info := s.info[u := InfoOf(s, u).(flush := false)]);
    FlushTaken(s);
    if u == t {
      NowhereIf(s1, t);
      hide Nowhere;
      RouteSelf(s1, 0, t, env);
    } else {
      NoNewGood(s, s1, t, p);
      hide NoNew;
      RouteOther(s1, 0, u, env, t, p, None);
    }
  }

  lemma {:induction false} IngestPlaces(s: Node, w: nat, u: Task, info: Info, env: Env, t: Task, p: Past)
    requires Ok(s, None) && w < |s.fail| && info.route < |s.lanes| && env.lane < |s.lanes|
    requires Good(s, t, p) && Places(s)[t] + multiset{u}[t] <= 1
    ensures Good(PushTask(s.(info := s.info[u := info]), w, u, env), t, After(p, Routing(u, w, info, env), t))
  {
    hide LanesOk, WaitersParked, Places, PushTask, Good;
    var s1 := s.(info := s.info[u := info]);
    InfoKeeps(s, u, info, None);
    if u == t {
      NowhereIf(s1, t);
      hide Nowhere;
      RouteSelf(s1, w, t, env);
    } else {
      NoNewGood(s, s1, t, p);
      RouteOther(s1, w, u, env, t, p, None);
    }
  }

  lemma {:induction false} NextPlaces(s: Node, e: Event, t: Task, p: Past)
    requires Ok(s, None) && Enabled(s, e) && Good(s, t, p) && Places(s)[t] + Introduced(s, e)[t] <= 1
    ensures Good(Next(s, e), t, AfterAll(p, Deeds(s, e), t))
  {
    hide LanesOk, WaitersParked, Places, RunNext, PushTask, Signal, RetryFailed, ReapFlush, Good, Routed;
    match e
    case Begin(w, p0) => NoNewGood(s, Next(s, e), t, p);
    case Run(w, x) =>
      if Head(s, e) == t { TurnSelf(s, w, x, t, p); } else { TurnOther(s, e, t, p); }
    case Finish(w) => NoNewGood(s, Next(s, e), t, p);
    case Retry(w, env) =>
      RetryPlaces(s, w, env, t, p);
      AfterOne(p, Deeds(s, e)[0], t);
    case Ingest(w, u, info, env) =>
      IngestPlaces(s, w, u, info, env, t, p);
      AfterOne(p, Deeds(s, e)[0], t);
    case Reap(env) =>
      ReapPlaces(s, env, t, p);
      AfterOne(p, Deeds(s, e)[0], t);
    case Outside(w, u) => SignalPlaces(s, w, u, t, p, None);
  }

  // ------------------------------------------------------------------- runs

  lemma {:induction false} RunPlaces(ss: seq<Node>, es: seq<Event>, n: nat, t: Task)
    requires IsRun(ss, es) && n <= |es| && Fresh(ss[0]) && IntroducedBy(ss, es, n)[t] <= 1
    ensures Good(ss[n], t, PastOf(ss, es, n, t)) && Ok(ss[n], None)
    ensures Places(ss[n]) == IntroducedBy(ss, es, n)
  {
    hide Fresh, Ok, Places, Good, Enabled, Next, Introduced, Deeds, AfterAll;
    FreshIsEmpty(ss[0]);
    RunOk(ss, es, n);
    if n == 0 {
      NowhereIf(ss[0], t);
      NowhereGood(ss[0], t, Unknown);
    } else {
      assert Step(ss, es, n - 1);
      RunOk(ss, es, n - 1);
      RunPlaces(ss, es, n - 1, t);
      NextPlaces(ss[n - 1], es[n - 1], t, PastOf(ss, es, n - 1, t));
    }
  }

  lemma {:induction false} UnionHas(qs: seq<seq<Task>>, t: Task)
    requires t in Union(qs)
    ensures exists w :: 0 <= w < |qs| && t in qs[w]
  {
    if t in multiset(qs[0]) {
      assert t in qs[0];
    } else {
      UnionHas(qs[1..], t);
      var w :| 0 <= w < |qs[1..]| && t in qs[1..][w];
      assert t in qs[w + 1];
    }
  }

  lemma {:induction false} Somewhere(s: Node, t: Task)
    requires t in Places(s)
    ensures !Nowhere(s, t)
  {
    hide Union;
    if t in LaneTasks(s.lanes) {
      UnionHas(TaskLists(s.lanes), t);
    } else if t in Union(s.fail) {
      UnionHas(s.fail, t);
    }
  }

  /** A task in a lane of its own worker, in that worker's fail queue, or parked. */
  ghost predicate WithItsWorker(s: Node, t: Task, p: Past) {
    && ToLane(p) && LaneOf(p) < |s.lanes| && s.lanes[LaneOf(p)].owner < |s.fail|
    && var own := s.lanes[LaneOf(p)];
       if p.stop.None? then (if p.pusher == own.owner then t in own.tasks else t in s.fail[own.owner])
       else if Rerouting(p) then t in s.fail[own.owner]
       else if Waiting(p) then t in own.tasks || t in s.fail[own.owner] || t in s.parked
       else t in own.tasks
  }

  /** The past tells the place. */
  ghost predicate IsWhereSent(s: Node, t: Task, p: Past) {
    && (t in s.remote <==> ToRemote(p))
    && (t in s.flush <==> ToFlush(p))
    && (t in s.complete <==> Over(p) && p.info.signalRemote)
    && (t in s.ended <==> Over(p) && !p.info.signalRemote)
    && (ToRetry(p) ==> p.pusher < |s.fail| && t in s.fail[p.pusher])
    && (ToRetry(p) || ToRemote(p) || ToFlush(p) || Over(p) || WithItsWorker(s, t, p))
  }

  lemma {:induction false} GoodSettles(s: Node, t: Task, p: Past)
    requires Shaped(s) && Routed(s) && Good(s, t, p) && !Nowhere(s, t)
    ensures p.Known? && IsWhereSent(s, t, p)
  {}

  /** In every run of a node's workers, a task given to it once is where the flags and
      answers of its last routing, and the end of its last turn, call for. */
  lemma {:induction false} TasksAreWhereTheyWereSent(ss: seq<Node>, es: seq<Event>, t: Task)
    requires IsRun(ss, es) && Fresh(ss[0]) && IntroducedBy(ss, es, |es|)[t] == 1
    ensures var s := ss[|es|]; var p := PastOf(ss, es, |es|, t);
            && p.Known? && Places(s)[t] == 1 && Told(InfoOf(s, t), p) && Explained(s, t, p) && IsWhereSent(s, t, p)
  {
    hide Fresh, LanesOk, WaitersParked, Places, Step, PastOf, IsWhereSent, Explained, Told, Nowhere, IntroducedBy;
    RunPlaces(ss, es, |es|, t);
    Somewhere(ss[|es|], t);
    GoodSettles(ss[|es|], t, PastOf(ss, es, |es|, t));
  }
}
