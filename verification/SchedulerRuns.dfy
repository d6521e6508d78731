/** Every interleaving of the steps of all workers of a node keeps the lane
    counters exact, loses no task and duplicates none. */
module SchedulerRuns {
  import opened Common
  import opened Scheduling

  // ------------------------------------------------------- where tasks are

  ghost function TaskLists(lanes: seq<Lane>): seq<seq<Task>> {
    seq(|lanes|, l requires 0 <= l < |lanes| => lanes[l].tasks)
  }

  ghost function LaneTasks(lanes: seq<Lane>): multiset<Task> { Union(TaskLists(lanes)) }

  /** Every task the node knows, once per place it is in. */
  ghost function Places(s: Node): multiset<Task> {
    LaneTasks(s.lanes) + Union(s.fail) + Elsewhere(s) + s.parked
  }

  ghost function Elsewhere(s: Node): multiset<Task> {
    multiset(s.flush) + multiset(s.remote) + multiset(s.complete) + multiset(s.ended)
  }

  lemma {:induction false} LaneTasksUpdate(lanes: seq<Lane>, l: nat, lane: Lane)
    requires l < |lanes|
    ensures multiset(lanes[l].tasks) <= LaneTasks(lanes)
    ensures LaneTasks(lanes[l := lane]) == LaneTasks(lanes) - multiset(lanes[l].tasks) + multiset(lane.tasks)
  {
    hide Union;
    assert TaskLists(lanes[l := lane]) == TaskLists(lanes)[l := lane.tasks];
    UnionUpdate(TaskLists(lanes), l, lane.tasks);
  }

  lemma {:induction false} LaneTasksAdd(lanes: seq<Lane>, l: nat, t: Task, lane: Lane)
    requires l < |lanes| && lane.tasks == lanes[l].tasks + [t]
    ensures LaneTasks(lanes[l := lane]) == LaneTasks(lanes) + multiset{t}
  {
    hide LaneTasks;
    LaneTasksUpdate(lanes, l, lane);
  }

  lemma {:induction false} UnionAdd(qs: seq<seq<Task>>, w: nat, t: Task)
    requires w < |qs|
    ensures Union(qs[w := qs[w] + [t]]) == Union(qs) + multiset{t}
  {
    UnionUpdate(qs, w, qs[w] + [t]);
  }

  // ------------------------------------------------------------ lane counts

  /** The part of the state that lane counting is about. */
  datatype View = View(lanes: seq<Lane>, active: seq<seq<nat>>, cur: seq<Cur>)

  ghost function ViewOf(s: Node): View { View(s.lanes, s.active, s.cur) }

  ghost predicate ViewShaped(v: View) {
    && |v.active| == 2 * |v.cur|
    && forall l :: 0 <= l < |v.lanes| ==> v.lanes[l].owner < |v.cur| && v.lanes[l].prio < 2
  }

  ghost predicate IsPolled(v: View, l: nat)
    requires ViewShaped(v) && l < |v.lanes|
  {
    v.cur[v.lanes[l].owner].Polling? && v.cur[v.lanes[l].owner].lane == l
  }

  /** The tasks that a poll took and has not deducted yet; `r` is the worker in
      the middle of running one. */
  ghost function Debt(c: Cur, w: nat, r: Option<nat>): nat
    requires c.Polling?
  {
    c.done + if r == Some(w) then 1 else 0
  }

  /** A lane's counter is the number of its tasks plus what its poll still owes. */
  ghost predicate CountExact(v: View, l: nat, r: Option<nat>)
    requires ViewShaped(v) && l < |v.lanes|
  {
    var lane := v.lanes[l];
    lane.count == |lane.tasks| + if IsPolled(v, l) then Debt(v.cur[lane.owner], lane.owner, r) else 0
  }

  /** How often lane l belongs in list k: once when it is the lane's own list, the
      lane has tasks and nobody polls it. */
  ghost function Listings(v: View, k: nat, l: nat): nat
    requires ViewShaped(v)
  {
    if l < |v.lanes| && Slot(v.lanes[l]) == k && !IsPolled(v, l) && v.lanes[l].count > 0 then 1 else 0
  }

  /** A poll works on a lane of its worker that had tasks, and what it has still to
      run is the rest of what was there when it began. */
  ghost predicate PollOk(v: View, w: nat)
    requires w < |v.cur|
  {
    var c := v.cur[w];
    c.Polling? ==>
      && c.lane < |v.lanes| && v.lanes[c.lane].owner == w && v.lanes[c.lane].count > 0
      && c.todo <= |c.start| && c.todo <= |v.lanes[c.lane].tasks|
      && v.lanes[c.lane].tasks[..c.todo] == c.start[|c.start| - c.todo..]
  }

  ghost predicate LanesOk(v: View, r: Option<nat>) {
    && ViewShaped(v)
    && (forall l :: 0 <= l < |v.lanes| ==> CountExact(v, l, r))
    && (forall k, l: nat :: 0 <= k < |v.active| ==> multiset(v.active[k])[l] == Listings(v, k, l))
    && (forall w :: 0 <= w < |v.cur| ==> PollOk(v, w))
  }

  /** A positive block counter belongs to a parked task. */
  ghost predicate WaitersParked(counts: map<Task, int>, parked: multiset<Task>) {
    forall t :: t in counts && counts[t] > 0 ==> t in parked
  }

  ghost predicate Ok(s: Node, r: Option<nat>) {
    Shaped(s) && Routed(s) && LanesOk(ViewOf(s), r) && WaitersParked(s.blockCount, s.parked)
  }

  // --------------------------------------------------------------- one push

  ghost function ViewPush(v: View, l: nat, t: Task): View
    requires ViewShaped(v) && l < |v.lanes|
  {
    var lane := v.lanes[l];
    View(v.lanes[l := lane.(tasks := lane.tasks + [t], count := lane.count + 1)],
         if lane.count == 0 then v.active[Slot(lane) := v.active[Slot(lane)] + [l]] else v.active, v.cur)
  }

  lemma {:induction false} ViewPushPolls(v: View, l: nat, t: Task, w: nat)
    requires ViewShaped(v) && l < |v.lanes| && w < |v.cur| && PollOk(v, w)
    requires v.lanes[l].count >= 0
    ensures PollOk(ViewPush(v, l, t), w)
  {
    var c := v.cur[w];
    if c.Polling? && c.lane == l {
      assert (v.lanes[l].tasks + [t])[..c.todo] == v.lanes[l].tasks[..c.todo];
    }
  }

  lemma {:induction false} ViewPushLists(v: View, l: nat, t: Task, r: Option<nat>, k: nat, j: nat)
    requires LanesOk(v, r) && l < |v.lanes| && k < |v.active|
    ensures multiset(ViewPush(v, l, t).active[k])[j] == Listings(ViewPush(v, l, t), k, j)
  {
    var v1 := ViewPush(v, l, t);
    assert multiset(v.active[k])[j] == Listings(v, k, j);
    assert PollOk(v, v.lanes[l].owner);
    assert CountExact(v, l, r);
    assert j < |v.lanes| ==> (IsPolled(v1, j) <==> IsPolled(v, j));
    if k == Slot(v.lanes[l]) && v.lanes[l].count == 0 {
      assert multiset(v1.active[k]) == multiset(v.active[k]) + multiset{l};
    }
  }

  lemma {:induction false} ViewPushOk(v: View, l: nat, t: Task, r: Option<nat>)
    requires LanesOk(v, r) && l < |v.lanes|
    ensures LanesOk(ViewPush(v, l, t), r)
  {
    hide Listings, PollOk;
    var v1 := ViewPush(v, l, t);
    assert CountExact(v, l, r);
    forall j | 0 <= j < |v1.lanes| ensures CountExact(v1, j, r) { assert CountExact(v, j, r); }
    forall k, j: nat | 0 <= k < |v1.active| ensures multiset(v1.active[k])[j] == Listings(v1, k, j) {
      ViewPushLists(v, l, t, r, k, j);
    }
    forall w | 0 <= w < |v1.cur| ensures PollOk(v1, w) { ViewPushPolls(v, l, t, w); }
  }

  lemma {:induction false} LanePushOk(s: Node, w: nat, l: nat, t: Task, r: Option<nat>)
    requires Shaped(s) && l < |s.lanes| && LanesOk(ViewOf(s), r)
    ensures LanesOk(ViewOf(LanePush(s, w, l, t, true)), r)
  {
    hide LanesOk;
    if s.lanes[l].owner == w {
      assert ViewShaped(ViewOf(s));
      ViewPushOk(ViewOf(s), l, t, r);
      assert ViewOf(LanePush(s, w, l, t, true)) == ViewPush(ViewOf(s), l, t);
    } else {
      assert ViewOf(LanePush(s, w, l, t, true)) == ViewOf(s);
    }
  }

  lemma {:induction false} LanePushPlaces(s: Node, w: nat, l: nat, t: Task, counted: bool)
    requires Shaped(s) && l < |s.lanes|
    ensures Places(LanePush(s, w, l, t, counted)) == Places(s) + multiset{t}
  {
    if s.lanes[l].owner != w {
      PushToFail(s, w, l, t, counted);
    } else {
      PushToLane(s, w, l, t, counted);
    }
  }

  lemma {:induction false} PushToFail(s: Node, w: nat, l: nat, t: Task, counted: bool)
    requires Shaped(s) && l < |s.lanes| && s.lanes[l].owner != w
    ensures Places(LanePush(s, w, l, t, counted)) == Places(s) + multiset{t}
  {
    hide LaneTasks, Union;
    UnionAdd(s.fail, s.lanes[l].owner, t);
    assert Elsewhere(LanePush(s, w, l, t, counted)) == Elsewhere(s);
    hide Elsewhere;
  }

  lemma {:induction false} PushToLane(s: Node, w: nat, l: nat, t: Task, counted: bool)
    requires Shaped(s) && l < |s.lanes| && s.lanes[l].owner == w
    ensures Places(LanePush(s, w, l, t, counted)) == Places(s) + multiset{t}
  {
    hide LaneTasks, Union;
    var s1 := LanePush(s, w, l, t, counted);
    var lane := s1.lanes[l];
    assert s1.lanes == s.lanes[l := lane] && lane.tasks == s.lanes[l].tasks + [t];
    LaneTasksAdd(s.lanes, l, t, lane);
    assert Elsewhere(s1) == Elsewhere(s);
    hide Elsewhere, LanePush;
  }

  // -------------------------------------------- signals, endings, routing

  lemma {:induction false} RouteLeads(s: Node, t: Task)
    requires Routed(s)
    ensures InfoOf(s, t).route < |s.lanes|
  {}

  lemma {:induction false} CountsKeep(s: Node, counts: map<Task, int>, log: seq<Mark>)
    ensures Places(s.(blockCount := counts, log := log)) == Places(s)
  {
    hide LaneTasks, Union;
  }

  lemma {:induction false} UnparkPlaces(s: Node, t: Task)
    requires t in s.parked
    ensures Places(s.(parked := s.parked - multiset{t})) + multiset{t} == Places(s)
  {
    hide LaneTasks, Union;
    assert s.parked - multiset{t} + multiset{t} == s.parked;
    assert Elsewhere(s.(parked := s.parked - multiset{t})) == Elsewhere(s);
    hide Elsewhere;
  }

  lemma {:induction false} SignalOk(s: Node, w: nat, t: Task, r: Option<nat>)
    requires Ok(s, r)
    ensures Ok(Signal(s, w, t), r) && Places(Signal(s, w, t)) == Places(s)
  {
    hide LanesOk, Places, LanePush;
    var c := CountOf(s, t) - 1;
    var s1 := s.(blockCount := s.blockCount[t := c], log := s.log + [Signalled(t)]);
    CountsKeep(s, s1.blockCount, s1.log);
    if c == 0 {
      var s2 := s1.(parked := s1.parked - multiset{t});
      UnparkPlaces(s1, t);
      LanePushOk(s2, w, InfoOf(s, t).route, t, r);
      LanePushPlaces(s2, w, InfoOf(s, t).route, t, true);
      LanePushRest(s2, w, InfoOf(s, t).route, t, true);
    }
  }

  lemma {:induction false} LanePushRest(s: Node, w: nat, l: nat, t: Task, counted: bool)
    requires Shaped(s) && l < |s.lanes|
    ensures var s1 := LanePush(s, w, l, t, counted);
            s1.parked == s.parked && s1.info == s.info && s1.blockCount == s.blockCount
  {}

  lemma {:induction false} EndTaskOk(s: Node, w: nat, t: Task, r: Option<nat>)
    requires Ok(s, r)
    ensures Ok(EndTask(s, w, t), r) && Places(EndTask(s, w, t)) == Places(s) + multiset{t}
  {
    hide LanesOk, LaneTasks, Union, Signal;
    match InfoOf(s, t).parent
    case None =>
    case Some(p) => SignalOk(s, w, p, r);
  }

  lemma {:induction false} LanePushKeeps(s: Node, w: nat, l: nat, t: Task, r: Option<nat>)
    requires Ok(s, r) && l < |s.lanes|
    ensures Ok(LanePush(s, w, l, t, true), r) && Places(LanePush(s, w, l, t, true)) == Places(s) + multiset{t}
  {
    hide LanesOk, Places, LanePush;
    LanePushOk(s, w, l, t, r);
    LanePushPlaces(s, w, l, t, true);
    LanePushRest(s, w, l, t, true);
  }

  lemma {:induction false} ToFailKeeps(s: Node, w: nat, t: Task, r: Option<nat>)
    requires Ok(s, r) && w < |s.fail|
    ensures Ok(ToFail(s, w, t), r) && Places(ToFail(s, w, t)) == Places(s) + multiset{t}
  {
    hide LanesOk, LaneTasks, Union;
    UnionAdd(s.fail, w, t);
  }

  /** Whatever the flags say, a pushed task ends up in exactly one more place. */
  lemma {:induction false} PushTaskOk(s: Node, w: nat, t: Task, env: Env, r: Option<nat>)
    requires Ok(s, r) && w < |s.fail| && env.lane < |s.lanes|
    ensures Ok(PushTask(s, w, t, env), r) && Places(PushTask(s, w, t, env)) == Places(s) + multiset{t}
  {
    hide LanesOk, LaneTasks, Union, LanePush, EndTask, ToFail, WaitersParked;
    var i := InfoOf(s, t);
    if i.complete {
      EndTaskOk(s, w, t, r);
    } else if i.routed {
      if env.created { LanePushKeeps(s, w, i.route, t, r); } else { ToFailKeeps(s, w, t, r); }
    } else if !i.remote && env.local {
      if !i.flush {
        if env.created {
          LanePushKeeps(s.(info := s.info[t := i.(routed := true, route := env.lane)]), w, env.lane, t, r);
        } else {
          ToFailKeeps(s, w, t, r);
        }
      }
    } else if i.longRunning && env.useless {
      ToFailKeeps(s, w, t, r);
    }
  }

  // ---------------------------------------------------------- running tasks

  /** The tasks a coroutine creates. */
  ghost function New(acts: seq<Action>): multiset<Task> {
    if acts == [] then multiset{}
    else (if acts[0].Schedule? then multiset{acts[0].t} else multiset{}) + New(acts[1..])
  }

  lemma {:induction false} ActAllOk(s: Node, w: nat, acts: seq<Action>, r: Option<nat>)
    requires Ok(s, r) && w < |s.fail| && ActionsOk(s, acts)
    ensures Ok(ActAll(s, w, acts), r) && Places(ActAll(s, w, acts)) == Places(s) + New(acts)
    decreases |acts|
  {
    hide LanesOk, LaneTasks, Union, PushTask, Signal;
    if acts == [] {
    } else {
      var a := acts[0];
      assert ActionOk(s, a);
      match a {
        case Schedule(t, info, env) => PushTaskOk(s.(info := s.info[t := info]), w, t, env, r);
        case SignalTask(t) => SignalOk(s, w, t, r);
      }
      ActAllOk(Act(s, w, a), w, acts[1..], r);
    }
  }

  /** What a script creates; the script of a blocked or complete task is not run. */
  ghost function NewOf(s: Node, t: Task, x: Script): multiset<Task> {
    if CountOf(s, t) > 0 || InfoOf(s, t).complete then multiset{} else New(x.actions)
  }

  lemma {:induction false} ParkOk(s: Node, t: Task, r: Option<nat>)
    requires Shaped(s) && Routed(s) && LanesOk(ViewOf(s), r)
    requires WaitersParked(s.blockCount - {t}, s.parked)
    ensures Ok(Park(s, t), r) && Places(Park(s, t)) == Places(s) + multiset{t}
  {
    hide LanesOk, LaneTasks, Union;
    assert Elsewhere(Park(s, t)) == Elsewhere(s);
    hide Elsewhere;
  }

  lemma {:induction false} StopOk(s: Node, w: nat, t: Task, end: End, r: Option<nat>)
    requires Ok(s, r) && w < |s.fail|
    ensures var (s1, back) := Stop(s, w, t, end);
            Ok(s1, r) && Places(s1) + (if back then multiset{t} else multiset{}) == Places(s) + multiset{t}
  {
    hide LanesOk, Places, EndTask, ToFail, Park;
    match end
    case Reroute =>
      var i := InfoOf(s, t).(routed := false);
      InfoKeeps(s, t, i, r);
      ToFailKeeps(s.(info := s.info[t := i]), w, t, r);
    case YieldOnce =>
    case Return(done) => if !(InfoOf(s, t).longRunning && !done) { EndTaskOk(s, w, t, r); }
    case WaitFor(n) =>
      var s1 := s.(blockCount := s.blockCount[t := CountOf(s, t) + n], log := s.log + [Waited(t, n)]);
      CountsKeep(s, s1.blockCount, s1.log);
      assert s1.blockCount - {t} == s.blockCount - {t};
      if CountOf(s1, t) != 0 { ParkOk(s1, t, r); }
  }

  lemma {:induction false} InfoKeeps(s: Node, t: Task, i: Info, r: Option<nat>)
    requires Ok(s, r) && i.route < |s.lanes|
    ensures Ok(s.(info := s.info[t := i]), r) && Places(s.(info := s.info[t := i])) == Places(s)
  {
    hide LanesOk, WaitersParked, LaneTasks, Union;
  }

  lemma {:induction false} LogKeeps(s: Node, log: seq<Mark>, r: Option<nat>)
    requires Ok(s, r)
    ensures Ok(s.(log := log), r) && Places(s.(log := log)) == Places(s)
  {
    hide LanesOk, LaneTasks, Union;
  }

  /** A task that was taken out of its lane goes back, or is in one place more. */
  lemma {:induction false} RunTaskOk(s: Node, w: nat, t: Task, x: Script, r: Option<nat>)
    requires Ok(s, r) && w < |s.fail| && ScriptOk(s, x)
    ensures var (s1, back) := RunTask(s, w, t, x);
            && Ok(s1, r)
            && Places(s1) + (if back then multiset{t} else multiset{}) == Places(s) + multiset{t} + NewOf(s, t, x)
  {
    hide LanesOk, Places, EndTask, ActAll, Stop, New, Park;
    if CountOf(s, t) > 0 {
      ParkOk(s, t, r);
    } else if InfoOf(s, t).complete {
      EndTaskOk(s, w, t, r);
    } else {
      var s0 := s.(log := s.log + [Ran(t)]);
      LogKeeps(s, s0.log, r);
      ActAllOk(s0, w, x.actions, r);
      StopOk(ActAll(s0, w, x.actions), w, t, x.end, r);
    }
  }

  // ------------------------------------------------------ steps of a worker

  lemma {:induction false} ViewTaken(v: View, w: nat)
    requires LanesOk(v, None) && w < |v.cur| && v.cur[w].Polling? && v.cur[w].todo > 0
    ensures var c := v.cur[w];
            && c.lane < |v.lanes| && v.lanes[c.lane].tasks != [] && c.todo <= |c.start|
            && v.lanes[c.lane].tasks[0] == c.start[|c.start| - c.todo]
            && LanesOk(View(v.lanes[c.lane := v.lanes[c.lane].(tasks := v.lanes[c.lane].tasks[1..])], v.active,
                            v.cur[w := c.(todo := c.todo - 1)]), Some(w))
  {
    var c := v.cur[w];
    assert PollOk(v, w);
    var lane := v.lanes[c.lane];
    assert lane.tasks[..c.todo][0] == c.start[|c.start| - c.todo..][0];
    var v1 := View(v.lanes[c.lane := lane.(tasks := lane.tasks[1..])], v.active, v.cur[w := c.(todo := c.todo - 1)]);
    forall j | 0 <= j < |v1.lanes| ensures CountExact(v1, j, Some(w)) { assert CountExact(v, j, None); }
    forall k, j: nat | 0 <= k < |v1.active| ensures multiset(v1.active[k])[j] == Listings(v1, k, j) {
      assert multiset(v.active[k])[j] == Listings(v, k, j);
    }
    forall u | 0 <= u < |v1.cur| ensures PollOk(v1, u) {
      assert PollOk(v, u);
      if u == w {
        assert lane.tasks[1..][..c.todo - 1] == lane.tasks[..c.todo][1..];
        assert c.start[|c.start| - c.todo..][1..] == c.start[|c.start| - (c.todo - 1)..];
      }
    }
  }

  /** The task goes back: its lane's counter already includes it. */
  lemma {:induction false} ViewBack(v: View, w: nat, t: Task)
    requires LanesOk(v, Some(w)) && w < |v.cur| && v.cur[w].Polling?
    ensures v.cur[w].lane < |v.lanes|
    ensures var l := v.cur[w].lane;
            LanesOk(v.(lanes := v.lanes[l := v.lanes[l].(tasks := v.lanes[l].tasks + [t])]), None)
  {
    assert PollOk(v, w);
    var c := v.cur[w];
    var v1 := v.(lanes := v.lanes[c.lane := v.lanes[c.lane].(tasks := v.lanes[c.lane].tasks + [t])]);
    forall j | 0 <= j < |v1.lanes| ensures CountExact(v1, j, None) { assert CountExact(v, j, Some(w)); }
    forall k, j: nat | 0 <= k < |v1.active| ensures multiset(v1.active[k])[j] == Listings(v1, k, j) {
      assert multiset(v.active[k])[j] == Listings(v, k, j);
    }
    forall u | 0 <= u < |v1.cur| ensures PollOk(v1, u) {
      assert PollOk(v, u);
      if u == w { assert v1.lanes[c.lane].tasks[..c.todo] == v.lanes[c.lane].tasks[..c.todo]; }
    }
  }

  /** The task is gone: the poll owes one more. */
  lemma {:induction false} ViewDone(v: View, w: nat)
    requires LanesOk(v, Some(w)) && w < |v.cur| && v.cur[w].Polling?
    ensures LanesOk(v.(cur := v.cur[w := v.cur[w].(done := v.cur[w].done + 1)]), None)
  {
    var v1 := v.(cur := v.cur[w := v.cur[w].(done := v.cur[w].done + 1)]);
    forall j | 0 <= j < |v1.lanes| ensures CountExact(v1, j, None) { assert CountExact(v, j, Some(w)); }
    forall k, j: nat | 0 <= k < |v1.active| ensures multiset(v1.active[k])[j] == Listings(v1, k, j) {
      assert multiset(v.active[k])[j] == Listings(v, k, j);
    }
    forall u | 0 <= u < |v1.cur| ensures PollOk(v1, u) { assert PollOk(v, u); }
  }

  /** The first lane of a list is its worker's, has tasks and is listed once. */
  lemma {:induction false} ViewFirst(v: View, w: nat, p: nat)
    requires LanesOk(v, None) && w < |v.cur| && p < 2 && v.cur[w].Idle? && v.active[2 * w + p] != []
    ensures var l := v.active[2 * w + p][0];
            && l < |v.lanes| && v.lanes[l].owner == w && v.lanes[l].prio == p && !IsPolled(v, l)
            && v.lanes[l].count == |v.lanes[l].tasks| > 0
            && multiset(v.active[2 * w + p]) == multiset(v.active[2 * w + p][1..]) + multiset{l}
  {
    var s, l := 2 * w + p, v.active[2 * w + p][0];
    assert v.active[s] == [l] + v.active[s][1..];
    assert multiset(v.active[s])[l] == Listings(v, s, l);
    assert CountExact(v, l, None);
  }

  ghost function ViewStart(v: View, w: nat, p: nat): View
    requires ViewShaped(v) && w < |v.cur| && p < 2 && v.active[2 * w + p] != []
    requires v.active[2 * w + p][0] < |v.lanes| && v.lanes[v.active[2 * w + p][0]].count >= 0
  {
    var l := v.active[2 * w + p][0];
    View(v.lanes, v.active[2 * w + p := v.active[2 * w + p][1..]],
         v.cur[w := Polling(l, v.lanes[l].count, 0, v.lanes[l].tasks)])
  }

  lemma {:induction false} ViewBeginLists(v: View, w: nat, p: nat, k: nat, j: nat)
    requires LanesOk(v, None) && w < |v.cur| && p < 2 && v.cur[w].Idle? && v.active[2 * w + p] != []
    requires k < |v.active|
    ensures var l := v.active[2 * w + p][0];
            && l < |v.lanes| && v.lanes[l].count >= 0
            && multiset(ViewStart(v, w, p).active[k])[j] == Listings(ViewStart(v, w, p), k, j)
  {
    ViewFirst(v, w, p);
    assert multiset(v.active[k])[j] == Listings(v, k, j);
    var v1 := ViewStart(v, w, p);
    assert j < |v.lanes| ==> (IsPolled(v1, j) <==> IsPolled(v, j) || j == v.active[2 * w + p][0]);
  }

  lemma {:induction false} ViewBegin(v: View, w: nat, p: nat)
    requires LanesOk(v, None) && w < |v.cur| && p < 2 && v.cur[w].Idle? && v.active[2 * w + p] != []
    ensures var l := v.active[2 * w + p][0];
            && l < |v.lanes| && v.lanes[l].owner == w && v.lanes[l].count == |v.lanes[l].tasks| > 0
            && LanesOk(ViewStart(v, w, p), None)
  {
    hide Listings;
    ViewFirst(v, w, p);
    var v1 := ViewStart(v, w, p);
    forall j | 0 <= j < |v1.lanes| ensures CountExact(v1, j, None) { assert CountExact(v, j, None); }
    forall k, j: nat | 0 <= k < |v1.active| ensures multiset(v1.active[k])[j] == Listings(v1, k, j) {
      ViewBeginLists(v, w, p, k, j);
    }
    forall u | 0 <= u < |v1.cur| ensures PollOk(v1, u) { assert PollOk(v, u); }
  }

  ghost function ViewStop(v: View, w: nat): View
    requires ViewShaped(v) && w < |v.cur| && v.cur[w].Polling? && v.cur[w].lane < |v.lanes|
  {
    var c := v.cur[w];
    var lane := v.lanes[c.lane].(count := v.lanes[c.lane].count - c.done);
    View(v.lanes[c.lane := lane],
         if lane.count > 0 then v.active[Slot(lane) := v.active[Slot(lane)] + [c.lane]] else v.active, v.cur[w := Idle])
  }

  lemma {:induction false} ViewEndLists(v: View, w: nat, k: nat, j: nat)
    requires LanesOk(v, None) && w < |v.cur| && v.cur[w].Polling? && k < |v.active|
    ensures v.cur[w].lane < |v.lanes|
    ensures multiset(ViewStop(v, w).active[k])[j] == Listings(ViewStop(v, w), k, j)
  {
    assert PollOk(v, w);
    assert multiset(v.active[k])[j] == Listings(v, k, j);
    var v1 := ViewStop(v, w);
    assert j < |v.lanes| ==> (IsPolled(v1, j) <==> IsPolled(v, j) && j != v.cur[w].lane);
  }

  lemma {:induction false} ViewEnd(v: View, w: nat)
    requires LanesOk(v, None) && w < |v.cur| && v.cur[w].Polling?
    ensures v.cur[w].lane < |v.lanes| && LanesOk(ViewStop(v, w), None)
  {
    hide Listings;
    assert PollOk(v, w);
    var v1 := ViewStop(v, w);
    forall j | 0 <= j < |v1.lanes| ensures CountExact(v1, j, None) { assert CountExact(v, j, None); }
    forall k, j: nat | 0 <= k < |v1.active| ensures multiset(v1.active[k])[j] == Listings(v1, k, j) {
      ViewEndLists(v, w, k, j);
    }
    forall u | 0 <= u < |v1.cur| ensures PollOk(v1, u) { assert PollOk(v, u); }
  }

  lemma {:induction false} BeginPollOk(s: Node, w: nat, p: nat)
    requires Ok(s, None) && w < |s.fail| && p < 2 && s.cur[w].Idle? && s.active[2 * w + p] != []
    ensures var l := s.active[2 * w + p][0];
            && l < |s.lanes| && s.lanes[l].count == |s.lanes[l].tasks|
            && Ok(BeginPoll(s, w, p), None) && Places(BeginPoll(s, w, p)) == Places(s)
  {
    hide LanesOk, LaneTasks, Union, WaitersParked;
    ViewBegin(ViewOf(s), w, p);
  }

  lemma {:induction false} TakenOk(s: Node, w: nat)
    requires Ok(s, None) && w < |s.fail| && s.cur[w].Polling? && s.cur[w].todo > 0
    ensures var c := s.cur[w];
            && c.lane < |s.lanes| && s.lanes[c.lane].tasks != [] && c.todo <= |c.start|
            && s.lanes[c.lane].tasks[0] == c.start[|c.start| - c.todo]
            && Ok(Taken(s, w), Some(w)) && Places(Taken(s, w)) + multiset{s.lanes[c.lane].tasks[0]} == Places(s)
  {
    hide LanesOk, LaneTasks, Union, WaitersParked;
    ViewTaken(ViewOf(s), w);
    var l := s.cur[w].lane;
    var lane := s.lanes[l];
    assert lane.tasks == [lane.tasks[0]] + lane.tasks[1..];
    LaneTasksUpdate(s.lanes, l, lane.(tasks := lane.tasks[1..]));
  }

  /** The end of a task's turn: it goes back to the lane, or the poll owes one more. */
  lemma {:induction false} TurnOk(s: Node, w: nat, t: Task)
    requires Ok(s, Some(w)) && w < |s.fail| && s.cur[w].Polling?
    ensures s.cur[w].lane < |s.lanes| && s.lanes[s.cur[w].lane].owner == w
    ensures var back := LanePush(s, w, s.cur[w].lane, t, false);
            Ok(back, None) && Places(back) == Places(s) + multiset{t}
    ensures var gone := s.(cur := s.cur[w := s.cur[w].(done := s.cur[w].done + 1)]);
            Ok(gone, None) && Places(gone) == Places(s)
  {
    assert PollOk(ViewOf(s), w);
    hide LanesOk, LaneTasks, Union, WaitersParked;
    ViewBack(ViewOf(s), w, t);
    ViewDone(ViewOf(s), w);
    LanePushPlaces(s, w, s.cur[w].lane, t, false);
  }

  lemma {:induction false} RunNextOk(s: Node, w: nat, x: Script)
    requires Ok(s, None) && w < |s.fail| && s.cur[w].Polling? && s.cur[w].todo > 0 && ScriptOk(s, x)
    ensures var c := s.cur[w];
            && c.lane < |s.lanes| && s.lanes[c.lane].tasks != [] && c.todo <= |c.start|
            && s.lanes[c.lane].tasks[0] == c.start[|c.start| - c.todo]
            && Ok(RunNext(s, w, x), None)
            && Places(RunNext(s, w, x)) == Places(s) + NewOf(s, s.lanes[c.lane].tasks[0], x)
  {
    hide LanesOk, WaitersParked, Places, RunTask, LanePush;
    TakenOk(s, w);
    var t := s.lanes[s.cur[w].lane].tasks[0];
    RunTaskOk(Taken(s, w), w, t, x, Some(w));
    var (s2, back) := RunTask(Taken(s, w), w, t, x);
    TurnOk(s2, w, t);
  }

  lemma {:induction false} EndPollOk(s: Node, w: nat)
    requires Ok(s, None) && w < |s.fail| && s.cur[w].Polling?
    ensures s.cur[w].lane < |s.lanes|
    ensures Ok(EndPoll(s, w), None) && Places(EndPoll(s, w)) == Places(s)
  {
    hide LanesOk, LaneTasks, Union, WaitersParked;
    ViewEnd(ViewOf(s), w);
    var l := s.cur[w].lane;
    LaneTasksUpdate(s.lanes, l, EndPoll(s, w).lanes[l]);
  }

  lemma {:induction false} RetryFailedOk(s: Node, w: nat, env: Env)
    requires Ok(s, None) && w < |s.fail| && s.fail[w] != [] && env.lane < |s.lanes|
    ensures Ok(RetryFailed(s, w, env), None) && Places(RetryFailed(s, w, env)) == Places(s)
  {
    hide LanesOk, LaneTasks, Union, WaitersParked, PushTask;
    assert s.fail[w] == [s.fail[w][0]] + s.fail[w][1..];
    UnionUpdate(s.fail, w, s.fail[w][1..]);
    PushTaskOk(s.(fail := s.fail[w := s.fail[w][1..]]), w, s.fail[w][0], env, None);
  }

  lemma {:induction false} ReapFlushOk(s: Node, env: Env)
    requires Ok(s, None) && |s.fail| > 0 && s.flush != [] && env.lane < |s.lanes|
    ensures Ok(ReapFlush(s, env), None) && Places(ReapFlush(s, env)) == Places(s)
  {
    hide LanesOk, LaneTasks, Union, WaitersParked, PushTask;
    var t := s.flush[0];
    assert s.flush == [t] + s.flush[1..];
    PushTaskOk(s.(flush := s.flush[1..], info := s.info[t := InfoOf(s, t).(flush := false)]), 0, t, env, None);
  }
}
