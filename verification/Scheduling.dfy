/** The workers of one node: lanes, active lists, fail queues and parked tasks.
    src/work_orchestrator/worker.cc, src/module_registry/module_queue.cc and SignalUnblock of
    src/work_orchestrator/work_orchestrator.cc, as functions on the node's state. */
module Scheduling {
  import opened Common

  type Task = nat

  /** A lane belongs to one worker and sits in its list of one priority (0 or 1). */
  datatype Lane = Lane(owner: nat, prio: nat, tasks: seq<Task>, count: int)

  /** The flags and links that scheduling branches on. */
  datatype Info = Info(complete: bool, routed: bool, remote: bool, flush: bool, longRunning: bool,
                       parent: Option<Task>, signalRemote: bool, route: nat)

  const PLAIN: Info := Info(false, false, false, false, false, None, false, 0)

  /** What a worker is doing between two tasks: nothing, or polling a lane with
      `todo` tasks to run and `done` tasks run that did not come back. `start` is
      history: the tasks the lane held when the poll began. */
  datatype Cur = Idle | Polling(lane: nat, todo: nat, done: nat, start: seq<Task>)

  /** What concerns one task's waiting: it got a turn, waits for n children, was signalled. */
  datatype Mark = Ran(t: Task) | Waited(t: Task, n: nat) | Signalled(t: Task)

  /** active[2*w+p] is worker w's list of lanes of priority p; fail[w] its fail
      queue; flush the flush queue of worker 0; remote the tasks handed to the
      remote queue; complete the finished tasks of other nodes; parked the tasks
      that left a lane blocked. `log` is history. */
  datatype Node = Node(lanes: seq<Lane>, active: seq<seq<nat>>, fail: seq<seq<Task>>,
                       flush: seq<Task>, remote: seq<Task>, complete: seq<Task>, ended: seq<Task>,
                       parked: multiset<Task>, info: map<Task, Info>, blockCount: map<Task, int>, cur: seq<Cur>,
                       log: seq<Mark>)

  function InfoOf(s: Node, t: Task): Info { if t in s.info then s.info[t] else PLAIN }
  function CountOf(s: Node, t: Task): int { if t in s.blockCount then s.blockCount[t] else 0 }
  function Slot(l: Lane): nat { 2 * l.owner + l.prio }

  /** The fixed layout. */
  predicate Shaped(s: Node) {
    && |s.cur| == |s.fail| && |s.active| == 2 * |s.fail|
    && forall l :: 0 <= l < |s.lanes| ==> s.lanes[l].owner < |s.fail| && s.lanes[l].prio < 2
  }

  /** Routes lead to lanes. */
  predicate Routed(s: Node) { |s.lanes| > 0 && forall t :: t in s.info ==> s.info[t].route < |s.lanes| }

  // ------------------------------------------------------------------ lanes

  /** Lane::push by worker w; a thread that is no worker has w >= |fail|. The push
      of a task that came back does not count it again. */
  function LanePush(s: Node, w: nat, l: nat, t: Task, counted: bool): (r: Node)
    requires Shaped(s) && l < |s.lanes|
    ensures Shaped(r) && |r.lanes| == |s.lanes| && |r.fail| == |s.fail| && r.cur == s.cur
  {
    var lane := s.lanes[l];
    if lane.owner != w then s.(fail := s.fail[lane.owner := s.fail[lane.owner] + [t]])
    else if !counted then s.(lanes := s.lanes[l := lane.(tasks := lane.tasks + [t])])
    else s.(lanes := s.lanes[l := lane.(tasks := lane.tasks + [t], count := lane.count + 1)],
            active := if lane.count == 0 then s.active[Slot(lane) := s.active[Slot(lane)] + [l]] else s.active)
  }

  /** SignalUnblock: the signal that brings the counter to zero requeues the task. */
  function Signal(s: Node, w: nat, t: Task): (r: Node)
    requires Shaped(s) && Routed(s)
    ensures Shaped(r) && Routed(r) && |r.lanes| == |s.lanes| && |r.fail| == |s.fail| && r.cur == s.cur
  {
    var c := CountOf(s, t) - 1;
    var s1 := s.(blockCount := s.blockCount[t := c], log := s.log + [Signalled(t)]);
    if c == 0 then LanePush(s1.(parked := s1.parked - multiset{t}), w, InfoOf(s, t).route, t, true) else s1
  }

  /** EndTask: signal the parent, then complete the task here or on its home node. */
  function EndTask(s: Node, w: nat, t: Task): (r: Node)
    requires Shaped(s) && Routed(s)
    ensures Shaped(r) && Routed(r) && |r.lanes| == |s.lanes| && |r.fail| == |s.fail| && r.cur == s.cur
  {
    var i := InfoOf(s, t);
    var s1 := match i.parent case None => s case Some(p) => Signal(s, w, p);
    if i.signalRemote then s1.(complete := s1.complete + [t]) else s1.(ended := s1.ended + [t])
  }

  // ---------------------------------------------------------------- routing

  /** What resolution and the container registry answer for a task: whether it
      resolves to one container of this node, whether that container exists, the
      lane it maps to, and whether a long-running remote task has no flush work. */
  datatype Env = Env(local: bool, created: bool, lane: nat, useless: bool)

  function ToFail(s: Node, w: nat, t: Task): Node
    requires w < |s.fail|
  {
    s.(fail := s.fail[w := s.fail[w] + [t]])
  }

  /** PrivateTaskMultiQueue::push by worker w: end, requeue, place or send. */
  function PushTask(s: Node, w: nat, t: Task, env: Env): (r: Node)
    requires Shaped(s) && Routed(s) && w < |s.fail| && env.lane < |s.lanes|
    ensures Shaped(r) && Routed(r) && |r.lanes| == |s.lanes| && |r.fail| == |s.fail| && r.cur == s.cur
  {
    var i := InfoOf(s, t);
    if i.complete then EndTask(s, w, t)
    else if i.routed then (if !env.created then ToFail(s, w, t) else LanePush(s, w, i.route, t, true))
    else if !i.remote && env.local then
      if i.flush then s.(flush := s.flush + [t])
      else if !env.created then ToFail(s, w, t)
      else LanePush(s.(info := s.info[t := i.(routed := true, route := env.lane)]), w, env.lane, t, true)
    else if i.longRunning && env.useless then ToFail(s, w, t)
    else s.(remote := s.remote + [t])
  }

  // ---------------------------------------------------------------- running

  /** What a coroutine does in one turn: schedule new tasks, signal others (by
      releasing a lock, say), then stop in one of these ways. */
  datatype Action = Schedule(t: Task, info: Info, env: Env) | SignalTask(t: Task)
  datatype End = Reroute | WaitFor(n: nat) | YieldOnce | Return(done: bool)
  datatype Script = Script(actions: seq<Action>, end: End)

  predicate ActionOk(s: Node, a: Action) {
    a.Schedule? ==> a.info.route < |s.lanes| && a.env.lane < |s.lanes|
  }

  predicate ActionsOk(s: Node, acts: seq<Action>) {
    forall i :: 0 <= i < |acts| ==> ActionOk(s, acts[i])
  }

  /** Waiting for no child does not stop a coroutine. */
  predicate ScriptOk(s: Node, x: Script) {
    ActionsOk(s, x.actions) && (x.end.WaitFor? ==> x.end.n >= 1)
  }

  function Act(s: Node, w: nat, a: Action): (r: Node)
    requires Shaped(s) && Routed(s) && w < |s.fail| && ActionOk(s, a)
    ensures Shaped(r) && Routed(r) && |r.lanes| == |s.lanes| && |r.fail| == |s.fail| && r.cur == s.cur
  {
    match a
    case Schedule(t, info, env) => PushTask(s.(info := s.info[t := info]), w, t, env)
    case SignalTask(t) => Signal(s, w, t)
  }

  function ActAll(s: Node, w: nat, acts: seq<Action>): (r: Node)
    requires Shaped(s) && Routed(s) && w < |s.fail| && ActionsOk(s, acts)
    ensures Shaped(r) && Routed(r) && |r.lanes| == |s.lanes| && |r.fail| == |s.fail| && r.cur == s.cur
    decreases |acts|
  {
    if acts == [] then s
    else
      assert ActionOk(s, acts[0]);
      ActAll(Act(s, w, acts[0]), w, acts[1..])
  }

  function Park(s: Node, t: Task): Node { s.(parked := s.parked + multiset{t}) }

  /** How a turn that ran its actions stops, and whether the task goes back to its
      lane. No action raises a counter, so a coroutine that did not wait is not
      found blocked. */
  function Stop(s: Node, w: nat, t: Task, end: End): (r: (Node, bool))
    requires Shaped(s) && Routed(s) && w < |s.fail|
    ensures Shaped(r.0) && Routed(r.0) && |r.0.lanes| == |s.lanes| && |r.0.fail| == |s.fail| && r.0.cur == s.cur
  {
    match end
    case Reroute => (ToFail(s.(info := s.info[t := InfoOf(s, t).(routed := false)]), w, t), false)
    case YieldOnce => (s, true)
    case Return(done) =>
      if InfoOf(s, t).longRunning && !done then (s, true) else (EndTask(s, w, t), false)
    case WaitFor(n) =>
      var s1 := s.(blockCount := s.blockCount[t := CountOf(s, t) + n], log := s.log + [Waited(t, n)]);
      if CountOf(s1, t) != 0 then (Park(s1, t), false) else (s1, true)
  }

  /** RunTask of a task taken from a lane. A task whose counter is positive is not
      run, and one already complete is only ended. */
  function RunTask(s: Node, w: nat, t: Task, x: Script): (r: (Node, bool))
    requires Shaped(s) && Routed(s) && w < |s.fail| && ScriptOk(s, x)
    ensures Shaped(r.0) && Routed(r.0) && |r.0.lanes| == |s.lanes| && |r.0.fail| == |s.fail| && r.0.cur == s.cur
  {
    if CountOf(s, t) > 0 then (Park(s, t), false)
    else if InfoOf(s, t).complete then (EndTask(s, w, t), false)
    else Stop(ActAll(s.(log := s.log + [Ran(t)]), w, x.actions), w, t, x.end)
  }

  // ------------------------------------------------------- steps of a worker

  /** Begin polling the first lane of a list. */
  function BeginPoll(s: Node, w: nat, p: nat): (r: Node)
    requires Shaped(s) && w < |s.fail| && p < 2 && s.cur[w].Idle?
    requires s.active[2 * w + p] != [] && s.active[2 * w + p][0] < |s.lanes|
    requires s.lanes[s.active[2 * w + p][0]].count >= 0
    ensures Shaped(r)
  {
    var l := s.active[2 * w + p][0];
    s.(active := s.active[2 * w + p := s.active[2 * w + p][1..]],
       cur := s.cur[w := Polling(l, s.lanes[l].count, 0, s.lanes[l].tasks)])
  }

  /** The first task of the polled lane is taken out. */
  function Taken(s: Node, w: nat): (r: Node)
    requires Shaped(s) && w < |s.fail| && s.cur[w].Polling? && s.cur[w].todo > 0 && s.cur[w].lane < |s.lanes|
    requires s.lanes[s.cur[w].lane].tasks != []
    ensures Shaped(r)
  {
    var c := s.cur[w];
    var lane := s.lanes[c.lane];
    s.(lanes := s.lanes[c.lane := lane.(tasks := lane.tasks[1..])], cur := s.cur[w := c.(todo := c.todo - 1)])
  }

  /** Take one task from the lane and run it; a task that goes back is not counted again. */
  function RunNext(s: Node, w: nat, x: Script): (r: Node)
    requires Shaped(s) && Routed(s) && w < |s.fail| && ScriptOk(s, x)
    requires s.cur[w].Polling? && s.cur[w].todo > 0 && s.cur[w].lane < |s.lanes|
    requires s.lanes[s.cur[w].lane].tasks != []
    ensures Shaped(r) && Routed(r)
  {
    var (s2, back) := RunTask(Taken(s, w), w, s.lanes[s.cur[w].lane].tasks[0], x);
    if back then LanePush(s2, w, s.cur[w].lane, s.lanes[s.cur[w].lane].tasks[0], false)
    else s2.(cur := s2.cur[w := s2.cur[w].(done := s2.cur[w].done + 1)])
  }

  /** Deduct the tasks that left; a lane that still has tasks rejoins its list. */
  function EndPoll(s: Node, w: nat): (r: Node)
    requires Shaped(s) && w < |s.fail| && s.cur[w].Polling? && s.cur[w].lane < |s.lanes|
    ensures Shaped(r)
  {
    var c := s.cur[w];
    var lane := s.lanes[c.lane].(count := s.lanes[c.lane].count - c.done);
    s.(lanes := s.lanes[c.lane := lane], cur := s.cur[w := Idle],
       active := if lane.count > 0 then s.active[Slot(lane) := s.active[Slot(lane)] + [c.lane]] else s.active)
  }

  /** Route the first task of the fail queue again. */
  function RetryFailed(s: Node, w: nat, env: Env): Node
    requires Shaped(s) && Routed(s) && w < |s.fail| && s.fail[w] != [] && env.lane < |s.lanes|
  {
    PushTask(s.(fail := s.fail[w := s.fail[w][1..]]), w, s.fail[w][0], env)
  }

  /** Worker 0 reaps a flush task once flushing is over. */
  function ReapFlush(s: Node, env: Env): Node
    requires Shaped(s) && Routed(s) && |s.fail| > 0 && s.flush != [] && env.lane < |s.lanes|
  {
    var t := s.flush[0];
    PushTask(s.(flush := s.flush[1..], info := s.info[t := InfoOf(s, t).(flush := false)]), 0, t, env)
  }
}
