/** Runs of a node's workers: what holds after every interleaving of their steps. */
module SchedulerTheorems {
  import opened Common
  import opened Scheduling
  import opened SchedulerRuns

  /** Steps of worker w, and signals of threads that are no workers. */
  datatype Event =
    | Begin(w: nat, p: nat)
    | Run(w: nat, x: Script)
    | Finish(w: nat)
    | Retry(w: nat, env: Env)
    | Ingest(w: nat, t: Task, info: Info, env: Env)
    | Reap(env: Env)
    | Outside(w: nat, t: Task)

  /** The worker is at the point of taking this step. */
  predicate Wanted(s: Node, e: Event)
    requires Shaped(s)
  {
    match e
    case Begin(w, p) => w < |s.fail| && p < 2 && s.cur[w].Idle? && s.active[2 * w + p] != []
    case Run(w, x) => w < |s.fail| && s.cur[w].Polling? && s.cur[w].todo > 0 && ScriptOk(s, x)
    case Finish(w) => w < |s.fail| && s.cur[w].Polling? && s.cur[w].todo == 0
    case Retry(w, env) => w < |s.fail| && s.cur[w].Idle? && s.fail[w] != [] && env.lane < |s.lanes|
    case Ingest(w, t, info, env) => w < |s.fail| && s.cur[w].Idle? && info.route < |s.lanes| && env.lane < |s.lanes|
    case Reap(env) => |s.fail| > 0 && s.cur[0].Idle? && s.flush != [] && env.lane < |s.lanes|
    case Outside(w, t) => w >= |s.fail|
  }

  /** What the step reads is there: a listed lane exists, a lane with tasks to run has one. */
  predicate Defined(s: Node, e: Event)
    requires Shaped(s) && Wanted(s, e)
  {
    match e
    case Begin(w, p) => s.active[2 * w + p][0] < |s.lanes| && s.lanes[s.active[2 * w + p][0]].count >= 0
    case Run(w, x) => s.cur[w].lane < |s.lanes| && s.lanes[s.cur[w].lane].tasks != []
    case Finish(w) => s.cur[w].lane < |s.lanes|
    case _ => true
  }

  predicate Enabled(s: Node, e: Event) { Shaped(s) && Routed(s) && Wanted(s, e) && Defined(s, e) }

  /** The task a Run step runs. */
  function Head(s: Node, e: Event): Task
    requires Enabled(s, e) && e.Run?
  {
    s.lanes[s.cur[e.w].lane].tasks[0]
  }

  /** The tasks a step brings into the node. */
  ghost function Introduced(s: Node, e: Event): multiset<Task>
    requires Enabled(s, e)
  {
    match e
    case Run(w, x) => NewOf(s, Head(s, e), x)
    case Ingest(w, t, info, env) => multiset{t}
    case _ => multiset{}
  }

  function Next(s: Node, e: Event): Node
    requires Enabled(s, e)
  {
    match e
    case Begin(w, p) => BeginPoll(s, w, p)
    case Run(w, x) => RunNext(s, w, x)
    case Finish(w) => EndPoll(s, w)
    case Retry(w, env) => RetryFailed(s, w, env)
    case Ingest(w, t, info, env) => PushTask(s.(info := s.info[t := info]), w, t, env)
    case Reap(env) => ReapFlush(s, env)
    case Outside(w, t) => Signal(s, w, t)
  }

  /** No worker is ever stuck. */
  lemma {:induction false} WantedIsDefined(s: Node, e: Event)
    requires Ok(s, None) && Wanted(s, e)
    ensures Enabled(s, e)
  {
    hide LanesOk, WaitersParked, Places, BeginPoll, Taken, EndPoll;
    match e
    case Begin(w, p) => BeginPollOk(s, w, p);
    case Run(w, x) => TakenOk(s, w);
    case Finish(w) => EndPollOk(s, w);
    case _ =>
  }

  lemma {:induction false} NextOk(s: Node, e: Event)
    requires Ok(s, None) && Enabled(s, e)
    ensures Ok(Next(s, e), None) && Places(Next(s, e)) == Places(s) + Introduced(s, e)
  {
    hide LanesOk, WaitersParked, Places, BeginPoll, RunNext, EndPoll, RetryFailed, ReapFlush, PushTask, Signal;
    match e
    case Begin(w, p) => BeginPollOk(s, w, p);
    case Run(w, x) => RunNextOk(s, w, x);
    case Finish(w) => EndPollOk(s, w);
    case Retry(w, env) => RetryFailedOk(s, w, env);
    case Ingest(w, t, info, env) => IngestOk(s, w, t, info, env);
    case Reap(env) => ReapFlushOk(s, env);
    case Outside(w, t) => SignalOk(s, w, t, None);
  }

  lemma {:induction false} IngestOk(s: Node, w: nat, t: Task, info: Info, env: Env)
    requires Ok(s, None) && w < |s.fail| && info.route < |s.lanes| && env.lane < |s.lanes|
    ensures var s1 := s.(info := s.info[t := info]);
            Ok(PushTask(s1, w, t, env), None) && Places(PushTask(s1, w, t, env)) == Places(s) + multiset{t}
  {
    hide LanesOk, WaitersParked, LaneTasks, Union, PushTask;
    PushTaskOk(s.(info := s.info[t := info]), w, t, env, None);
  }

  // -------------------------------------------------------------------- runs

  predicate Step(ss: seq<Node>, es: seq<Event>, i: nat)
    requires |ss| == |es| + 1 && i < |es|
  {
    Enabled(ss[i], es[i]) && ss[i + 1] == Next(ss[i], es[i])
  }

  predicate IsRun(ss: seq<Node>, es: seq<Event>) {
    |ss| == |es| + 1 && forall i :: 0 <= i < |es| ==> Step(ss, es, i)
  }

  /** All tasks brought in by the first n steps. */
  ghost function IntroducedBy(ss: seq<Node>, es: seq<Event>, n: nat): multiset<Task>
    requires IsRun(ss, es) && n <= |es|
  {
    if n == 0 then multiset{}
    else
      assert Step(ss, es, n - 1);
      IntroducedBy(ss, es, n - 1) + Introduced(ss[n - 1], es[n - 1])
  }

  lemma {:induction false} RunOk(ss: seq<Node>, es: seq<Event>, n: nat)
    requires IsRun(ss, es) && n <= |es| && Ok(ss[0], None)
    ensures Ok(ss[n], None) && Places(ss[n]) == Places(ss[0]) + IntroducedBy(ss, es, n)
  {
    hide Ok, Places, Enabled, Next, Introduced;
    if n == 0 {
    } else {
      assert Step(ss, es, n - 1);
      RunOk(ss, es, n - 1);
      NextOk(ss[n - 1], es[n - 1]);
    }
  }

  /** A node that has not been given any task. */
  ghost predicate Fresh(s: Node) {
    && Shaped(s) && Routed(s) && Places(s) == multiset{} && s.blockCount == map[] && s.log == []
    && (forall l :: 0 <= l < |s.lanes| ==> s.lanes[l].count == 0)
    && (forall k :: 0 <= k < |s.active| ==> s.active[k] == [])
    && (forall w :: 0 <= w < |s.cur| ==> s.cur[w].Idle?)
  }

  lemma {:induction false} FreshOk(s: Node)
    requires Fresh(s)
    ensures Ok(s, None)
  {
    forall l | 0 <= l < |s.lanes| ensures s.lanes[l].tasks == [] {
      LaneTasksUpdate(s.lanes, l, s.lanes[l]);
      assert LaneTasks(s.lanes) <= Places(s);
      EmptyQueue(s.lanes[l].tasks);
    }
  }

  lemma {:induction false} EmptyQueue(q: seq<Task>)
    requires multiset(q) <= multiset{}
    ensures q == []
  {
    assert multiset(q) == multiset{};
    assert |multiset(q)| == |q|;
  }

  lemma {:induction false} FreshIsEmpty(s: Node)
    requires Fresh(s)
    ensures Ok(s, None) && Places(s) == multiset{}
  {
    FreshOk(s);
  }

  /** The counter of a lane that nobody polls is the number of its tasks, and the
      lane is in its own list exactly once if it has tasks, and in no other. */
  ghost predicate LaneSettled(s: Node, l: nat)
    requires Shaped(s) && l < |s.lanes|
  {
    && s.lanes[l].count == |s.lanes[l].tasks|
    && forall k :: 0 <= k < |s.active| ==>
         multiset(s.active[k])[l] == if k == Slot(s.lanes[l]) && s.lanes[l].tasks != [] then 1 else 0
  }

  predicate Polled(s: Node, l: nat) {
    exists w :: 0 <= w < |s.cur| && s.cur[w].Polling? && s.cur[w].lane == l
  }

  lemma {:induction false} Settled(s: Node, l: nat)
    requires Ok(s, None) && l < |s.lanes| && !Polled(s, l)
    ensures LaneSettled(s, l)
  {
    var v := ViewOf(s);
    assert !IsPolled(v, l);
    assert CountExact(v, l, None);
    forall k | 0 <= k < |s.active|
      ensures multiset(s.active[k])[l] == if k == Slot(s.lanes[l]) && s.lanes[l].tasks != [] then 1 else 0
    {
      assert multiset(v.active[k])[l] == Listings(v, k, l);
    }
  }

  /** After every run from a fresh node: lanes are settled between polls, no worker
      is stuck, every task given to the node is in exactly as many places as it was
      given, and nothing else is in it. */
  lemma {:induction false} RunsSettleAndConserve(ss: seq<Node>, es: seq<Event>)
    requires IsRun(ss, es) && Fresh(ss[0])
    ensures var s := ss[|es|];
            && Shaped(s) && Places(s) == IntroducedBy(ss, es, |es|)
            && (forall l :: 0 <= l < |s.lanes| && !Polled(s, l) ==> LaneSettled(s, l))
            && (forall e :: Wanted(s, e) ==> Enabled(s, e))
  {
    hide Places, LanesOk, WaitersParked, LaneSettled, Wanted, Defined, Next;
    FreshIsEmpty(ss[0]);
    RunOk(ss, es, |es|);
    var s := ss[|es|];
    forall l | 0 <= l < |s.lanes| && !Polled(s, l) ensures LaneSettled(s, l) { Settled(s, l); }
    forall e | Wanted(s, e) ensures Enabled(s, e) { WantedIsDefined(s, e); }
  }

  // -------------------------------------------------------------------- FIFO

  predicate Turn(e: Event, w: nat) { (e.Begin? || e.Finish?) && e.w == w }

  /** The tasks that worker w runs in steps i to n, in order. */
  function RanBy(ss: seq<Node>, es: seq<Event>, w: nat, i: nat, n: nat): seq<Task>
    requires IsRun(ss, es) && i <= n <= |es|
  {
    if n == i then []
    else
      assert Step(ss, es, n - 1);
      RanBy(ss, es, w, i, n - 1) + Ran(ss[n - 1], es[n - 1], w)
  }

  /** The tasks of the lane that a Begin step is about to poll. */
  function LaneAt(s: Node, e: Event): seq<Task>
    requires Enabled(s, e) && e.Begin?
  {
    s.lanes[s.active[2 * e.w + e.p][0]].tasks
  }

  /** Worker w polls a lane that held `tasks` and has run `ran` of them. */
  predicate PollAt(s: Node, w: nat, tasks: seq<Task>, ran: seq<Task>) {
    && w < |s.fail| && w < |s.cur| && s.cur[w].Polling? && s.cur[w].start == tasks
    && s.cur[w].todo <= |tasks| && ran == tasks[..|tasks| - s.cur[w].todo]
  }

  lemma {:induction false} PollStarts(s: Node, e: Event)
    requires Ok(s, None) && Enabled(s, e) && e.Begin?
    ensures PollAt(Next(s, e), e.w, LaneAt(s, e), [])
  {
    hide LanesOk, WaitersParked, Places;
    BeginPollOk(s, e.w, e.p);
  }

  /** What a step adds to the tasks that worker w has run. */
  function Ran(s: Node, e: Event, w: nat): seq<Task>
    requires Enabled(s, e)
  {
    if e.Run? && e.w == w then [Head(s, e)] else []
  }

  /** Whatever else happens, only its own turns move a poll on, and they follow the lane. */
  lemma {:induction false} PollMoves(s: Node, e: Event, w: nat, tasks: seq<Task>, ran: seq<Task>)
    requires Ok(s, None) && Enabled(s, e) && !Turn(e, w) && PollAt(s, w, tasks, ran)
    ensures PollAt(Next(s, e), w, tasks, ran + Ran(s, e, w))
  {
    hide LanesOk, WaitersParked, RunTask, PushTask, Signal, LanePush;
    if e.Run? { TakenOk(s, e.w); }
  }

  lemma {:induction false} PollProgress(ss: seq<Node>, es: seq<Event>, w: nat, i: nat, n: nat)
    requires IsRun(ss, es) && i < n <= |es| && es[i].Begin? && es[i].w == w && Ok(ss[0], None)
    requires forall k :: i < k < n ==> !Turn(es[k], w)
    ensures Enabled(ss[i], es[i])
    ensures PollAt(ss[n], w, LaneAt(ss[i], es[i]), RanBy(ss, es, w, i, n))
  {
    hide Ok, Places, IntroducedBy, Enabled, LaneAt, Next, PollAt, Ran;
    assert Step(ss, es, i) && Step(ss, es, n - 1);
    RunOk(ss, es, n - 1);
    if n == i + 1 {
      PollStarts(ss[i], es[i]);
      StartRunsNothing(ss[i], es[i], w);
      assert RanBy(ss, es, w, i, i) == [] && RanBy(ss, es, w, i, n) == [];
    } else {
      PollProgress(ss, es, w, i, n - 1);
      PollMoves(ss[n - 1], es[n - 1], w, LaneAt(ss[i], es[i]), RanBy(ss, es, w, i, n - 1));
    }
  }

  lemma {:induction false} StartRunsNothing(s: Node, e: Event, w: nat)
    requires Enabled(s, e) && e.Begin?
    ensures Ran(s, e, w) == []
  {}

  /** One poll of a lane runs every task that was there when it began, once each
      and in order, and no other: what comes meanwhile waits for the next poll. */
  lemma {:induction false} PollRunsLaneInOrder(ss: seq<Node>, es: seq<Event>, w: nat, i: nat, n: nat)
    requires IsRun(ss, es) && Fresh(ss[0])
    requires i < n < |es| && es[i].Begin? && es[i].w == w && es[n] == Finish(w)
    requires forall k :: i < k < n ==> !Turn(es[k], w)
    ensures Enabled(ss[i], es[i])
    ensures RanBy(ss, es, w, i, n) == LaneAt(ss[i], es[i])
  {
    FreshOk(ss[0]);
    assert Step(ss, es, n);
    hide Ok, Next, LaneAt, Ran;
    PollProgress(ss, es, w, i, n);
  }
}
