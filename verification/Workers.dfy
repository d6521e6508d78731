/** The workers of a node as the objects they are: queues and counters updated in
    place, polled in loops. Every loop is a run of the step machine. */
module Workers {
  import opened Common
  import opened Scheduling
  import opened SchedulerRuns
  import opened SchedulerTheorems
  import P = SchedulerPlaces

  lemma {:induction false} RunAppend(ss: seq<Node>, es: seq<Event>, e: Event)
    requires IsRun(ss, es) && Enabled(ss[|es|], e)
    ensures IsRun(ss + [Next(ss[|es|], e)], es + [e])
  {
    hide Enabled, Next;
    var ss1, es1 := ss + [Next(ss[|es|], e)], es + [e];
    forall i | 0 <= i < |es1| ensures Step(ss1, es1, i) {
      if i < |es| { assert Step(ss, es, i); }
    }
  }

  /** A run from a good state goes on with any step a worker is at. */
  lemma {:induction false} RunGoesOn(ss: seq<Node>, es: seq<Event>, e: Event)
    requires IsRun(ss, es) && Ok(ss[|es|], None) && Wanted(ss[|es|], e)
    ensures Enabled(ss[|es|], e) && Ok(Next(ss[|es|], e), None)
    ensures IsRun(ss + [Next(ss[|es|], e)], es + [e])
  {
    WantedIsDefined(ss[|es|], e);
    hide LanesOk, Enabled, Next;
    NextOk(ss[|es|], e);
    RunAppend(ss, es, e);
  }

  lemma {:induction false} RunConcat(ss: seq<Node>, es: seq<Event>, tt: seq<Node>, fs: seq<Event>)
    requires IsRun(ss, es) && IsRun(tt, fs) && ss[|es|] == tt[0]
    ensures IsRun(ss + tt[1..], es + fs)
  {
    hide Enabled, Next;
    forall i | 0 <= i < |es + fs| ensures Step(ss + tt[1..], es + fs, i) {
      if i < |es| { assert Step(ss, es, i); } else { assert Step(tt, fs, i - |es|); }
    }
  }

  /** The lanes that worker w has begun to poll in the first n steps, in order. */
  function Begun(ss: seq<Node>, es: seq<Event>, w: nat, n: nat): seq<nat>
    requires IsRun(ss, es) && n <= |es|
  {
    if n == 0 then []
    else
      assert Step(ss, es, n - 1);
      Begun(ss, es, w, n - 1) + BegunBy(ss[n - 1], es[n - 1], w)
  }

  function BegunBy(s: Node, e: Event, w: nat): seq<nat>
    requires Enabled(s, e)
  {
    if e.Begin? && e.w == w then [s.active[2 * w + e.p][0]] else []
  }

  lemma {:induction false} BegunPrefix(ss: seq<Node>, es: seq<Event>, tt: seq<Node>, fs: seq<Event>, w: nat, n: nat)
    requires IsRun(ss, es) && IsRun(tt, fs) && n <= |es| <= |fs|
    requires forall i :: 0 <= i <= n ==> tt[i] == ss[i]
    requires forall i :: 0 <= i < n ==> fs[i] == es[i]
    ensures Begun(tt, fs, w, n) == Begun(ss, es, w, n)
  {
    hide Enabled, Next, BegunBy;
    if n == 0 {
    } else {
      assert Step(ss, es, n - 1) && Step(tt, fs, n - 1);
      BegunPrefix(ss, es, tt, fs, w, n - 1);
    }
  }

  lemma {:induction false} BegunConcat(ss: seq<Node>, es: seq<Event>, tt: seq<Node>, fs: seq<Event>, w: nat, n: nat)
    requires IsRun(ss, es) && IsRun(tt, fs) && ss[|es|] == tt[0] && IsRun(ss + tt[1..], es + fs) && n <= |fs|
    ensures Begun(ss + tt[1..], es + fs, w, |es| + n) == Begun(ss, es, w, |es|) + Begun(tt, fs, w, n)
  {
    hide Enabled, Next, BegunBy;
    var uu, gs := ss + tt[1..], es + fs;
    if n == 0 {
      BegunPrefix(ss, es, uu, gs, w, |es|);
    } else {
      assert Step(tt, fs, n - 1) && Step(uu, gs, |es| + n - 1);
      BegunConcat(ss, es, tt, fs, w, n - 1);
      var more := BegunBy(tt[n - 1], fs[n - 1], w);
      assert uu[|es| + n - 1] == tt[n - 1] && gs[|es| + n - 1] == fs[n - 1];
      assert (Begun(ss, es, w, |es|) + Begun(tt, fs, w, n - 1)) + more
          == Begun(ss, es, w, |es|) + (Begun(tt, fs, w, n - 1) + more);
    }
  }

  lemma {:induction false} BegunOnce(ss: seq<Node>, es: seq<Event>, w: nat, n: nat)
    requires IsRun(ss, es) && 1 <= n <= |es| && es[0].Begin? && es[0].w == w
    requires forall i :: 1 <= i < n ==> !es[i].Begin?
    ensures Enabled(ss[0], es[0]) && Begun(ss, es, w, n) == BegunBy(ss[0], es[0], w)
  {
    hide Enabled, Next;
    assert Step(ss, es, 0) && Step(ss, es, n - 1);
    if n == 1 {
      assert Begun(ss, es, w, 0) == [];
    } else {
      BegunOnce(ss, es, w, n - 1);
    }
  }

  lemma {:induction false} NoneBegun(s: Node, w: nat)
    ensures IsRun([s], []) && Begun([s], [], w, 0) == []
  {}

  /** One poll after the others. */
  lemma {:induction false} SweepGoesOn(ss: seq<Node>, es: seq<Event>, tt: seq<Node>, fs: seq<Event>, w: nat)
    requires IsRun(ss, es) && IsRun(tt, fs) && ss[|es|] == tt[0]
    ensures IsRun(ss + tt[1..], es + fs) && (ss + tt[1..])[0] == ss[0] && (ss + tt[1..])[|es + fs|] == tt[|fs|]
    ensures Begun(ss + tt[1..], es + fs, w, |es + fs|) == Begun(ss, es, w, |es|) + Begun(tt, fs, w, |fs|)
  {
    hide Step, Begun;
    RunConcat(ss, es, tt, fs);
    BegunConcat(ss, es, tt, fs, w, |fs|);
  }

  /** The turns of one poll, with the behaviour of the coroutines given. */
  function Turns(w: nat, beh: nat -> Script, n: nat): seq<Event> {
    seq(n, k requires 0 <= k => Run(w, beh(k)))
  }

  lemma {:induction false} PollBegins(ss: seq<Node>, es: seq<Event>, w: nat, p: nat, beh: nat -> Script, n: nat)
    requires IsRun(ss, es) && es == [Begin(w, p)] + Turns(w, beh, n) + [Finish(w)]
    ensures Enabled(ss[0], Begin(w, p)) && Begun(ss, es, w, |es|) == [ss[0].active[2 * w + p][0]]
  {
    hide Step, Begun;
    BegunOnce(ss, es, w, |es|);
  }

  /** Lists, fail queues and the flush queue are only appended to. */
  ghost predicate Grows(s: Node, r: Node) {
    && |s.active| == |r.active| && |s.fail| == |r.fail| && s.flush <= r.flush
    && (forall k :: 0 <= k < |s.active| ==> s.active[k] <= r.active[k])
    && (forall w :: 0 <= w < |s.fail| ==> s.fail[w] <= r.fail[w])
  }

  lemma {:induction false} GrowsTrans(a: Node, b: Node, c: Node)
    requires Grows(a, b) && Grows(b, c)
    ensures Grows(a, c)
  {
    forall k | 0 <= k < |a.active| ensures a.active[k] <= c.active[k] { assert a.active[k] <= b.active[k]; }
    forall w | 0 <= w < |a.fail| ensures a.fail[w] <= c.fail[w] { assert a.fail[w] <= b.fail[w]; }
  }

  lemma {:induction false} PushGrows(s: Node, w: nat, l: nat, t: Task, counted: bool)
    requires Shaped(s) && l < |s.lanes|
    ensures Grows(s, LanePush(s, w, l, t, counted))
  {}

  lemma {:induction false} SignalGrows(s: Node, w: nat, t: Task)
    requires Shaped(s) && Routed(s)
    ensures Grows(s, Signal(s, w, t))
  {
    hide LanePush;
    RouteLeads(s, t);
    var s1 := s.(blockCount := s.blockCount[t := CountOf(s, t) - 1], parked := s.parked - multiset{t},
                 log := s.log + [Signalled(t)]);
    PushGrows(s1, w, InfoOf(s, t).route, t, true);
  }

  lemma {:induction false} EndGrows(s: Node, w: nat, t: Task)
    requires Shaped(s) && Routed(s)
    ensures Grows(s, EndTask(s, w, t))
  {
    hide Signal;
    match InfoOf(s, t).parent
    case None =>
    case Some(p) => SignalGrows(s, w, p);
  }

  lemma {:induction false} PushTaskGrows(s: Node, w: nat, t: Task, env: Env)
    requires Shaped(s) && Routed(s) && w < |s.fail| && env.lane < |s.lanes|
    ensures Grows(s, PushTask(s, w, t, env))
  {
    hide EndTask, LanePush;
    RouteLeads(s, t);
    var i := InfoOf(s, t);
    EndGrows(s, w, t);
    PushGrows(s, w, i.route, t, true);
    PushGrows(s.(info := s.info[t := i.(routed := true, route := env.lane)]), w, env.lane, t, true);
  }

  lemma {:induction false} ActAllGrows(s: Node, w: nat, acts: seq<Action>)
    requires Shaped(s) && Routed(s) && w < |s.fail| && ActionsOk(s, acts)
    ensures Grows(s, ActAll(s, w, acts))
    decreases |acts|
  {
    hide PushTask, Signal;
    if acts == [] {
    } else {
      assert ActionOk(s, acts[0]);
      match acts[0] {
        case Schedule(t, info, env) => PushTaskGrows(s.(info := s.info[t := info]), w, t, env);
        case SignalTask(t) => SignalGrows(s, w, t);
      }
      var s1 := Act(s, w, acts[0]);
      assert Grows(s, s1);
      ActAllGrows(s1, w, acts[1..]);
      GrowsTrans(s, s1, ActAll(s, w, acts));
    }
  }

  lemma {:induction false} RunTaskGrows(s: Node, w: nat, t: Task, x: Script)
    requires Shaped(s) && Routed(s) && w < |s.fail| && ScriptOk(s, x)
    ensures Grows(s, RunTask(s, w, t, x).0)
  {
    hide EndTask, ActAll;
    EndGrows(s, w, t);
    var s0 := s.(log := s.log + [Ran(t)]);
    ActAllGrows(s0, w, x.actions);
    var s1 := ActAll(s0, w, x.actions);
    EndGrows(s1, w, t);
    assert Grows(s1, Stop(s1, w, t, x.end).0);
    GrowsTrans(s0, s1, Stop(s1, w, t, x.end).0);
  }

  lemma {:induction false} RunNextGrows(s: Node, e: Event)
    requires Enabled(s, e) && e.Run?
    ensures Grows(s, Next(s, e))
  {
    hide RunTask, LanePush;
    var s1 := Taken(s, e.w);
    RunTaskGrows(s1, e.w, Head(s, e), e.x);
    var s2 := RunTask(s1, e.w, Head(s, e), e.x).0;
    PushGrows(s2, e.w, s.cur[e.w].lane, Head(s, e), false);
    GrowsTrans(s1, s2, Next(s, e));
  }

  lemma {:induction false} RetryGrows(s: Node, e: Event)
    requires Enabled(s, e) && e.Retry?
    ensures s.fail[e.w][1..] <= Next(s, e).fail[e.w] && Next(s, e).cur == s.cur
  {
    hide PushTask;
    PushTaskGrows(s.(fail := s.fail[e.w := s.fail[e.w][1..]]), e.w, s.fail[e.w][0], e.env);
  }

  /** A reaped task does not come back to the flush queue. */
  lemma {:induction false} ReapTakes(s: Node, e: Event)
    requires Enabled(s, e) && e.Reap?
    ensures Next(s, e).flush == s.flush[1..] && Next(s, e).cur == s.cur
  {
    hide PushTask;
    var t := s.flush[0];
    P.RoutedGoes(s.(flush := s.flush[1..], info := s.info[t := InfoOf(s, t).(flush := false)]), 0, t, e.env);
  }

  /** What a poll of the first lane of list p has done: begun, and run `ran`. */
  ghost predicate Polls(ss: seq<Node>, es: seq<Event>, w: nat, p: nat, beh: nat -> Script, ran: seq<Task>) {
    && IsRun(ss, es) && es == [Begin(w, p)] + Turns(w, beh, |ran|)
    && Enabled(ss[0], Begin(w, p)) && PollAt(ss[|es|], w, LaneAt(ss[0], Begin(w, p)), ran)
    && Ok(ss[|es|], None) && SameLayout(ss[0], ss[|es|])
    && ss[0].active[2 * w + p][1..] <= ss[|es|].active[2 * w + p]
  }

  predicate IsPolling(s: Node, w: nat) { w < |s.cur| && s.cur[w].Polling? }

  predicate SameLayout(s: Node, r: Node) {
    |s.lanes| == |r.lanes| && |s.active| == |r.active| && |s.fail| == |r.fail| && |s.cur| == |r.cur|
  }

  lemma {:induction false} NextLayout(s: Node, e: Event)
    requires Enabled(s, e)
    ensures SameLayout(s, Next(s, e))
  {
    hide RunTask, LanePush, PushTask, Signal;
  }

  lemma {:induction false} PollsBegin(s: Node, w: nat, p: nat, beh: nat -> Script)
    requires Ok(s, None) && Wanted(s, Begin(w, p))
    ensures Enabled(s, Begin(w, p)) && Polls([s] + [Next(s, Begin(w, p))], [] + [Begin(w, p)], w, p, beh, [])
    ensures IsPolling(Next(s, Begin(w, p)), w)
  {
    var e := Begin(w, p);
    RunGoesOn([s], [], e);
    PollStarts(s, e);
    NextLayout(s, e);
    assert Turns(w, beh, 0) == [];
  }

  lemma {:induction false} PollsTurn(ss: seq<Node>, es: seq<Event>, w: nat, p: nat, beh: nat -> Script, ran: seq<Task>)
    requires Polls(ss, es, w, p, beh, ran) && ss[|es|].cur[w].todo > 0 && ScriptOk(ss[0], beh(|ran|))
    ensures var e := Run(w, beh(|ran|)); var s := ss[|es|];
            && Enabled(s, e) && Polls(ss + [Next(s, e)], es + [e], w, p, beh, ran + [Head(s, e)])
            && IsPolling(Next(s, e), w) && Next(s, e).cur[w].todo < s.cur[w].todo
  {
    var s, e := ss[|es|], Run(w, beh(|ran|));
    assert Wanted(s, e);
    hide LanesOk, Next, Step;
    RunGoesOn(ss, es, e);
    PollMoves(s, e, w, LaneAt(ss[0], Begin(w, p)), ran);
    RunNextGrows(s, e);
    NextLayout(s, e);
    assert Turns(w, beh, |ran| + 1) == Turns(w, beh, |ran|) + [e];
  }

  lemma {:induction false} PollsEnd(ss: seq<Node>, es: seq<Event>, w: nat, p: nat, beh: nat -> Script, ran: seq<Task>)
    requires Polls(ss, es, w, p, beh, ran) && ss[|es|].cur[w].todo == 0
    ensures ran == LaneAt(ss[0], Begin(w, p)) && es == [Begin(w, p)] + Turns(w, beh, |ran|)
    ensures var s := ss[|es|];
            && Enabled(s, Finish(w)) && Next(s, Finish(w)).cur[w].Idle?
                 && IsRun(ss + [Next(s, Finish(w))], es + [Finish(w)])
            && Ok(Next(s, Finish(w)), None) && SameLayout(ss[0], Next(s, Finish(w)))
            && ss[0].active[2 * w + p][1..] <= Next(s, Finish(w)).active[2 * w + p]
  {
    hide LanesOk, Step, LaneAt;
    RunGoesOn(ss, es, Finish(w));
    NextLayout(ss[|es|], Finish(w));
  }

  class Orchestrator {
    var lanes: seq<Lane>
    var active: seq<seq<nat>>
    var fail: seq<seq<Task>>
    var flush: seq<Task>
    var remote: seq<Task>
    var complete: seq<Task>
    var ended: seq<Task>
    var parked: multiset<Task>
    var info: map<Task, Info>
    var blockCount: map<Task, int>
    var cur: seq<Cur>
    var log: seq<Mark>

    function State(): Node
      reads this
    {
      Node(lanes, active, fail, flush, remote, complete, ended, parked, info, blockCount, cur, log)
    }

    method Push(w: nat, l: nat, t: Task, counted: bool)
      requires Shaped(State()) && l < |lanes|
      modifies this
      ensures State() == LanePush(old(State()), w, l, t, counted)
    {
      var owner := lanes[l].owner;
      if owner != w {
        fail := fail[owner := fail[owner] + [t]];
        return;
      }
      if counted {
        var dup := lanes[l].count;
        lanes := lanes[l := lanes[l].(count := dup + 1)];
        if dup == 0 {
          active := active[Slot(lanes[l]) := active[Slot(lanes[l])] + [l]];
        }
      }
      lanes := lanes[l := lanes[l].(tasks := lanes[l].tasks + [t])];
    }

    method SignalUnblock(w: nat, t: Task)
      requires Shaped(State()) && Routed(State())
      modifies this
      ensures State() == Signal(old(State()), w, t)
    {
      RouteLeads(State(), t);
      hide Routed;
      var count := CountOf(State(), t) - 1;
      blockCount := blockCount[t := count];
      log := log + [Signalled(t)];
      if count == 0 {
        parked := parked - multiset{t};
        Push(w, InfoOf(State(), t).route, t, true);
      }
    }

    method End(w: nat, t: Task)
      requires Shaped(State()) && Routed(State())
      modifies this
      ensures State() == EndTask(old(State()), w, t)
    {
      hide Signal;
      var i := InfoOf(State(), t);
      if i.parent.Some? {
        SignalUnblock(w, i.parent.value);
      }
      if i.signalRemote {
        complete := complete + [t];
      } else {
        ended := ended + [t];
      }
    }

    /** PrivateTaskMultiQueue::push: the four cases. */
    method PushTo(w: nat, t: Task, env: Env)
      requires Shaped(State()) && Routed(State()) && w < |fail| && env.lane < |lanes|
      modifies this
      ensures State() == PushTask(old(State()), w, t, env)
      ensures P.Goes(old(State()), State(), t, P.Known(w, InfoOf(old(State()), t), env, None))
    {
      hide EndTask, LanePush, P.Goes;
      P.RoutedGoes(State(), w, t, env);
      var i := InfoOf(State(), t);
      if i.complete {
        End(w, t);
      } else if i.routed {
        if !env.created {
          fail := fail[w := fail[w] + [t]];
        } else {
          Push(w, i.route, t, true);
        }
      } else if !i.remote && env.local {
        if i.flush {
          flush := flush + [t];
        } else if !env.created {
          fail := fail[w := fail[w] + [t]];
        } else {
          info := info[t := i.(routed := true, route := env.lane)];
          Push(w, env.lane, t, true);
        }
      } else if i.longRunning && env.useless {
        fail := fail[w := fail[w] + [t]];
      } else {
        remote := remote + [t];
      }
    }

    /** The turn of a coroutine up to where it stops. */
    method Exec(w: nat, acts: seq<Action>)
      requires Shaped(State()) && Routed(State()) && w < |fail| && ActionsOk(State(), acts)
      modifies this
      ensures State() == ActAll(old(State()), w, acts)
    {
      hide PushTask, Signal, Routed;
      for k := 0 to |acts|
        invariant Shaped(State()) && Routed(State()) && |fail| == old(|fail|) && |lanes| == old(|lanes|)
        invariant ActionsOk(State(), acts[k..])
        invariant ActAll(State(), w, acts[k..]) == ActAll(old(State()), w, acts)
      {
        assert acts[k..][0] == acts[k] && acts[k..][1..] == acts[k + 1..];
        assert ActionOk(State(), acts[k..][0]);
        match acts[k] {
          case Schedule(t, i, env) =>
            RoutedUpdate(State(), t, i);
            info := info[t := i];
            PushTo(w, t, env);
          case SignalTask(t) =>
            SignalUnblock(w, t);
        }
      }
    }

    /** How the turn stops. */
    method StopTurn(w: nat, t: Task, end: Scheduling.End) returns (back: bool)
      requires Shaped(State()) && Routed(State()) && w < |fail|
      modifies this
      ensures (State(), back) == Stop(old(State()), w, t, end)
    {
      hide EndTask;
      match end {
        case Reroute =>
          info := info[t := InfoOf(State(), t).(routed := false)];
          fail := fail[w := fail[w] + [t]];
          back := false;
        case YieldOnce =>
          back := true;
        case Return(done) =>
          if InfoOf(State(), t).longRunning && !done {
            back := true;
          } else {
            End(w, t);
            back := false;
          }
        case WaitFor(n) =>
          var count := CountOf(State(), t) + n;
          blockCount := blockCount[t := count];
          log := log + [Waited(t, n)];
          if count != 0 {
            parked := parked + multiset{t};
          }
          back := count == 0;
      }
    }

    method Run(w: nat, t: Task, x: Script) returns (back: bool)
      requires Shaped(State()) && Routed(State()) && w < |fail| && ScriptOk(State(), x)
      modifies this
      ensures (State(), back) == RunTask(old(State()), w, t, x)
    {
      hide EndTask, ActAll, Stop;
      if CountOf(State(), t) > 0 {
        parked := parked + multiset{t};
        return false;
      }
      if InfoOf(State(), t).complete {
        End(w, t);
        return false;
      }
      log := log + [Ran(t)];
      Exec(w, x.actions);
      back := StopTurn(w, t, x.end);
    }

    /** One turn of the polled lane. */
    method Turn(w: nat, x: Script) returns (t: Task)
      requires Enabled(State(), Event.Run(w, x))
      modifies this
      ensures t == Head(old(State()), Event.Run(w, x)) && State() == Next(old(State()), Event.Run(w, x))
    {
      hide RunTask, LanePush;
      var l := cur[w].lane;
      t := lanes[l].tasks[0];
      lanes := lanes[l := lanes[l].(tasks := lanes[l].tasks[1..])];
      cur := cur[w := cur[w].(todo := cur[w].todo - 1)];
      ghost var s1 := State();
      assert s1 == Taken(old(State()), w);
      var back := Run(w, t, x);
      if back {
        Push(w, l, t, false);
      } else {
        cur := cur[w := cur[w].(done := cur[w].done + 1)];
      }
    }

    method BeginLane(w: nat, p: nat)
      requires Enabled(State(), Begin(w, p))
      modifies this
      ensures State() == Next(old(State()), Begin(w, p))
    {
      var l := active[2 * w + p][0];
      active := active[2 * w + p := active[2 * w + p][1..]];
      cur := cur[w := Polling(l, lanes[l].count, 0, lanes[l].tasks)];
    }

    /** pop_prep, and back to the list if tasks are left. */
    method FinishLane(w: nat)
      requires Enabled(State(), Finish(w))
      modifies this
      ensures State() == Next(old(State()), Finish(w))
    {
      var l := cur[w].lane;
      var after := lanes[l].count - cur[w].done;
      lanes := lanes[l := lanes[l].(count := after)];
      cur := cur[w := Idle];
      if after > 0 {
        active := active[Slot(lanes[l]) := active[Slot(lanes[l])] + [l]];
      }
    }

    /** Poll the first lane of a list: the tasks it held are run once each, in order. */
    method PollLane(w: nat, p: nat, beh: nat -> Script)
      returns (ran: seq<Task>, ghost ss: seq<Node>, ghost es: seq<Event>)
      requires Ok(State(), None) && Wanted(State(), Begin(w, p))
      requires forall k :: ScriptOk(State(), beh(k))
      modifies this
      ensures IsRun(ss, es) && ss[0] == old(State()) && ss[|es|] == State()
      ensures Enabled(ss[0], Begin(w, p)) && ran == LaneAt(ss[0], Begin(w, p))
      ensures es == [Begin(w, p)] + Turns(w, beh, |ran|) + [Finish(w)]
      ensures Ok(State(), None) && SameLayout(old(State()), State())
      ensures cur[w].Idle? && old(active[2 * w + p])[1..] <= active[2 * w + p]
    {
      hide Ok, Next, Step, Turns, Polls, LaneAt, Wanted, Defined;
      ghost var s0 := State();
      PollsBegin(s0, w, p, beh);
      BeginLane(w, p);
      ss, es := [s0] + [State()], [] + [Begin(w, p)];
      ran := [];
      while cur[w].todo > 0
        invariant Polls(ss, es, w, p, beh, ran)
        invariant |ss| == |es| + 1 && ss[0] == s0 && ss[|es|] == State() && IsPolling(State(), w)
        decreases cur[w].todo
      {
        PollsTurn(ss, es, w, p, beh, ran);
        ghost var e := Event.Run(w, beh(|ran|));
        var t := Turn(w, beh(|ran|));
        ss, es, ran := ss + [State()], es + [e], ran + [t];
      }
      PollsEnd(ss, es, w, p, beh, ran);
      FinishLane(w);
      ss, es := ss + [State()], es + [Finish(w)];
    }

    /** One sweep over a list: every lane it held is polled once, in order. */
    method PollLanes(w: nat, p: nat, beh: (nat, nat) -> Script)
      returns (polled: seq<nat>, ghost ss: seq<Node>, ghost es: seq<Event>)
      requires Ok(State(), None) && w < |fail| && p < 2 && cur[w].Idle?
      requires forall j, k :: ScriptOk(State(), beh(j, k))
      modifies this
      ensures polled == old(active[2 * w + p])
      ensures IsRun(ss, es) && ss[0] == old(State()) && ss[|es|] == State() && polled == Begun(ss, es, w, |es|)
      ensures Ok(State(), None) && SameLayout(old(State()), State()) && cur[w].Idle?
    {
      hide LanesOk, WaitersParked, Step, Begun, Turns, LaneAt, Defined, Next;
      ghost var s0 := State();
      NoneBegun(s0, w);
      var n := |active[2 * w + p]|;
      ss, es, polled := [s0], [], [];
      for off := 0 to n
        invariant IsRun(ss, es) && ss[0] == s0 && ss[|es|] == State() && polled == Begun(ss, es, w, |es|)
        invariant Ok(State(), None) && SameLayout(s0, State()) && cur[w].Idle?
        invariant polled == s0.active[2 * w + p][..off] && s0.active[2 * w + p][off..] <= active[2 * w + p]
      {
        var lane := active[2 * w + p][0];
        ghost var tt, fs;
        var ran;
        var turns := (k: nat) => beh(off, k);
        ran, tt, fs := PollLane(w, p, turns);
        PollBegins(tt, fs, w, p, turns, |ran|);
        assert Begun(tt, fs, w, |fs|) == [lane];
        SweepGoesOn(ss, es, tt, fs, w);
        polled := polled + [lane];
        ss, es := ss + tt[1..], es + fs;
      }
    }

    method RouteAgain(w: nat, env: Env)
      requires Enabled(State(), Retry(w, env))
      modifies this
      ensures State() == Next(old(State()), Retry(w, env))
    {
      hide PushTask;
      var t := fail[w][0];
      fail := fail[w := fail[w][1..]];
      PushTo(w, t, env);
    }

    method ReapFirst(env: Env)
      requires Enabled(State(), Reap(env))
      modifies this
      ensures State() == Next(old(State()), Reap(env))
    {
      hide PushTask;
      var t := flush[0];
      flush := flush[1..];
      info := info[t := InfoOf(State(), t).(flush := false)];
      PushTo(0, t, env);
    }

    /** Every task that was in the fail queue is routed again once, in order. */
    method PollFail(w: nat, envs: nat -> Env) returns (took: seq<Task>, ghost ss: seq<Node>, ghost es: seq<Event>)
      requires Ok(State(), None) && w < |fail| && cur[w].Idle?
      requires forall k :: envs(k).lane < |lanes|
      modifies this
      ensures took == old(fail[w])
      ensures IsRun(ss, es) && ss[0] == old(State()) && ss[|es|] == State()
      ensures es == seq(|took|, k requires 0 <= k => Retry(w, envs(k)))
      ensures Ok(State(), None) && SameLayout(old(State()), State()) && cur[w].Idle?
    {
      hide LanesOk, WaitersParked, Step, Next;
      ghost var s0 := State();
      var size := |fail[w]|;
      ss, es, took := [s0], [], [];
      for i := 0 to size
        invariant IsRun(ss, es) && ss[0] == s0 && ss[|es|] == State()
        invariant es == seq(i, k requires 0 <= k => Retry(w, envs(k)))
        invariant Ok(State(), None) && SameLayout(s0, State()) && cur[w].Idle?
        invariant took == s0.fail[w][..i] && s0.fail[w][i..] <= fail[w]
      {
        ghost var s, e := State(), Retry(w, envs(i));
        RunGoesOn(ss, es, e);
        RetryGrows(s, e);
        NextLayout(s, e);
        took := took + [fail[w][0]];
        RouteAgain(w, envs(i));
        ss, es := ss + [State()], es + [e];
      }
    }

    /** Worker 0 reaps its flush queue when flushing is over: it is empty then. */
    method PollFlush(envs: nat -> Env) returns (took: seq<Task>, ghost ss: seq<Node>, ghost es: seq<Event>)
      requires Ok(State(), None) && 0 < |fail| && cur[0].Idle?
      requires forall k :: envs(k).lane < |lanes|
      modifies this
      ensures took == old(flush) && flush == []
      ensures IsRun(ss, es) && ss[0] == old(State()) && ss[|es|] == State()
      ensures es == seq(|took|, k requires 0 <= k => Reap(envs(k)))
      ensures Ok(State(), None) && SameLayout(old(State()), State()) && cur[0].Idle?
    {
      hide LanesOk, WaitersParked, Step, Next;
      ghost var s0 := State();
      var size := |flush|;
      ss, es, took := [s0], [], [];
      for i := 0 to size
        invariant IsRun(ss, es) && ss[0] == s0 && ss[|es|] == State()
        invariant es == seq(i, k requires 0 <= k => Reap(envs(k)))
        invariant Ok(State(), None) && SameLayout(s0, State()) && cur[0].Idle?
        invariant took == s0.flush[..i] && s0.flush[i..] == flush
      {
        ghost var s, e := State(), Reap(envs(i));
        RunGoesOn(ss, es, e);
        ReapTakes(s, e);
        NextLayout(s, e);
        took := took + [flush[0]];
        ReapFirst(envs(i));
        ss, es := ss + [State()], es + [e];
      }
    }
  }

  lemma {:induction false} RoutedUpdate(s: Node, t: Task, i: Info)
    requires Routed(s) && i.route < |s.lanes|
    ensures Routed(s.(info := s.info[t := i]))
  {}
}
