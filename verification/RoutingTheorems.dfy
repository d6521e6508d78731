/** The workers and the domain map together: on every node, a hashed task goes to a lane
    of the node that owns its container, and to the remote queue of any other. */
module RoutingTheorems {
  import opened Common
  import opened Domains
  import opened Resolution
  import opened Placement
  import opened Scheduling
  import opened SchedulerRuns
  import opened SchedulerTheorems
  import opened SchedulerPlaces

  /** Whenever a worker routes task t, resolution answers `here`; the task is given to
      the node without a route and not marked remote. */
  ghost predicate Answers(s: Node, e: Event, t: Task, here: bool)
    requires Enabled(s, e)
  {
    forall d :: d in Deeds(s, e) && d.Routing? && d.t == t ==>
      d.env.local == here && (e.Ingest? || e.Run? ==> !d.info.routed && !d.info.remote)
  }

  ghost predicate AnswersAt(ss: seq<Node>, es: seq<Event>, i: nat, t: Task, here: bool)
    requires IsRun(ss, es) && i < |es|
  {
    assert Step(ss, es, i);
    Answers(ss[i], es[i], t, here)
  }

  /** A task that has a route resolved to this node. */
  predicate Honest(p: Past, here: bool) {
    p.Known? ==> p.env.local == here && !p.info.remote && (p.info.routed ==> here)
  }

  predicate HonestDeed(d: Deed, t: Task, here: bool) {
    d.Routing? && d.t == t ==> d.env.local == here && !d.info.remote && (d.info.routed ==> here)
  }

  lemma {:induction false} AfterHonest(p: Past, ds: seq<Deed>, t: Task, here: bool)
    requires Honest(p, here) && forall d :: d in ds ==> HonestDeed(d, t, here)
    ensures Honest(AfterAll(p, ds, t), here)
    decreases |ds|
  {
    if ds == [] {
    } else {
      assert ds[0] in ds && forall d :: d in ds[1..] ==> d in ds;
      assert HonestDeed(ds[0], t, here);
      AfterHonest(After(p, ds[0], t), ds[1..], t, here);
    }
  }

  lemma {:induction false} DeedsHonest(s: Node, e: Event, t: Task, p: Past, here: bool)
    requires Enabled(s, e) && Good(s, t, p) && Honest(p, here) && Answers(s, e, t, here)
    ensures forall d :: d in Deeds(s, e) ==> HonestDeed(d, t, here)
  {
    hide RunNext, Stays, ToRemote, Over;
    forall d | d in Deeds(s, e) ensures HonestDeed(d, t, here) {
      if e.Retry? && d.t == t { assert t in s.fail[e.w]; }
      if e.Reap? && d.t == t { assert t in s.flush; }
    }
  }

  lemma {:induction false} RunHonest(ss: seq<Node>, es: seq<Event>, n: nat, t: Task, here: bool)
    requires IsRun(ss, es) && n <= |es| && Fresh(ss[0]) && IntroducedBy(ss, es, n)[t] <= 1
    requires forall i :: 0 <= i < n ==> AnswersAt(ss, es, i, t, here)
    ensures Honest(PastOf(ss, es, n, t), here)
  {
    hide Fresh, SchedulerRuns.Ok, Places, Good, Enabled, Next, Introduced, Deeds, AfterAll, Answers;
    if n == 0 {
    } else {
      assert Step(ss, es, n - 1) && AnswersAt(ss, es, n - 1, t, here);
      RunHonest(ss, es, n - 1, t, here);
      RunPlaces(ss, es, n - 1, t);
      var p := PastOf(ss, es, n - 1, t);
      DeedsHonest(ss[n - 1], es[n - 1], t, p, here);
      AfterHonest(p, Deeds(ss[n - 1], es[n - 1]), t, here);
    }
  }

  ghost predicate InSomeLane(s: Node, t: Task) { exists l :: 0 <= l < |s.lanes| && t in s.lanes[l].tasks }

  /** A task that was given once, unmarked and without a route, is in a lane, parked or
      waiting to be flushed only if it resolves to this node; unless it is complete or
      long-running, it is with the remote queue exactly if it does not. */
  lemma {:induction false} TasksRunWhereTheyResolve(ss: seq<Node>, es: seq<Event>, t: Task, here: bool)
    requires IsRun(ss, es) && Fresh(ss[0]) && IntroducedBy(ss, es, |es|)[t] == 1
    requires forall i :: 0 <= i < |es| ==> AnswersAt(ss, es, i, t, here)
    ensures var s := ss[|es|]; var i := InfoOf(s, t);
            && (InSomeLane(s, t) || t in s.parked || t in s.flush ==> here)
            && (t in s.remote ==> !here)
            && (!i.complete && !i.longRunning ==> (t in s.remote <==> !here))
  {
    hide Fresh, Places, Step, PastOf, IntroducedBy, AnswersAt, MayRetry, WithItsWorker;
    TasksAreWhereTheyWereSent(ss, es, t);
    RunHonest(ss, es, |es|, t, here);
  }

  /** On any node, when the workers ask the domain map: a hashed task is in a lane only on
      the node that owns the container its hash selects, and is sent on from any other. */
  lemma {:induction false} HashedTasksRunOnTheirOwner(ss: seq<Node>, es: seq<Event>, t: Task,
                                                      c: Context, pool: PoolId, nodes: seq<u32>, g: u32, h: u32)
    requires nodes != [] && PoolBuilt(c.m, pool, nodes, g, c.node)
    requires IsRun(ss, es) && Fresh(ss[0]) && IntroducedBy(ss, es, |es|)[t] == 1
    requires forall i :: 0 <= i < |es| ==>
               AnswersAt(ss, es, i, t, ResolvesHere(c, pool, DirectHash(CONTAINER_SET, h)))
    ensures var s := ss[|es|]; var i := InfoOf(s, t); var k := HashContainer(nodes, h);
            && (InSomeLane(s, t) || t in s.parked || t in s.flush ==> k <= g && Owner(nodes, k) == c.node)
            && (!i.complete && !i.longRunning ==> (t in s.remote <==> !(k <= g && Owner(nodes, k) == c.node)))
  {
    hide Fresh, Step, IntroducedBy, AnswersAt, PoolBuilt, ResolvesHere;
    HashResolvesHereIff(c, pool, nodes, g, h);
    TasksRunWhereTheyResolve(ss, es, t, ResolvesHere(c, pool, DirectHash(CONTAINER_SET, h)));
  }

  /** What arrives from another node names the container: it never goes out again. */
  lemma {:induction false} ResolvedTasksAreNotSentOn(ss: seq<Node>, es: seq<Event>, t: Task,
                                                     c: Context, pool: PoolId, group: u32, id: u32)
    requires IsRun(ss, es) && Fresh(ss[0]) && IntroducedBy(ss, es, |es|)[t] == 1
    requires forall i :: 0 <= i < |es| ==> AnswersAt(ss, es, i, t, ResolvesHere(c, pool, LocalId(group, id)))
    ensures t !in ss[|es|].remote
  {
    hide Fresh, Step, IntroducedBy, AnswersAt;
    assert ResolvesHere(c, pool, LocalId(group, id));
    TasksRunWhereTheyResolve(ss, es, t, true);
  }
}
