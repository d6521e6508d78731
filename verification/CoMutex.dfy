/** The coroutine mutex of src/work_orchestrator/comutex.cc: re-entrant by task root,
    handed over to whole groups of waiters in arrival order. */
module CoMutexes {
  import opened Common
  import opened WaitGroups

  /** `hist` is not in the program: it records what happened. */
  datatype Mutex = Mutex(root: Option<nat>, rep: nat, queue: Groups, hist: History)

  const UNLOCKED: Mutex := Mutex(None, 0, NO_GROUPS, NO_HISTORY)

  function Acquired(m: Mutex, t: Task): Mutex {
    m.(root := Some(t.root), rep := m.rep + 1, hist := Granted(Asked(m.hist, t), [t]))
  }

  function TryLocked(m: Mutex, t: Task): Mutex {
    if m.root.None? || m.root == Some(t.root) then Acquired(m, t) else m
  }

  function Locked(m: Mutex, t: Task): Mutex {
    if m.rep == 0 || m.root == Some(t.root) then Acquired(m, t)
    else m.(queue := Enqueued(m.queue, t), hist := Asked(m.hist, t))
  }

  /** Whether releasing once passes the lock on. */
  predicate HandsOver(m: Mutex) { m.rep == 1 && m.queue.order != [] }

  /** The counter is unsigned: releasing an unlocked mutex would wrap it. */
  function Dec(rep: nat): nat { if rep == 0 then 0xffff_ffff_ffff_ffff else rep - 1 }

  function Unlocked(m: Mutex, t: Task): Mutex {
    var m1 := m.(rep := Dec(m.rep), hist := Released(m.hist, t));
    if m1.rep > 0 then m1
    else if m.queue.order == [] then m1.(root := None)
    else
      var next := m.queue.order[0];
      var group := Group(m.queue, next);
      m1.(root := Some(next), rep := |group|, queue := Popped(m.queue), hist := Granted(m1.hist, group))
  }

  // -------------------------------------------------------------- invariant

  ghost predicate Inv(m: Mutex) {
    && GroupsOk(m.queue)
    && m.rep == |m.hist.holders|
    && (m.rep == 0 <==> m.root.None?)
    && (m.rep == 0 ==> m.queue.order == [])
    && (forall t :: t in m.hist.holders ==> m.root == Some(t.root))
    && (m.root.Some? ==> m.root.value !in m.queue.waiting)
    && (forall t :: m.hist.asked[t] == m.hist.granted[t] + if IsWaiting(m.queue, t) then 1 else 0)
  }

  lemma {:induction false} AcquiredInv(m: Mutex, t: Task)
    requires Inv(m) && (m.rep == 0 || m.root == Some(t.root))
    ensures Inv(Acquired(m, t))
  {
    if m.rep == 0 { NoneLeft(m.queue); }
  }

  lemma {:induction false} LockedInv(m: Mutex, t: Task)
    requires Inv(m) && !IsWaiting(m.queue, t)
    ensures Inv(Locked(m, t)) && Inv(TryLocked(m, t))
  {
    if m.rep == 0 || m.root == Some(t.root) {
      AcquiredInv(m, t);
    } else {
      EnqueuedOk(m.queue, t);
    }
  }

  lemma {:induction false} UnlockedInv(m: Mutex, t: Task)
    requires Inv(m) && t in m.hist.holders
    ensures Inv(Unlocked(m, t))
  {
    if HandsOver(m) {
      PoppedOk(m.queue);
      var next := m.queue.order[0];
      var group := Group(m.queue, next);
      assert m.hist.holders - multiset{t} == multiset{} by {
        assert |m.hist.holders - multiset{t}| == 0;
      }
      var m1 := Unlocked(m, t);
      assert m1.hist.holders == multiset(group);
      forall u ensures m1.hist.asked[u] == m1.hist.granted[u] + if IsWaiting(m1.queue, u) then 1 else 0 {
        DistinctMultiset(group, u);
      }
      forall u | u in m1.hist.holders ensures m1.root == Some(u.root) { assert u in group; }
      assert next !in Popped(m.queue).waiting;
    } else if m.rep == 1 {
      assert |m.hist.holders - multiset{t}| == 0;
    }
  }

  lemma {:induction false} UnlockedIsFine()
    ensures Inv(UNLOCKED)
  {}

  // ------------------------------------------------------------------- runs

  datatype Event = Lock(t: Task) | TryLock(t: Task) | Unlock(t: Task)

  /** A parked task asks for nothing; only a holder releases. */
  ghost predicate Legal(m: Mutex, e: Event) {
    match e
    case Lock(t) => !IsWaiting(m.queue, t)
    case TryLock(t) => !IsWaiting(m.queue, t)
    case Unlock(t) => t in m.hist.holders
  }

  ghost function Step(m: Mutex, e: Event): Mutex {
    match e
    case Lock(t) => Locked(m, t)
    case TryLock(t) => TryLocked(m, t)
    case Unlock(t) => Unlocked(m, t)
  }

  lemma {:induction false} StepInv(m: Mutex, e: Event)
    requires Inv(m) && Legal(m, e)
    ensures Inv(Step(m, e))
  {
    match e
    case Lock(t) => LockedInv(m, t);
    case TryLock(t) => LockedInv(m, t);
    case Unlock(t) => UnlockedInv(m, t);
  }

  ghost predicate Goes(ms: seq<Mutex>, es: seq<Event>, i: nat)
    requires |ms| == |es| + 1 && i < |es|
  {
    Legal(ms[i], es[i]) && ms[i + 1] == Step(ms[i], es[i])
  }

  ghost predicate IsRun(ms: seq<Mutex>, es: seq<Event>) {
    |ms| == |es| + 1 && forall i :: 0 <= i < |es| ==> Goes(ms, es, i)
  }

  lemma {:induction false} RunInv(ms: seq<Mutex>, es: seq<Event>, i: nat)
    requires IsRun(ms, es) && Inv(ms[0]) && i < |ms|
    ensures Inv(ms[i])
  {
    if i == 0 {
    } else {
      RunInv(ms, es, i - 1);
      assert Goes(ms, es, i - 1);
      StepInv(ms[i - 1], es[i - 1]);
    }
  }

  /** Safety over every run: the holders share one root and number `rep`, the
      queue of roots is duplicate-free and matches the blocked map, an unlocked
      mutex has no waiter, and every acquisition asked for has been granted
      exactly once or is still waiting. */
  lemma {:induction false} RunsAreSafe(ms: seq<Mutex>, es: seq<Event>, i: nat)
    requires IsRun(ms, es) && ms[0] == UNLOCKED && i < |ms|
    ensures var m := ms[i];
            && m.rep == |m.hist.holders|
            && (forall t, u :: t in m.hist.holders && u in m.hist.holders ==> t.root == u.root)
            && (forall i, j :: 0 <= i < j < |m.queue.order| ==> m.queue.order[i] != m.queue.order[j])
            && (forall r :: r in m.queue.order <==> r in m.queue.waiting)
            && (m.rep == 0 ==> m.queue.order == [])
            && (forall t :: m.hist.asked[t] == m.hist.granted[t] + if IsWaiting(m.queue, t) then 1 else 0)
  {
    assert Inv(UNLOCKED);
    RunInv(ms, es, i);
    assert forall t :: t in ms[i].hist.holders ==> ms[i].root == Some(t.root);
  }

  // ------------------------------------------------- what the events amount to

  /** Nobody of another root holds the mutex. */
  ghost predicate FreeFor(m: Mutex, t: Task) { forall u :: u in m.hist.holders ==> u.root == t.root }

  /** What a root in the program says about the holders. */
  lemma {:induction false} FreeForIs(m: Mutex, t: Task)
    requires Inv(m)
    ensures FreeFor(m, t) <==> m.root.None? || m.root == Some(t.root)
    ensures FreeFor(m, t) <==> m.rep == 0 || m.root == Some(t.root)
  {
    if m.rep > 0 {
      var u :| u in m.hist.holders;
    }
  }

  lemma {:induction false} AskingIsLegal(m: Mutex, t: Task)
    requires !IsWaiting(m.queue, t)
    ensures Legal(m, TryLock(t)) && Legal(m, Lock(t))
  {}

  /** A lock or successful attempt makes the caller a holder at once if nobody of
      another root holds the mutex; a failed attempt changes nothing; a lock parks. */
  lemma {:induction false} GrantsIff(m: Mutex, e: Event)
    requires Inv(m) && Legal(m, e) && !e.Unlock?
    ensures FreeFor(m, e.t) ==>
              && Step(m, e).hist.holders == m.hist.holders + multiset{e.t}
              && Step(m, e).root == Some(e.t.root) && Step(m, e).rep == m.rep + 1
    ensures !FreeFor(m, e.t) ==> Step(m, e).hist.holders == m.hist.holders
    ensures !FreeFor(m, e.t) ==> if e.TryLock? then Step(m, e) == m else IsWaiting(Step(m, e).queue, e.t)
  {
    FreeForIs(m, e.t);
    if !FreeFor(m, e.t) && e.Lock? { EnqueuedOk(m.queue, e.t); }
  }

  /** The acquisitions that task t has asked for in the first n events: every lock, and
      every attempt made while nobody of another root held the mutex. */
  ghost function Asks(ms: seq<Mutex>, es: seq<Event>, n: nat, t: Task): nat
    requires n <= |es| < |ms|
  {
    if n == 0 then 0
    else
      var e := es[n - 1];
      Asks(ms, es, n - 1, t) + if e == Lock(t) || (e == TryLock(t) && FreeFor(ms[n - 1], t)) then 1 else 0
  }

  ghost function Releases(es: seq<Event>, n: nat, t: Task): nat
    requires n <= |es|
  {
    if n == 0 then 0 else Releases(es, n - 1, t) + if es[n - 1] == Unlock(t) then 1 else 0
  }

  /** How often t holds the mutex or waits for it. */
  ghost function Claims(m: Mutex, t: Task): nat { m.hist.holders[t] + if IsWaiting(m.queue, t) then 1 else 0 }

  lemma {:induction false} StepClaims(m: Mutex, e: Event, t: Task)
    requires Inv(m) && Legal(m, e)
    ensures Claims(Step(m, e), t) == Claims(m, t)
            + (if e == Lock(t) || (e == TryLock(t) && FreeFor(m, t)) then 1 else 0)
            - (if e == Unlock(t) then 1 else 0)
  {
    FreeForIs(m, e.t);
    match e
    case Lock(u) => if !FreeFor(m, u) { EnqueuedOk(m.queue, u); }
    case TryLock(u) =>
    case Unlock(u) =>
      HolderCount(m, u);
      if HandsOver(m) {
        PoppedOk(m.queue);
        DistinctMultiset(Group(m.queue, m.queue.order[0]), t);
      }
  }

  /** In every run, what a task asked for and has not released is what it holds and
      what it waits for. */
  lemma {:induction false} ClaimsAreEvents(ms: seq<Mutex>, es: seq<Event>, n: nat, t: Task)
    requires IsRun(ms, es) && ms[0] == UNLOCKED && n <= |es|
    ensures Claims(ms[n], t) == Asks(ms, es, n, t) - Releases(es, n, t)
  {
    if n == 0 {
    } else {
      ClaimsAreEvents(ms, es, n - 1, t);
      assert Inv(UNLOCKED);
      hide Inv, Legal, Step, Claims, FreeFor;
      RunInv(ms, es, n - 1);
      assert Goes(ms, es, n - 1);
      StepClaims(ms[n - 1], es[n - 1], t);
    }
  }

  /** When t last asked to lock, before event n. */
  ghost function LastAsk(es: seq<Event>, n: nat, t: Task): int
    requires n <= |es|
  {
    if n == 0 then -1 else if es[n - 1] == Lock(t) then n - 1 else LastAsk(es, n - 1, t)
  }

  lemma {:induction false} LastAskBefore(es: seq<Event>, n: nat, t: Task)
    requires n <= |es|
    ensures LastAsk(es, n, t) < n
  {
    if n == 0 {
    } else {
      LastAskBefore(es, n - 1, t);
    }
  }

  /** In every run, waiters of one root are in the order in which they asked, and the
      roots are in the order in which their first waiters asked. */
  lemma {:induction false} WaitersInOrder(ms: seq<Mutex>, es: seq<Event>, n: nat)
    requires IsRun(ms, es) && ms[0] == UNLOCKED && n <= |es|
    ensures GroupsOk(ms[n].queue) && InOrder(ms[n].queue, AskTimes(es, n))
  {
    assert Inv(UNLOCKED);
    hide Inv, Legal, Step, GroupsOk, InOrder;
    if n == 0 {
      assert GroupsOk(NO_GROUPS) && InOrder(NO_GROUPS, AskTimes(es, n)) by { NoneInOrder(AskTimes(es, n)); }
    } else {
      WaitersInOrder(ms, es, n - 1);
      RunInv(ms, es, n - 1);
      assert Goes(ms, es, n - 1);
      var at := AskTimes(es, n - 1);
      forall t ensures at(t) < n - 1 { LastAskBefore(es, n - 1, t); }
      StepInOrder(ms[n - 1], es[n - 1], at, AskTimes(es, n), n - 1);
    }
  }

  ghost function AskTimes(es: seq<Event>, n: nat): Task -> int
    requires n <= |es|
  {
    t => LastAsk(es, n, t)
  }

  lemma {:induction false} StepInOrder(m: Mutex, e: Event, at: Task -> int, at1: Task -> int, now: int)
    requires Inv(m) && Legal(m, e) && GroupsOk(m.queue) && InOrder(m.queue, at)
    requires forall t :: at(t) < now && at1(t) == if e == Lock(t) then now else at(t)
    ensures GroupsOk(Step(m, e).queue) && InOrder(Step(m, e).queue, at1)
  {
    StepInv(m, e);
    hide InOrder;
    StaysInOrder(m.queue, at, at1);
    match e
    case Lock(t) => EnqueuedInOrder(m.queue, t, at1);
    case TryLock(t) =>
    case Unlock(t) => if m.queue.order != [] { PoppedInOrder(m.queue, at1); }
  }

  ghost predicate IsHandover(m: Mutex, e: Event) { e.Unlock? && HandsOver(m) }

  ghost function Handovers(ms: seq<Mutex>, es: seq<Event>, i: nat): nat
    requires i <= |es| <= |ms|
  {
    if i == 0 then 0
    else Handovers(ms, es, i - 1) + if IsHandover(ms[i - 1], es[i - 1]) then 1 else 0
  }

  lemma {:induction false} OrderAfter(m: Mutex, e: Event)
    requires Inv(m) && Legal(m, e)
    ensures if IsHandover(m, e) then Step(m, e).queue.order == m.queue.order[1..]
            else m.queue.order <= Step(m, e).queue.order
  {
    if e.Unlock? { HolderCount(m, e.t); }
  }

  lemma {:induction false} HolderCount(m: Mutex, t: Task)
    requires Inv(m) && t in m.hist.holders
    ensures m.rep > 0 && |m.hist.holders - multiset{t}| == m.rep - 1
    ensures m.queue.order == [] <==> m.queue.waiting == map[]
    ensures m.queue.order != [] ==> m.queue.order[0] in m.queue.waiting
  {
    assert |m.hist.holders| == |m.hist.holders - multiset{t}| + 1;
    NoneLeft(m.queue);
    assert m.queue.order != [] ==> m.queue.order[0] in m.queue.order;
  }

  /** A root at position k stays queued through k hand-overs, moving up one place
      at each ... */
  lemma {:induction false} PositionMovesUp(ms: seq<Mutex>, es: seq<Event>, k: nat, i: nat)
    requires IsRun(ms, es) && Inv(ms[0]) && k < |ms[0].queue.order| && i <= |es|
    requires Handovers(ms, es, i) <= k
    ensures k - Handovers(ms, es, i) < |ms[i].queue.order|
    ensures ms[i].queue.order[k - Handovers(ms, es, i)] == ms[0].queue.order[k]
  {
    if i == 0 {
    } else {
      PositionMovesUp(ms, es, k, i - 1);
      assert Goes(ms, es, i - 1);
      RunInv(ms, es, i - 1);
      hide GroupsOk;
      OrderAfter(ms[i - 1], es[i - 1]);
    }
  }

  lemma {:induction false} HandedOver(m: Mutex, t: Task)
    requires Inv(m) && t in m.hist.holders && HandsOver(m)
    ensures var m1 := Unlocked(m, t);
            && m1.root == Some(m.queue.order[0])
            && (forall u :: u in m1.hist.holders <==> IsWaiting(m.queue, u) && u.root == m.queue.order[0])
            && m.queue.order[0] !in m1.queue.waiting
  {
    PoppedOk(m.queue);
    HolderCount(m, t);
    assert m.hist.holders - multiset{t} == multiset{};
    assert Unlocked(m, t).hist.holders == multiset(m.queue.waiting[m.queue.order[0]]);
  }

  /** ... and at hand-over k+1, not before, the lock is its: all its waiters are
      holders, nobody else is, and none of them waits any more. */
  lemma {:induction false} HandoverServesInOrder(ms: seq<Mutex>, es: seq<Event>, k: nat, i: nat)
    requires IsRun(ms, es) && Inv(ms[0]) && k < |ms[0].queue.order| && i < |es|
    requires Handovers(ms, es, i) == k && IsHandover(ms[i], es[i])
    ensures var root := ms[0].queue.order[k];
            && ms[i + 1].root == Some(root)
            && (forall t :: t in ms[i + 1].hist.holders <==> IsWaiting(ms[i].queue, t) && t.root == root)
            && root !in ms[i + 1].queue.waiting
    ensures forall j :: 0 <= j <= i ==>
              ms[0].queue.order[k] in ms[j].queue.waiting && ms[j].root != Some(ms[0].queue.order[k])
  {
    var root := ms[0].queue.order[k];
    forall j | 0 <= j <= i ensures root in ms[j].queue.waiting && ms[j].root != Some(root) {
      HandoversMonotone(ms, es, j, i);
      PositionMovesUp(ms, es, k, j);
      RunInv(ms, es, j);
      assert root in ms[j].queue.order;
    }
    PositionMovesUp(ms, es, k, i);
    RunInv(ms, es, i);
    assert Goes(ms, es, i);
    HandedOver(ms[i], es[i].t);
  }

  lemma {:induction false} HandoversMonotone(ms: seq<Mutex>, es: seq<Event>, j: nat, i: nat)
    requires j <= i <= |es| <= |ms|
    ensures Handovers(ms, es, j) <= Handovers(ms, es, i)
    decreases i
  {
    if j >= i {
    } else {
      HandoversMonotone(ms, es, j, i - 1);
    }
  }

  // ------------------------------------------------------------- the object

  /** The queue of roots and the blocked map are kept as one value. */
  class CoMutex {
    var root: Option<nat>
    var rep: nat
    var queue: Groups
    ghost var hist: History

    ghost function State(): Mutex
      reads this
    {
      Mutex(root, rep, queue, hist)
    }

    constructor ()
      ensures State() == UNLOCKED
    {
      root, rep, queue, hist := None, 0, NO_GROUPS, NO_HISTORY;
    }

    method TryLock(task: Task) returns (ok: bool)
      requires Inv(State()) && !IsWaiting(queue, task)
      modifies this
      ensures State() == TryLocked(old(State()), task) && Inv(State())
      ensures ok <==> FreeFor(old(State()), task)
      ensures ok ==> hist.holders == old(hist.holders) + multiset{task} && root == Some(task.root)
      ensures !ok ==> State() == old(State())
    {
      hide Inv, IsWaiting, Locked, Asked, Granted, FreeFor, Legal;
      assert Legal(State(), Event.TryLock(task)) by { AskingIsLegal(State(), task); }
      GrantsIff(State(), Event.TryLock(task));
      FreeForIs(State(), task);
      LockedInv(State(), task);
      ok := root.None? || root == Some(task.root);
      if ok {
        root := Some(task.root);
        rep := rep + 1;
        hist := Granted(Asked(hist, task), [task]);
      }
    }

    /** Returns whether the caller must park until it is signalled. */
    method Lock(task: Task) returns (blocked: bool)
      requires Inv(State()) && !IsWaiting(queue, task)
      modifies this
      ensures State() == Locked(old(State()), task) && Inv(State())
      ensures blocked <==> IsWaiting(queue, task)
    {
      hide Inv, TryLocked, Asked, Granted;
      LockedInv(State(), task);
      hist := Asked(hist, task);
      if rep == 0 || root == Some(task.root) {
        root := Some(task.root);
        rep := rep + 1;
        hist := Granted(hist, [task]);
        blocked := false;
      } else {
        blocked := true;
        var order, blockedMap := queue.order, queue.waiting;
        if task.root !in blockedMap {
          blockedMap := blockedMap[task.root := []];
          order := order + [task.root];
        }
        blockedMap := blockedMap[task.root := blockedMap[task.root] + [task]];
        EnqueuedBySteps(queue, task);
        queue := Groups(order, blockedMap);
      }
    }

    /** Releases once; returns the tasks signalled to resume, in order. */
    method Unlock(ghost task: Task) returns (signalled: seq<Task>)
      requires Inv(State()) && task in hist.holders
      modifies this
      ensures State() == Unlocked(old(State()), task) && Inv(State())
      ensures signalled == if HandsOver(old(State())) then Group(old(queue), old(queue.order[0])) else []
    {
      hide Inv, Released, Granted;
      UnlockedInv(State(), task);
      HolderCount(State(), task);
      signalled := [];
      rep := rep - 1;
      hist := Released(hist, task);
      if rep == 0 {
        root := None;
        if queue.waiting != map[] {
          var next := queue.order[0];
          root := Some(next);
          var blocked := Group(queue, next);
          for i := 0 to |blocked|
            invariant signalled == blocked[..i] && rep == i
            invariant root == Some(next) && queue == old(queue)
            invariant hist == Released(old(hist), task)
          {
            signalled := signalled + [blocked[i]];
            rep := rep + 1;
          }
          assert blocked[..|blocked|] == blocked;
          hist := Granted(hist, blocked);
          queue := Popped(queue);
        }
      }
    }
  }
}
