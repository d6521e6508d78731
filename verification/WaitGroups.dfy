/** Waiters of a coroutine lock, grouped by the root of their task tree; the
    groups are served in the order in which their first member arrived. */
module WaitGroups {
  import opened Common

  /** A task and the identity of its root. Roots are never null. */
  datatype Task = Task(id: nat, root: nat)

  datatype Groups = Groups(order: seq<nat>, waiting: map<nat, seq<Task>>)

  const NO_GROUPS: Groups := Groups([], map[])

  /** What a lock has done so far: who holds it (once per acquisition), and every
      acquisition ever asked for and ever granted. */
  datatype History = History(holders: multiset<Task>, asked: multiset<Task>, granted: multiset<Task>)

  const NO_HISTORY: History := History(multiset{}, multiset{}, multiset{})

  function Asked(h: History, t: Task): History { h.(asked := h.asked + multiset{t}) }

  function Granted(h: History, ts: seq<Task>): History {
    h.(holders := h.holders + multiset(ts), granted := h.granted + multiset(ts))
  }

  function Released(h: History, t: Task): History { h.(holders := h.holders - multiset{t}) }

  predicate IsWaiting(g: Groups, t: Task) { t.root in g.waiting && t in g.waiting[t.root] }

  /** The queue of roots has no duplicates and lists exactly the groups; every
      group is non-empty, of one root, and nobody waits twice. */
  ghost predicate GroupsOk(g: Groups) {
    && (forall i, j :: 0 <= i < j < |g.order| ==> g.order[i] != g.order[j])
    && (forall r :: r in g.order <==> r in g.waiting)
    && (forall r :: r in g.waiting ==> GroupOk(r, g.waiting[r]))
  }

  ghost predicate GroupOk(root: nat, ts: seq<Task>) {
    && ts != []
    && (forall i :: 0 <= i < |ts| ==> ts[i].root == root)
    && (forall i, j :: 0 <= i < j < |ts| ==> ts[i] != ts[j])
  }

  /** The waiters of a root; asking for a missing group makes an empty one. */
  function Group(g: Groups, root: nat): seq<Task> { if root in g.waiting then g.waiting[root] else [] }

  function Enqueued(g: Groups, t: Task): Groups {
    if t.root in g.waiting then g.(waiting := g.waiting[t.root := g.waiting[t.root] + [t]])
    else Groups(g.order + [t.root], g.waiting[t.root := [t]])
  }

  /** Making an empty group first and then adding to it comes to the same. */
  lemma {:induction false} EnqueuedBySteps(g: Groups, t: Task)
    ensures t.root !in g.waiting ==>
              Enqueued(g, t) == Groups(g.order + [t.root], g.waiting[t.root := []][t.root := [] + [t]])
  {
    assert [] + [t] == [t];
    assert g.waiting[t.root := []][t.root := [t]] == g.waiting[t.root := [t]];
  }

  function Popped(g: Groups): Groups
    requires g.order != []
  {
    Groups(g.order[1..], g.waiting - {g.order[0]})
  }

  lemma {:induction false} EnqueuedOk(g: Groups, t: Task)
    requires GroupsOk(g) && !IsWaiting(g, t)
    ensures GroupsOk(Enqueued(g, t))
    ensures forall u :: IsWaiting(Enqueued(g, t), u) <==> IsWaiting(g, u) || u == t
    ensures g.order <= Enqueued(g, t).order
  {
    var e := Enqueued(g, t);
    if t.root in g.waiting {
      assert GroupOk(t.root, g.waiting[t.root]);
      assert GroupOk(t.root, e.waiting[t.root]);
    } else {
      assert GroupOk(t.root, [t]);
      forall r ensures r in e.order <==> r in e.waiting {
        assert r in e.order <==> r in g.order || r == t.root;
      }
    }
  }

  lemma {:induction false} PoppedOk(g: Groups)
    requires GroupsOk(g) && g.order != []
    ensures g.order[0] in g.waiting && GroupOk(g.order[0], g.waiting[g.order[0]])
    ensures GroupsOk(Popped(g))
    ensures forall u :: IsWaiting(Popped(g), u) <==> IsWaiting(g, u) && u.root != g.order[0]
    ensures forall u :: u in g.waiting[g.order[0]] <==> IsWaiting(g, u) && u.root == g.order[0]
  {
    var p := Popped(g);
    assert g.order[0] in g.order;
    forall r ensures r in p.order <==> r in p.waiting {
      if r in p.waiting { assert r in g.order; }
    }
  }

  lemma {:induction false} NoneLeft(g: Groups)
    requires GroupsOk(g)
    ensures g.order == [] <==> g.waiting == map[]
  {
    if g.order == [] {
      forall r ensures r !in g.waiting { assert r !in g.order; }
    } else {
      assert g.order[0] in g.waiting;
    }
  }

  // ----------------------------------------------------------- arrival order

  /** Everybody in a group came after those before them, where `at` says when. */
  ghost predicate Sorted(ts: seq<Task>, at: Task -> int) {
    forall i, j :: 0 <= i < j < |ts| ==> at(ts[i]) < at(ts[j])
  }

  /** Each group is in order of arrival, and the groups are in the order in which
      their first members arrived. */
  ghost predicate InOrder(g: Groups, at: Task -> int)
    requires GroupsOk(g)
  {
    && (forall r :: r in g.waiting ==> Sorted(g.waiting[r], at))
    && (forall i, j :: 0 <= i < j < |g.order| ==> First(g, i, at) < First(g, j, at))
  }

  ghost function First(g: Groups, i: nat, at: Task -> int): int
    requires GroupsOk(g) && i < |g.order|
  {
    assert g.order[i] in g.waiting && GroupOk(g.order[i], g.waiting[g.order[i]]);
    at(g.waiting[g.order[i]][0])
  }

  lemma {:induction false} NoneInOrder(at: Task -> int)
    ensures GroupsOk(NO_GROUPS) && InOrder(NO_GROUPS, at)
  {}

  lemma {:induction false} WaitsInGroup(g: Groups, r: nat, i: nat)
    requires GroupsOk(g) && r in g.waiting && i < |g.waiting[r]|
    ensures IsWaiting(g, g.waiting[r][i])
  {
    assert GroupOk(r, g.waiting[r]);
  }

  lemma {:induction false} StaysInOrder(g: Groups, at: Task -> int, at1: Task -> int)
    requires GroupsOk(g) && InOrder(g, at) && forall u :: IsWaiting(g, u) ==> at1(u) == at(u)
    ensures InOrder(g, at1)
  {
    forall r | r in g.waiting ensures Sorted(g.waiting[r], at1) {
      assert Sorted(g.waiting[r], at);
      forall i | 0 <= i < |g.waiting[r]| ensures at1(g.waiting[r][i]) == at(g.waiting[r][i]) { WaitsInGroup(g, r, i); }
    }
    forall i | 0 <= i < |g.order| ensures First(g, i, at1) == First(g, i, at) {
      assert g.order[i] in g.waiting && GroupOk(g.order[i], g.waiting[g.order[i]]);
      WaitsInGroup(g, g.order[i], 0);
    }
  }

  lemma {:induction false} EnqueuedInOrder(g: Groups, t: Task, at: Task -> int)
    requires GroupsOk(g) && InOrder(g, at) && !IsWaiting(g, t) && forall u :: IsWaiting(g, u) ==> at(u) < at(t)
    ensures GroupsOk(Enqueued(g, t)) && InOrder(Enqueued(g, t), at)
  {
    EnqueuedOk(g, t);
    var e := Enqueued(g, t);
    forall r | r in e.waiting ensures Sorted(e.waiting[r], at) { EnqueuedSorted(g, t, at, r); }
    forall i | 0 <= i < |g.order| ensures First(e, i, at) == First(g, i, at) < at(t) { FirstStays(g, t, at, i); }
    assert |e.order| > |g.order| ==> First(e, |g.order|, at) == at(t);
    hide GroupsOk, Sorted, First, IsWaiting;
  }

  lemma {:induction false} EnqueuedSorted(g: Groups, t: Task, at: Task -> int, r: nat)
    requires GroupsOk(g) && InOrder(g, at) && forall u :: IsWaiting(g, u) ==> at(u) < at(t)
    requires r in Enqueued(g, t).waiting
    ensures Sorted(Enqueued(g, t).waiting[r], at)
  {
    if r in g.waiting {
      assert Sorted(g.waiting[r], at);
      forall i | 0 <= i < |g.waiting[r]| ensures at(g.waiting[r][i]) < at(t) { WaitsInGroup(g, r, i); }
    }
  }

  lemma {:induction false} FirstStays(g: Groups, t: Task, at: Task -> int, i: nat)
    requires GroupsOk(g) && GroupsOk(Enqueued(g, t)) && forall u :: IsWaiting(g, u) ==> at(u) < at(t)
    requires i < |g.order| <= |Enqueued(g, t).order|
    ensures First(Enqueued(g, t), i, at) == First(g, i, at) < at(t)
  {
    assert g.order[i] in g.order && g.order[i] in g.waiting && GroupOk(g.order[i], g.waiting[g.order[i]]);
    assert Enqueued(g, t).order[i] == g.order[i];
    WaitsInGroup(g, g.order[i], 0);
  }

  lemma {:induction false} PoppedInOrder(g: Groups, at: Task -> int)
    requires GroupsOk(g) && InOrder(g, at) && g.order != []
    ensures GroupsOk(Popped(g)) && InOrder(Popped(g), at)
  {
    PoppedOk(g);
    var p := Popped(g);
    forall r | r in p.waiting ensures Sorted(p.waiting[r], at) { assert Sorted(g.waiting[r], at); }
    forall i | 0 <= i < |p.order| ensures First(p, i, at) == First(g, i + 1, at) {
      assert p.order[i] == g.order[i + 1] && p.order[i] in p.order && p.order[i] in p.waiting;
    }
  }

  lemma {:induction false} DistinctMultiset(ts: seq<Task>, t: Task)
    requires forall i, j :: 0 <= i < j < |ts| ==> ts[i] != ts[j]
    ensures multiset(ts)[t] == if t in ts then 1 else 0
  {
    if ts == [] {
    } else {
      assert ts == [ts[0]] + ts[1..];
      DistinctMultiset(ts[1..], t);
    }
  }
}
