/** What every step of the remote task protocol keeps. */
module RemoteRuns {
  import opened Common
  import opened RemoteQueues

  // ------------------------------------------------------------- conservation

  ghost function Here(reps: seq<Replica>, p: Place, r: nat): nat {
    if r < |reps| && IsQueue(p) && reps[r].place == p then 1 else 0
  }

  /** Every queue holds exactly the replicas whose place it is, once each. */
  ghost predicate Lists(s: Net) {
    forall p, r: nat :: multiset(List(s, p))[r] == Here(s.reps, p, r)
  }

  /** The same, but for replica x, which is in no queue. */
  ghost predicate Loose(s: Net, x: nat) {
    forall p, r: nat :: multiset(List(s, p))[r] == if r == x then 0 else Here(s.reps, p, r)
  }

  lemma {:induction false} LooseTake(s: Net, p: Place)
    requires Lists(s) && List(s, p) != []
    ensures List(s, p)[0] < |s.reps| && s.reps[List(s, p)[0]].place == p && IsQueue(p)
    ensures Loose(Take(s, p), List(s, p)[0])
  {
    var x := List(s, p)[0];
    assert List(s, p) == [x] + List(s, p)[1..];
    assert multiset(List(s, p))[x] == Here(s.reps, p, x);
    forall q, r: nat
      ensures multiset(List(Take(s, p), q))[r] == if r == x then 0 else Here(s.reps, q, r)
    {
      assert multiset(List(s, q))[r] == Here(s.reps, q, r);
    }
  }

  lemma {:induction false} LooseIdle(s: Net, x: nat)
    requires Lists(s) && x < |s.reps| && !IsQueue(s.reps[x].place)
    ensures Loose(s, x)
  {}

  /** Only the place of the other replicas matters. */
  lemma {:induction false} LooseSame(s: Net, t: Net, x: nat)
    requires Loose(s, x) && t.lists == s.lists && |t.reps| == |s.reps|
    requires forall r :: 0 <= r < |s.reps| && r != x ==> t.reps[r].place == s.reps[r].place
    ensures Loose(t, x)
  {
    forall p, r: nat ensures multiset(List(t, p))[r] == if r == x then 0 else Here(t.reps, p, r) {
      assert multiset(List(s, p))[r] == if r == x then 0 else Here(s.reps, p, r);
    }
  }

  lemma {:induction false} ListsPut(s: Net, x: nat, q: Place)
    requires Loose(s, x) && x < |s.reps|
    ensures Lists(Put(s, x, q))
  {
    var t := Put(s, x, q);
    forall p, r: nat ensures multiset(List(t, p))[r] == Here(t.reps, p, r) {
      assert multiset(List(s, p))[r] == if r == x then 0 else Here(s.reps, p, r);
    }
  }

  lemma {:induction false} ListsMove(s: Net, p: Place, q: Place)
    requires Lists(s) && HasHead(s, p)
    ensures Lists(Move(s, p, q))
  {
    LooseTake(s, p);
    ListsPut(Take(s, p), List(s, p)[0], q);
  }

  lemma {:induction false} ListsHandled(s: Net, x: nat, v: nat, q: Place)
    requires Lists(s) && x < |s.reps| && !IsQueue(s.reps[x].place)
    ensures Lists(Handled(s, x, v, q))
  {
    LooseIdle(s, x);
    var t := s.(reps := s.reps[x := s.reps[x].(handled := s.reps[x].handled + [v])]);
    LooseSame(s, t, x);
    ListsPut(t, x, q);
  }

  lemma {:induction false} ListsSent(s: Net, p: Place, q: Place, m: Message)
    requires Lists(s) && IsQueue(p) && IsQueue(q) && p != q && forall r :: 0 <= r < |s.reps| ==> s.reps[r].place != q
    ensures Lists(Sent(s, p, q, m))
  {
    var t := Sent(s, p, q, m);
    forall o, r: nat ensures multiset(List(t, o))[r] == Here(t.reps, o, r) {
      assert multiset(List(s, o))[r] == Here(s.reps, o, r);
      assert multiset(List(s, p))[r] == Here(s.reps, p, r);
    }
  }

  lemma {:induction false} ListsEmplaced(s: Net, i: nat)
    requires Lists(s) && i < |s.submits| && s.submits[i].todo != []
    ensures Lists(Emplaced(s, i))
  {
    var t := Emplaced(s, i);
    forall p, r: nat ensures multiset(List(t, p))[r] == Here(t.reps, p, r) {
      assert multiset(List(s, p))[r] == Here(s.reps, p, r);
    }
  }

  // ------------------------------------------------------------------ routes

  /** A replica is where its journey from home to its node and back takes it, and its
      node has handled it exactly if it is past that point. */
  ghost predicate OnRoute(x: Replica, msgs: seq<Message>) {
    match x.place
    case SubmitQ(v) => v == x.home && x.handled == []
    case OutS(v, u) => v == x.home && u == x.dest && x.handled == []
    case WireS(k) => k < |msgs| && msgs[k] == Message(x.home, x.dest) && x.handled == []
    case At(v) => v == x.dest && x.ret == x.home && x.handled == []
    case Delegated(v, i) => v == x.dest && x.ret == x.home && x.handled == [x.dest]
    case CompleteQ(v) => v == x.dest && x.ret == x.home && x.handled == [x.dest]
    case OutC(v, u) => v == x.dest && u == x.home && x.handled == [x.dest]
    case WireC(k) => k < |msgs| && msgs[k] == Message(x.dest, x.home) && x.handled == [x.dest]
    case Gone => x.handled == [x.dest]
  }

  ghost predicate RepOk(s: Net, r: nat)
    requires r < |s.reps|
  {
    var x := s.reps[r];
    && OnRoute(x, s.msgs) && x.home < |s.pending| && x.dest < |s.pending|
    && x.submit < |s.submits| && s.submits[x.submit].node == x.home && s.submits[x.submit].flush == x.flush
  }

  /** A submit task that a copy delegated to waits on that copy's node, and until it
      is closed the copy waits for it. */
  ghost predicate ParentOk(s: Net, i: nat)
    requires i < |s.submits|
  {
    var t := s.submits[i];
    t.parent.Some? ==>
      && t.parent.value < |s.reps| && s.reps[t.parent.value].handled != [] && s.reps[t.parent.value].dest == t.node
      && s.reps[t.parent.value].submit < i
      && (!t.closed ==> s.reps[t.parent.value].place == Delegated(t.node, i))
  }

  /** No copy delegates twice. */
  ghost predicate Distinct(submits: seq<Submit>) {
    forall i, j :: 0 <= i < j < |submits| && submits[i].parent.Some? ==> submits[i].parent != submits[j].parent
  }

  /** A copy that waits for a submit task is its delegator, and older. */
  ghost predicate WaitOk(s: Net, r: nat)
    requires r < |s.reps|
  {
    var x := s.reps[r];
    x.place.Delegated? ==>
      && x.submit < x.place.i < |s.submits|
      && s.submits[x.place.i].parent == Some(r) && !s.submits[x.place.i].closed
  }

  // ------------------------------------------------------------------ counts

  /** The replicas of submit task i that have not completed. */
  ghost function Open(reps: seq<Replica>, i: nat): set<nat> {
    set r | 0 <= r < |reps| && reps[r].submit == i && !reps[r].place.Gone?
  }

  /** The non-flush replicas of node v that were serialised and have not completed. */
  ghost function Outstanding(reps: seq<Replica>, v: nat): set<nat> {
    set r | 0 <= r < |reps| && reps[r].home == v && !reps[r].flush && !reps[r].place.SubmitQ? && !reps[r].place.Gone?
  }

  ghost predicate SubmitOk(s: Net, i: nat)
    requires i < |s.submits|
  {
    var t := s.submits[i];
    && t.node < |s.pending| && (forall j :: 0 <= j < |t.todo| ==> t.todo[j] < |s.pending|)
    && t.count == |t.todo| + |Open(s.reps, i)|
    && t.resumed == (if t.count == 0 then 1 else 0)
    && (t.closed ==> t.resumed == 1)
  }

  /** The nodes that the replicas of submit task i are for, in the order of their making. */
  ghost function DestsOf(reps: seq<Replica>, i: nat): seq<nat> {
    if reps == [] then []
    else
      var x := reps[|reps| - 1];
      DestsOf(reps[..|reps| - 1], i) + if x.submit == i then [x.dest] else []
  }

  ghost predicate DestsOk(s: Net, i: nat)
    requires i < |s.submits|
  {
    s.submits[i].targets == DestsOf(s.reps, i) + s.submits[i].todo
  }

  ghost predicate PendingOk(s: Net, v: nat)
    requires v < |s.pending|
  {
    s.pending[v] == |Outstanding(s.reps, v)|
  }

  ghost predicate Reps(s: Net) { forall r :: 0 <= r < |s.reps| ==> RepOk(s, r) }
  ghost predicate Parents(s: Net) {
    Distinct(s.submits) && forall i :: 0 <= i < |s.submits| ==> ParentOk(s, i)
  }
  ghost predicate Submits(s: Net) { forall i :: 0 <= i < |s.submits| ==> SubmitOk(s, i) }
  ghost predicate Pendings(s: Net) { forall v :: 0 <= v < |s.pending| ==> PendingOk(s, v) }

  ghost predicate Waits(s: Net) { forall r :: 0 <= r < |s.reps| ==> WaitOk(s, r) }
  ghost predicate Dests(s: Net) { forall i :: 0 <= i < |s.submits| ==> DestsOk(s, i) }

  ghost predicate Inv(s: Net) {
    Lists(s) && Reps(s) && Parents(s) && Waits(s) && Submits(s) && Dests(s) && Pendings(s)
  }

  // ---------------------------------------------- what each step does to each

  /** A queue that will carry the next message is nobody's place. */
  lemma {:induction false} NextWireFree(s: Net, r: nat)
    requires Reps(s) && r < |s.reps|
    ensures s.reps[r].place != WireS(|s.msgs|) && s.reps[r].place != WireC(|s.msgs|)
  {
    assert RepOk(s, r);
  }

  lemma {:induction false} StepLists(s: Net, e: Event)
    requires Lists(s) && Reps(s) && Parents(s) && Enabled(s, e)
    ensures Lists(Next(s, e))
  {
    hide Lists, Move, Put, Take, Sent;
    match e
    case Start(v, targets, flush, parent) =>
      var s1 := s.(submits := s.submits + [Submit(v, flush, targets, targets, |targets|, 0, parent, false)]);
      ListsFrame(s, s1);
      if parent.Some? { ListsHandled(s1, parent.value, v, Delegated(v, |s.submits|)); }
    case Emplace(i) => ListsEmplaced(s, i);
    case Pop(v) =>
      ListsMove(s, SubmitQ(v), OutS(v, s.reps[List(s, SubmitQ(v))[0]].dest));
      ListsFrame(Move(s, SubmitQ(v), OutS(v, s.reps[List(s, SubmitQ(v))[0]].dest)), Next(s, e));
    case Send(v, u) =>
      forall r | 0 <= r < |s.reps| ensures s.reps[r].place != WireS(|s.msgs|) { NextWireFree(s, r); }
      ListsSent(s, OutS(v, u), WireS(|s.msgs|), Message(v, u));
    case Receive(k) =>
      var r := List(s, WireS(k))[0];
      var s1 := s.(reps := s.reps[r := s.reps[r].(ret := s.msgs[k].from)]);
      ListsFrame(s, s1);
      ListsMove(s1, WireS(k), At(s.msgs[k].to));
    case Execute(r) => ListsHandled(s, r, s.reps[r].place.v, CompleteQ(s.reps[r].place.v));
    case PopDone(v) => ListsMove(s, CompleteQ(v), OutC(v, s.reps[List(s, CompleteQ(v))[0]].ret));
    case SendDone(v, u) =>
      forall r | 0 <= r < |s.reps| ensures s.reps[r].place != WireC(|s.msgs|) { NextWireFree(s, r); }
      ListsSent(s, OutC(v, u), WireC(|s.msgs|), Message(v, u));
    case Complete(k) =>
      ListsMove(s, WireC(k), Gone);
      ListsFrame(Move(s, WireC(k), Gone), Next(s, e));
    case Close(i) =>
      assert ParentOk(s, i);
      var s1 := s.(submits := s.submits[i := s.submits[i].(closed := true)]);
      ListsFrame(s, s1);
      if s.submits[i].parent.Some? {
        LooseIdle(s1, s.submits[i].parent.value);
        ListsPut(s1, s.submits[i].parent.value, CompleteQ(s.submits[i].node));
      }
  }

  lemma {:induction false} ListsFrame(s: Net, t: Net)
    requires Lists(s) && t.lists == s.lists && |t.reps| == |s.reps|
    requires forall r :: 0 <= r < |s.reps| ==> t.reps[r].place == s.reps[r].place
    ensures Lists(t)
  {
    forall p, r: nat ensures multiset(List(t, p))[r] == Here(t.reps, p, r) {
      assert multiset(List(s, p))[r] == Here(s.reps, p, r);
    }
  }

  /** What a submit task was started for does not change. */
  ghost predicate SameTask(a: Submit, b: Submit) {
    a.node == b.node && a.flush == b.flush && a.targets == b.targets && a.parent == b.parent
  }

  /** Replicas that a step leaves alone stay on their routes. */
  lemma {:induction false} RepsKeep(s: Net, t: Net, x: nat)
    requires Reps(s) && |s.reps| <= |t.reps| && |t.pending| == |s.pending| && |s.submits| <= |t.submits|
    requires s.msgs <= t.msgs
    requires forall r :: 0 <= r < |s.reps| && r != x ==> t.reps[r] == s.reps[r]
    requires forall i :: 0 <= i < |s.submits| ==> SameTask(s.submits[i], t.submits[i])
    ensures forall r :: 0 <= r < |s.reps| && r != x ==> RepOk(t, r)
  {
    forall r | 0 <= r < |s.reps| && r != x ensures RepOk(t, r) { assert RepOk(s, r); }
  }

  lemma {:induction false} RepsSent(s: Net, p: Place, q: Place, m: Message)
    requires Reps(s) && IsQueue(p) && IsQueue(q)
    requires (p == OutS(m.from, m.to) && q == WireS(|s.msgs|)) || (p == OutC(m.from, m.to) && q == WireC(|s.msgs|))
    ensures Reps(Sent(s, p, q, m))
  {
    var t := Sent(s, p, q, m);
    forall r | 0 <= r < |t.reps| ensures RepOk(t, r) { assert RepOk(s, r); }
  }

  /** The replica that a step moves; the step also appends replica |s.reps| if it emplaces. */
  ghost function Moving(s: Net, e: Event): nat
    requires Enabled(s, e)
  {
    match e
    case Start(v, targets, flush, parent) => if parent.Some? then parent.value else |s.reps|
    case Pop(v) => List(s, SubmitQ(v))[0]
    case Receive(k) => List(s, WireS(k))[0]
    case Execute(r) => r
    case PopDone(v) => List(s, CompleteQ(v))[0]
    case Complete(k) => List(s, WireC(k))[0]
    case Close(i) => if s.submits[i].parent.Some? then s.submits[i].parent.value else |s.reps|
    case _ => |s.reps|
  }

  /** What a step that sends nothing leaves alone. */
  lemma {:induction false} NextFrame(s: Net, e: Event)
    requires Enabled(s, e) && !e.Send? && !e.SendDone?
    ensures var t := Next(s, e);
            && |s.reps| <= |t.reps| && |t.pending| == |s.pending| && |s.submits| <= |t.submits| && t.msgs == s.msgs
            && (forall r :: 0 <= r < |s.reps| && r != Moving(s, e) ==> t.reps[r] == s.reps[r])
            && (forall i :: 0 <= i < |s.submits| ==> SameTask(s.submits[i], t.submits[i]))
            && (|t.reps| > |s.reps| ==> e.Emplace? && |t.reps| == |s.reps| + 1)
  {}

  lemma {:induction false} MovingFrom(s: Net, e: Event)
    requires Lists(s) && Parents(s) && Enabled(s, e) && Moving(s, e) < |s.reps|
    ensures var p := s.reps[Moving(s, e)].place;
            match e {
              case Start(v, targets, flush, parent) => p == At(v)
              case Pop(v) => p == SubmitQ(v)
              case Receive(k) => p == WireS(k)
              case Execute(r) => p.At?
              case PopDone(v) => p == CompleteQ(v)
              case Complete(k) => p == WireC(k)
              case Close(i) => p == Delegated(s.submits[i].node, i)
              case _ => false
            }
  {
    hide Loose;
    match e
    case Pop(v) => LooseTake(s, SubmitQ(v));
    case Receive(k) => LooseTake(s, WireS(k));
    case PopDone(v) => LooseTake(s, CompleteQ(v));
    case Complete(k) => LooseTake(s, WireC(k));
    case Close(i) => assert ParentOk(s, i);
    case _ =>
  }

  lemma {:induction false} StepReps(s: Net, e: Event)
    requires Inv(s) && Enabled(s, e)
    ensures Reps(Next(s, e))
  {
    if e.Send? {
      RepsSent(s, OutS(e.v, e.u), WireS(|s.msgs|), Message(e.v, e.u));
    } else if e.SendDone? {
      RepsSent(s, OutC(e.v, e.u), WireC(|s.msgs|), Message(e.v, e.u));
    } else {
      var t, x := Next(s, e), Moving(s, e);
      NextFrame(s, e);
      RepsKeep(s, t, x);
      if x < |s.reps| { MovingStays(s, e); }
      if e.Emplace? { NewOnRoute(s, e); }
    }
  }

  lemma {:induction false} MovingStays(s: Net, e: Event)
    requires Lists(s) && Reps(s) && Parents(s) && Enabled(s, e) && Moving(s, e) < |s.reps|
    ensures |s.reps| <= |Next(s, e).reps| && RepOk(Next(s, e), Moving(s, e))
  {
    MovingFrom(s, e);
    assert RepOk(s, Moving(s, e));
    hide Lists, Reps, Parents;
  }

  lemma {:induction false} NewOnRoute(s: Net, e: Event)
    requires Submits(s) && Enabled(s, e) && e.Emplace?
    ensures |Next(s, e).reps| > |s.reps| && RepOk(Next(s, e), |s.reps|)
  {
    assert SubmitOk(s, e.i);
  }

  lemma {:induction false} StepDistinct(s: Net, e: Event)
    requires Inv(s) && Enabled(s, e)
    ensures Distinct(Next(s, e).submits)
  {
    if e.Start? && e.parent.Some? {
      assert RepOk(s, e.parent.value);
      forall j | 0 <= j < |s.submits| ensures s.submits[j].parent != e.parent { assert ParentOk(s, j); }
    }
    hide Lists, Reps, Waits, Submits, Dests, Pendings;
  }

  lemma {:induction false} StepParent(s: Net, e: Event, i: nat)
    requires Inv(s) && Enabled(s, e) && i < |s.submits|
    ensures i < |Next(s, e).submits| && ParentOk(Next(s, e), i)
  {
    assert ParentOk(s, i);
    if Moving(s, e) < |s.reps| { MovingFrom(s, e); }
    hide Lists, Reps, Waits, Submits, Dests, Pendings;
    if e.Close? && e.i != i { assert s.submits[i].parent.Some? ==> s.submits[i].parent != s.submits[e.i].parent; }
  }

  lemma {:induction false} StepParents(s: Net, e: Event)
    requires Inv(s) && Enabled(s, e)
    ensures Parents(Next(s, e))
  {
    var t := Next(s, e);
    StepDistinct(s, e);
    if e.Start? && e.parent.Some? { assert RepOk(s, e.parent.value); }
    hide Lists, Reps, Parents, Waits, Submits, Dests, Pendings, Distinct;
    forall i | 0 <= i < |t.submits| ensures ParentOk(t, i) {
      if i < |s.submits| { StepParent(s, e, i); }
    }
  }

  /** The sets only depend on a few fields of each replica. */
  ghost predicate SameCounts(a: Replica, b: Replica) {
    && a.submit == b.submit && a.home == b.home && a.flush == b.flush
    && (a.place.Gone? <==> b.place.Gone?) && (a.place.SubmitQ? <==> b.place.SubmitQ?)
  }

  /** Emplace, Pop and Complete are the steps that count. */
  lemma {:induction false} OthersDoNotCount(s: Net, e: Event)
    requires Inv(s) && Enabled(s, e) && !e.Emplace? && !e.Pop? && !e.Complete?
    ensures var t := Next(s, e);
            |t.reps| == |s.reps| && forall r :: 0 <= r < |s.reps| ==> SameCounts(s.reps[r], t.reps[r])
  {
    if Moving(s, e) < |s.reps| { MovingFrom(s, e); }
    hide Lists, Reps, Parents, Submits, Pendings;
    if !e.Send? && !e.SendDone? { NextFrame(s, e); }
  }

  lemma {:induction false} SameSets(a: seq<Replica>, b: seq<Replica>, i: nat)
    requires |a| == |b| && forall r :: 0 <= r < |a| ==> SameCounts(a[r], b[r])
    ensures Open(a, i) == Open(b, i) && Outstanding(a, i) == Outstanding(b, i)
  {}

  lemma {:induction false} OpenStep(s: Net, e: Event, i: nat)
    requires Inv(s) && Enabled(s, e)
    ensures Open(Next(s, e).reps, i) ==
            if e.Emplace? && e.i == i then Open(s.reps, i) + {|s.reps|}
            else if e.Complete? && s.reps[Moving(s, e)].submit == i then Open(s.reps, i) - {Moving(s, e)}
            else Open(s.reps, i)
    ensures e.Complete? ==> Moving(s, e) in Open(s.reps, s.reps[Moving(s, e)].submit)
  {
    if e.Pop? || e.Complete? {
      MovingFrom(s, e);
    } else if !e.Emplace? {
      OthersDoNotCount(s, e);
      SameSets(s.reps, Next(s, e).reps, i);
    }
  }

  lemma {:induction false} OutstandingStep(s: Net, e: Event, v: nat)
    requires Inv(s) && Enabled(s, e)
    ensures Outstanding(Next(s, e).reps, v) ==
            if e.Pop? && e.v == v && !s.reps[Moving(s, e)].flush then Outstanding(s.reps, v) + {Moving(s, e)}
            else if e.Complete? && s.msgs[e.k].to == v then Outstanding(s.reps, v) - {Moving(s, e)}
            else Outstanding(s.reps, v)
    ensures e.Pop? ==> Moving(s, e) !in Outstanding(s.reps, v)
    ensures e.Complete? && s.msgs[e.k].to == v ==>
              (Moving(s, e) in Outstanding(s.reps, v) <==> !s.reps[Moving(s, e)].flush)
  {
    if e.Pop? || e.Complete? {
      MovingFrom(s, e);
      assert RepOk(s, Moving(s, e));
    } else if !e.Emplace? {
      OthersDoNotCount(s, e);
      SameSets(s.reps, Next(s, e).reps, v);
    }
  }

  lemma {:induction false} StepPendings(s: Net, e: Event)
    requires Inv(s) && Enabled(s, e)
    ensures Pendings(Next(s, e))
  {
    var t := Next(s, e);
    forall v | 0 <= v < |t.pending| ensures PendingOk(t, v) {
      OutstandingStep(s, e, v);
      assert PendingOk(s, v);
    }
  }

  /** No replica belongs to a submit task that does not exist yet. */
  lemma {:induction false} NoneOpen(s: Net)
    requires Reps(s)
    ensures Open(s.reps, |s.submits|) == {}
  {
    forall r | 0 <= r < |s.reps| ensures s.reps[r].submit < |s.submits| { assert RepOk(s, r); }
  }

  /** What a step does to a submit task that is there. */
  lemma {:induction false} SubmitStep(s: Net, e: Event, i: nat)
    requires Enabled(s, e) && i < |s.submits|
    ensures var t := Next(s, e); var u := s.submits[i];
            && i < |t.submits| && |t.pending| == |s.pending|
            && t.submits[i] ==
                 if e.Emplace? && e.i == i then u.(todo := u.todo[1..])
                 else if e.Complete? && s.reps[Moving(s, e)].submit == i then Signalled(u)
                 else if e.Close? && e.i == i then u.(closed := true)
                 else u
  {}

  lemma {:induction false} StepSubmit(s: Net, e: Event, i: nat)
    requires Inv(s) && Enabled(s, e) && i < |s.submits|
    ensures i < |Next(s, e).submits| && SubmitOk(Next(s, e), i)
  {
    assert SubmitOk(s, i);
    hide Inv, Next, Open;
    SubmitStep(s, e, i);
    OpenStep(s, e, i);
    OpenFinite(s, i);
  }

  lemma {:induction false} OpenFinite(s: Net, i: nat)
    ensures |s.reps| !in Open(s.reps, i)
  {}

  lemma {:induction false} NewSubmit(s: Net, e: Event)
    requires Inv(s) && Enabled(s, e) && |Next(s, e).submits| > |s.submits|
    ensures |Next(s, e).submits| == |s.submits| + 1 && SubmitOk(Next(s, e), |s.submits|)
  {
    OpenStep(s, e, |s.submits|);
    NoneOpen(s);
    hide Inv, Open;
  }

  lemma {:induction false} StepSubmits(s: Net, e: Event)
    requires Inv(s) && Enabled(s, e)
    ensures Submits(Next(s, e))
  {
    hide Inv, Next, Enabled;
    forall i | 0 <= i < |Next(s, e).submits| ensures SubmitOk(Next(s, e), i) {
      if i < |s.submits| { StepSubmit(s, e, i); } else { NewSubmit(s, e); }
    }
  }

  lemma {:induction false} StepWaits(s: Net, e: Event)
    requires Inv(s) && Enabled(s, e)
    ensures Waits(Next(s, e))
  {
    var t := Next(s, e);
    if Moving(s, e) < |s.reps| { assert RepOk(s, Moving(s, e)); }
    if e.Close? { assert ParentOk(s, e.i); }
    hide Lists, Reps, Parents, Submits, Dests, Pendings;
    forall r | 0 <= r < |t.reps| ensures WaitOk(t, r) {
      if r < |s.reps| { assert WaitOk(s, r); }
    }
  }

  lemma {:induction false} SameDests(a: seq<Replica>, b: seq<Replica>, i: nat)
    requires |a| == |b| && forall r :: 0 <= r < |a| ==> a[r].submit == b[r].submit && a[r].dest == b[r].dest
    ensures DestsOf(a, i) == DestsOf(b, i)
  {
    if a == [] {
    } else {
      SameDests(a[..|a| - 1], b[..|b| - 1], i);
    }
  }

  lemma {:induction false} NoDests(reps: seq<Replica>, i: nat)
    requires forall r :: 0 <= r < |reps| ==> reps[r].submit != i
    ensures DestsOf(reps, i) == []
  {
    if reps == [] {
    } else {
      NoDests(reps[..|reps| - 1], i);
    }
  }

  /** No step changes what a replica is for; the new replica is for the next target. */
  lemma {:induction false} RepsStayFor(s: Net, e: Event)
    requires Enabled(s, e)
    ensures var t := Next(s, e);
            && |s.reps| <= |t.reps|
            && (forall r :: 0 <= r < |s.reps| ==>
                  t.reps[r].submit == s.reps[r].submit && t.reps[r].dest == s.reps[r].dest)
            && |t.reps| == (if e.Emplace? then |s.reps| + 1 else |s.reps|)
            && (e.Emplace? ==>
                  t.reps[|s.reps|].submit == e.i && t.reps[|s.reps|].dest == s.submits[e.i].todo[0])
  {}

  lemma {:induction false} DestsStep(s: Net, e: Event, i: nat)
    requires Enabled(s, e)
    ensures DestsOf(Next(s, e).reps, i) ==
            DestsOf(s.reps, i) + if e.Emplace? && e.i == i then [s.submits[i].todo[0]] else []
  {
    hide Next;
    RepsStayFor(s, e);
    var reps := Next(s, e).reps;
    SameDests(s.reps, reps[..|s.reps|], i);
    if !e.Emplace? { assert reps[..|s.reps|] == reps; }
  }

  /** Only Emplace shortens a list of targets. */
  lemma {:induction false} TargetsStep(s: Net, e: Event, i: nat)
    requires Enabled(s, e) && i < |s.submits|
    ensures var t := Next(s, e);
            && i < |t.submits| && t.submits[i].targets == s.submits[i].targets
            && s.submits[i].todo == (if e.Emplace? && e.i == i then [s.submits[i].todo[0]] else []) + t.submits[i].todo
  {}

  lemma {:induction false} NewTargets(s: Net, e: Event)
    requires Enabled(s, e) && |Next(s, e).submits| > |s.submits|
    ensures var t := Next(s, e);
            && e.Start? && |t.submits| == |s.submits| + 1
            && t.submits[|s.submits|].targets == t.submits[|s.submits|].todo
  {}

  lemma {:induction false} StepDests(s: Net, e: Event)
    requires Inv(s) && Enabled(s, e)
    ensures Dests(Next(s, e))
  {
    hide Lists, Parents, Waits, Submits, Pendings, DestsOf, Next, Enabled;
    var t := Next(s, e);
    forall i | 0 <= i < |t.submits| ensures DestsOk(t, i) {
      DestsStep(s, e, i);
      if i < |s.submits| {
        assert DestsOk(s, i);
        TargetsStep(s, e, i);
      } else {
        NewTargets(s, e);
        forall r | 0 <= r < |s.reps| ensures s.reps[r].submit != i { assert RepOk(s, r); }
        NoDests(s.reps, i);
      }
    }
  }

  lemma {:induction false} StepInv(s: Net, e: Event)
    requires Inv(s) && Enabled(s, e)
    ensures Inv(Next(s, e))
  {
    hide Lists, Reps, Parents, Waits, Submits, Dests, Pendings, Next;
    StepLists(s, e);
    StepReps(s, e);
    StepParents(s, e);
    StepWaits(s, e);
    StepDests(s, e);
    StepSubmits(s, e);
    StepPendings(s, e);
  }
}
