/** The coroutine reader-writer lock of src/work_orchestrator/corwlock.cc. Writers are
    re-entrant by task root and queue by root; readers join any running read phase. */
module CoRwLocks {
  import opened Common
  import opened WaitGroups

  /** `reading` and `writing` are not in the program: they record what happened. */
  datatype RwLock = RwLock(root: Option<nat>, rep: nat, isRead: bool, writers: Groups, readers: seq<Task>,
                           reading: History, writing: History)

  const UNLOCKED: RwLock := RwLock(None, 0, false, NO_GROUPS, [], NO_HISTORY, NO_HISTORY)

  /** Fatal: the program reports the call and stops. */
  datatype Outcome = Acquired | Parked | Fatal

  function Dec(rep: nat): nat { if rep == 0 then 0xffff_ffff_ffff_ffff else rep - 1 }

  function ReadOutcome(l: RwLock, t: Task): Outcome {
    if l.rep == 0 || l.isRead then Acquired
    else if l.root == Some(t.root) then Fatal
    else Parked
  }

  function ReadAcquired(l: RwLock, t: Task): RwLock {
    l.(isRead := true, rep := l.rep + 1, reading := Granted(Asked(l.reading, t), [t]))
  }

  function TryReadLocked(l: RwLock, t: Task): RwLock {
    if l.rep == 0 || l.isRead then ReadAcquired(l, t) else l
  }

  function ReadLocked(l: RwLock, t: Task): RwLock {
    match ReadOutcome(l, t)
    case Acquired => ReadAcquired(l, t)
    case Parked => l.(readers := l.readers + [t], reading := Asked(l.reading, t))
    case Fatal => l
  }

  function WriteOutcome(l: RwLock, t: Task): Outcome {
    if !l.isRead && (l.rep == 0 || l.root == Some(t.root)) then Acquired
    else if l.isRead && l.root == Some(t.root) then Fatal
    else Parked
  }

  function WriteLocked(l: RwLock, t: Task): RwLock {
    match WriteOutcome(l, t)
    case Acquired => l.(root := Some(t.root), rep := l.rep + 1, writing := Granted(Asked(l.writing, t), [t]))
    case Parked => l.(writers := Enqueued(l.writers, t), writing := Asked(l.writing, t))
    case Fatal => l
  }

  /** Pass the released lock to the first group of writers. */
  function ToWriters(l: RwLock): RwLock
    requires l.writers.order != []
  {
    var next := l.writers.order[0];
    var group := Group(l.writers, next);
    l.(root := Some(next), rep := |group|, writers := Popped(l.writers), writing := Granted(l.writing, group))
  }

  /** Pass the released lock to all waiting readers. */
  function ToReaders(l: RwLock): RwLock {
    l.(isRead := true, rep := |l.readers|, readers := [], reading := Granted(l.reading, l.readers))
  }

  function ReadUnlocked(l: RwLock, t: Task): RwLock {
    var l1 := l.(rep := Dec(l.rep), reading := Released(l.reading, t));
    if l1.rep > 0 then l1
    else
      var l2 := l1.(isRead := false, root := None);
      if l.writers.order == [] then l2 else ToWriters(l2)
  }

  function WriteUnlocked(l: RwLock, t: Task): RwLock {
    var l1 := l.(rep := Dec(l.rep), writing := Released(l.writing, t));
    if l1.rep > 0 then l1
    else
      var l2 := l1.(root := None);
      if l.writers.order != [] then ToWriters(l2)
      else if l.readers != [] then ToReaders(l2)
      else l2
  }

  /** Who is resumed by releasing: the first group of writers, else (on a write
      release) all readers. */
  function ReadResumes(l: RwLock): seq<Task> {
    if l.rep == 1 && l.writers.order != [] then Group(l.writers, l.writers.order[0]) else []
  }

  function WriteResumes(l: RwLock): seq<Task> {
    if l.rep != 1 then [] else if l.writers.order != [] then Group(l.writers, l.writers.order[0]) else l.readers
  }

  // -------------------------------------------------------------- invariant

  predicate Waiting(l: RwLock, t: Task) { t in l.readers || IsWaiting(l.writers, t) }

  ghost predicate QueuesOk(l: RwLock) {
    && GroupsOk(l.writers)
    && (forall i, j :: 0 <= i < j < |l.readers| ==> l.readers[i] != l.readers[j])
    && (forall t :: l.reading.asked[t] == l.reading.granted[t] + if t in l.readers then 1 else 0)
    && (forall t :: l.writing.asked[t] == l.writing.granted[t] + if IsWaiting(l.writers, t) then 1 else 0)
  }

  ghost predicate HoldersOk(l: RwLock) {
    && l.rep == |l.reading.holders| + |l.writing.holders|
    && (l.isRead ==> l.rep > 0 && l.writing.holders == multiset{} && l.root.None? && l.readers == [])
    && (!l.isRead ==> l.reading.holders == multiset{})
    && (forall t :: t in l.writing.holders ==> l.root == Some(t.root))
    && (l.root.Some? ==> l.rep > 0 && !l.isRead && l.root.value !in l.writers.waiting)
    && (l.rep > 0 && !l.isRead ==> l.root.Some?)
    && (l.rep == 0 ==> l.writers.order == [] && l.readers == [])
  }

  ghost predicate Inv(l: RwLock) { QueuesOk(l) && HoldersOk(l) }

  lemma {:induction false} ReadLockedInv(l: RwLock, t: Task)
    requires Inv(l) && !Waiting(l, t)
    ensures Inv(ReadLocked(l, t)) && Inv(TryReadLocked(l, t))
  {
    if l.rep == 0 || l.isRead {
      ReadAcquiredInv(l, t);
    } else {
      ReadParkedInv(l, t);
    }
  }

  lemma {:induction false} ReadAcquiredInv(l: RwLock, t: Task)
    requires Inv(l) && !Waiting(l, t) && (l.rep == 0 || l.isRead)
    ensures Inv(ReadAcquired(l, t))
  {
    var r := ReadAcquired(l, t);
    assert l.readers == [] && l.root.None? && l.writing.holders == multiset{};
    assert HoldersOk(r);
  }

  lemma {:induction false} ReadParkedInv(l: RwLock, t: Task)
    requires Inv(l) && !Waiting(l, t) && l.rep > 0 && !l.isRead
    ensures Inv(l.(readers := l.readers + [t], reading := Asked(l.reading, t)))
  {
    var r := l.(readers := l.readers + [t], reading := Asked(l.reading, t));
    assert QueuesOk(r);
    assert HoldersOk(r);
  }

  lemma {:induction false} WriteLockedInv(l: RwLock, t: Task)
    requires Inv(l) && !Waiting(l, t)
    ensures Inv(WriteLocked(l, t))
  {
    if WriteOutcome(l, t).Parked? {
      EnqueuedOk(l.writers, t);
    } else {
      NoneLeft(l.writers);
    }
  }

  lemma {:induction false} ToWritersInv(l: RwLock)
    requires QueuesOk(l) && l.writers.order != [] && !l.isRead
    requires l.reading.holders == multiset{} && l.writing.holders == multiset{}
    ensures Inv(ToWriters(l))
  {
    PoppedOk(l.writers);
    var next := l.writers.order[0];
    var group := Group(l.writers, next);
    var l1 := ToWriters(l);
    assert l1.writing.holders == multiset(group);
    forall u ensures l1.writing.asked[u] == l1.writing.granted[u] + if IsWaiting(l1.writers, u) then 1 else 0 {
      DistinctMultiset(group, u);
    }
    forall u | u in l1.writing.holders ensures l1.root == Some(u.root) { assert u in group; }
    assert next !in Popped(l.writers).waiting;
  }

  lemma {:induction false} ToReadersInv(l: RwLock)
    requires QueuesOk(l) && l.writers.order == [] && l.readers != [] && !l.isRead && l.root.None?
    requires l.reading.holders == multiset{} && l.writing.holders == multiset{}
    ensures Inv(ToReaders(l))
  {
    var l1 := ToReaders(l);
    assert l1.reading.holders == multiset(l.readers);
    forall u ensures l1.reading.asked[u] == l1.reading.granted[u] + if u in l1.readers then 1 else 0 {
      DistinctMultiset(l.readers, u);
    }
  }

  lemma {:induction false} LastHolder(h: multiset<Task>, t: Task)
    requires t in h
    ensures |h - multiset{t}| == |h| - 1
    ensures |h| == 1 ==> h - multiset{t} == multiset{}
  {
    assert |h| == |h - multiset{t}| + 1;
  }

  lemma {:induction false} HolderCount(l: RwLock, t: Task)
    requires Inv(l) && (t in l.reading.holders || t in l.writing.holders)
    ensures l.rep > 0
    ensures l.writers.order == [] <==> l.writers.waiting == map[]
  {
    if t in l.reading.holders { LastHolder(l.reading.holders, t); } else { LastHolder(l.writing.holders, t); }
    NoneLeft(l.writers);
  }

  lemma {:induction false} ReadUnlockedInv(l: RwLock, t: Task)
    requires Inv(l) && t in l.reading.holders
    ensures Inv(ReadUnlocked(l, t))
  {
    LastHolder(l.reading.holders, t);
    if l.rep == 1 && l.writers.order != [] {
      ToWritersInv(l.(rep := 0, reading := Released(l.reading, t), isRead := false, root := None));
    }
  }

  lemma {:induction false} WriteUnlockedInv(l: RwLock, t: Task)
    requires Inv(l) && t in l.writing.holders
    ensures Inv(WriteUnlocked(l, t))
  {
    LastHolder(l.writing.holders, t);
    if l.rep == 1 {
      var l2 := l.(rep := 0, writing := Released(l.writing, t), root := None);
      if l.writers.order != [] {
        ToWritersInv(l2);
      } else if l.readers != [] {
        ToReadersInv(l2);
      }
    }
  }

  lemma {:induction false} UnlockedIsFine()
    ensures Inv(UNLOCKED)
  {}

  // ------------------------------------------------------------------- runs

  datatype Event =
    | ReadLock(t: Task) | TryReadLock(t: Task) | ReadUnlock(t: Task)
    | WriteLock(t: Task) | WriteUnlock(t: Task)

  /** A parked task asks for nothing; only a holder releases what it holds. */
  ghost predicate Legal(l: RwLock, e: Event) {
    match e
    case ReadUnlock(t) => t in l.reading.holders
    case WriteUnlock(t) => t in l.writing.holders
    case _ => !Waiting(l, e.t)
  }

  ghost function Step(l: RwLock, e: Event): RwLock {
    match e
    case ReadLock(t) => ReadLocked(l, t)
    case TryReadLock(t) => TryReadLocked(l, t)
    case ReadUnlock(t) => ReadUnlocked(l, t)
    case WriteLock(t) => WriteLocked(l, t)
    case WriteUnlock(t) => WriteUnlocked(l, t)
  }

  lemma {:induction false} StepInv(l: RwLock, e: Event)
    requires Inv(l) && Legal(l, e)
    ensures Inv(Step(l, e))
  {
    hide Inv;
    match e
    case ReadLock(t) => ReadLockedInv(l, t);
    case TryReadLock(t) => ReadLockedInv(l, t);
    case ReadUnlock(t) => ReadUnlockedInv(l, t);
    case WriteLock(t) => WriteLockedInv(l, t);
    case WriteUnlock(t) => WriteUnlockedInv(l, t);
  }

  ghost predicate Goes(ls: seq<RwLock>, es: seq<Event>, i: nat)
    requires |ls| == |es| + 1 && i < |es|
  {
    Legal(ls[i], es[i]) && ls[i + 1] == Step(ls[i], es[i])
  }

  ghost predicate IsRun(ls: seq<RwLock>, es: seq<Event>) {
    |ls| == |es| + 1 && forall i :: 0 <= i < |es| ==> Goes(ls, es, i)
  }

  lemma {:induction false} RunInv(ls: seq<RwLock>, es: seq<Event>, i: nat)
    requires IsRun(ls, es) && Inv(ls[0]) && i < |ls|
    ensures Inv(ls[i])
  {
    hide Inv, Step, Legal;
    if i == 0 {
    } else {
      RunInv(ls, es, i - 1);
      assert Goes(ls, es, i - 1);
      StepInv(ls[i - 1], es[i - 1]);
    }
  }

  /** Safety over every run: readers and writers never hold together, writers
      holding share one root, `rep` counts the holders, a free lock has no waiter
      of either kind, and every acquisition asked for was granted exactly once or
      still waits. */
  lemma {:induction false} RunsAreSafe(ls: seq<RwLock>, es: seq<Event>, i: nat)
    requires IsRun(ls, es) && ls[0] == UNLOCKED && i < |ls|
    ensures var l := ls[i];
            && (l.reading.holders == multiset{} || l.writing.holders == multiset{})
            && (forall t, u :: t in l.writing.holders && u in l.writing.holders ==> t.root == u.root)
            && l.rep == |l.reading.holders| + |l.writing.holders|
            && (l.rep == 0 ==> forall t :: !Waiting(l, t))
            && (forall t :: l.reading.asked[t] == l.reading.granted[t] + if t in l.readers then 1 else 0)
            && (forall t :: l.writing.asked[t] == l.writing.granted[t] + if IsWaiting(l.writers, t) then 1 else 0)
  {
    assert Inv(UNLOCKED);
    RunInv(ls, es, i);
    NoneLeft(ls[i].writers);
    assert forall t :: t in ls[i].writing.holders ==> ls[i].root == Some(t.root);
  }

  /** The write-during-read report compares the caller with a root that is null
      throughout a read phase, so it never fires: a reader asking to write is
      parked, also when it would be waiting for itself. */
  lemma {:induction false} WriteDuringReadIsNeverReported(ls: seq<RwLock>, es: seq<Event>, i: nat, t: Task)
    requires IsRun(ls, es) && ls[0] == UNLOCKED && i < |ls|
    ensures !WriteOutcome(ls[i], t).Fatal?
    ensures t in ls[i].reading.holders ==> WriteOutcome(ls[i], t).Parked?
  {
    assert Inv(UNLOCKED);
    RunInv(ls, es, i);
  }

  // ------------------------------------------------- what the events amount to

  /** Nobody writes; a task of the caller's tree writes; nobody reads and only tasks of
      the caller's tree write. */
  ghost predicate CanRead(l: RwLock) { l.writing.holders == multiset{} }
  ghost predicate OwnTreeWrites(l: RwLock, t: Task) { exists u :: u in l.writing.holders && u.root == t.root }
  ghost predicate CanWrite(l: RwLock, t: Task) {
    l.reading.holders == multiset{} && forall u :: u in l.writing.holders ==> u.root == t.root
  }

  lemma {:induction false} HoldersShow(l: RwLock, t: Task)
    requires Inv(l)
    ensures CanRead(l) <==> l.rep == 0 || l.isRead
    ensures OwnTreeWrites(l, t) <==> !CanRead(l) && l.root == Some(t.root)
    ensures CanWrite(l, t) <==> !l.isRead && (l.rep == 0 || l.root == Some(t.root))
  {
    if l.rep > 0 {
      if l.isRead {
        var u :| u in l.reading.holders;
      } else {
        var u :| u in l.writing.holders;
        assert l.root == Some(u.root);
      }
    }
  }

  /** What the holders decide: a read is granted if nobody writes, reported if the
      caller's tree writes, and otherwise waits; a write is granted if nobody reads and
      no other tree writes, and otherwise waits. */
  lemma {:induction false} OutcomesIff(l: RwLock, t: Task)
    requires Inv(l)
    ensures ReadOutcome(l, t) == if CanRead(l) then Acquired else if OwnTreeWrites(l, t) then Fatal else Parked
    ensures WriteOutcome(l, t) == if CanWrite(l, t) then Acquired else Parked
  {
    HoldersShow(l, t);
  }

  lemma {:induction false} AskingIsLegal(l: RwLock, t: Task)
    requires !Waiting(l, t)
    ensures Legal(l, TryReadLock(t))
  {}

  /** What each outcome does to holders and waiters. */
  lemma {:induction false} GrantsIff(l: RwLock, e: Event)
    requires Inv(l) && Legal(l, e) && !e.ReadUnlock? && !e.WriteUnlock?
    ensures (e.ReadLock? || e.TryReadLock?) && CanRead(l) ==>
              && Step(l, e).reading.holders == l.reading.holders + multiset{e.t}
              && Step(l, e).isRead && Step(l, e).rep == l.rep + 1 && Step(l, e).writing == l.writing
    ensures e.TryReadLock? && !CanRead(l) ==> Step(l, e) == l
    ensures e.ReadLock? && !CanRead(l) ==>
              if OwnTreeWrites(l, e.t) then Step(l, e) == l
              else Step(l, e).readers == l.readers + [e.t] && Step(l, e).reading.holders == l.reading.holders
    ensures e.WriteLock? && CanWrite(l, e.t) ==>
              && Step(l, e).writing.holders == l.writing.holders + multiset{e.t}
              && Step(l, e).root == Some(e.t.root) && Step(l, e).rep == l.rep + 1 && Step(l, e).reading == l.reading
    ensures e.WriteLock? && !CanWrite(l, e.t) ==>
              IsWaiting(Step(l, e).writers, e.t) && Step(l, e).writing.holders == l.writing.holders
  {
    OutcomesIff(l, e.t);
    HoldersShow(l, e.t);
    hide CanRead, OwnTreeWrites, CanWrite;
    if e.WriteLock? && !CanWrite(l, e.t) { EnqueuedOk(l.writers, e.t); }
  }

  /** The acquisitions asked for by an event: a read lock that is not reported, an
      attempt made while nobody writes, a write lock. */
  ghost predicate AsksRead(l: RwLock, e: Event, t: Task) {
    (e == ReadLock(t) && !OwnTreeWrites(l, t)) || (e == TryReadLock(t) && CanRead(l))
  }

  ghost function ReadAsks(ls: seq<RwLock>, es: seq<Event>, n: nat, t: Task): nat
    requires n <= |es| < |ls|
  {
    if n == 0 then 0 else ReadAsks(ls, es, n - 1, t) + if AsksRead(ls[n - 1], es[n - 1], t) then 1 else 0
  }

  /** How often e is among the first n events. */
  ghost function Times(es: seq<Event>, n: nat, e: Event): nat
    requires n <= |es|
  {
    if n == 0 then 0 else Times(es, n - 1, e) + if es[n - 1] == e then 1 else 0
  }

  ghost function ReadClaims(l: RwLock, t: Task): nat { l.reading.holders[t] + if t in l.readers then 1 else 0 }
  ghost function WriteClaims(l: RwLock, t: Task): nat {
    l.writing.holders[t] + if IsWaiting(l.writers, t) then 1 else 0
  }

  lemma {:induction false} WriteAskClaims(l: RwLock, u: Task, t: Task)
    requires Inv(l) && !Waiting(l, u)
    ensures var r := WriteLocked(l, u);
            && ReadClaims(r, t) == ReadClaims(l, t)
            && WriteClaims(r, t) == WriteClaims(l, t) + if u == t then 1 else 0
  {
    assert GroupsOk(l.writers);
    hide Inv, GroupsOk, CanWrite, WriteOutcome, Enqueued;
    OutcomesIff(l, u);
    EnqueuedOk(l.writers, u);
  }

  lemma {:induction false} ReadAskClaims(l: RwLock, e: Event, t: Task)
    requires Inv(l) && !Waiting(l, e.t) && (e.ReadLock? || e.TryReadLock?)
    ensures ReadClaims(Step(l, e), t) == ReadClaims(l, t) + if AsksRead(l, e, t) then 1 else 0
    ensures WriteClaims(Step(l, e), t) == WriteClaims(l, t)
  {
    hide Inv, CanRead, OwnTreeWrites, CanWrite, IsWaiting, ReadOutcome;
    HoldersShow(l, e.t);
    OutcomesIff(l, e.t);
    assert Step(l, e).writing == l.writing && Step(l, e).writers == l.writers;
  }

  lemma {:induction false} AskClaims(l: RwLock, e: Event, t: Task)
    requires Inv(l) && Legal(l, e) && !e.ReadUnlock? && !e.WriteUnlock?
    ensures ReadClaims(Step(l, e), t) == ReadClaims(l, t) + if AsksRead(l, e, t) then 1 else 0
    ensures WriteClaims(Step(l, e), t) == WriteClaims(l, t) + if e == WriteLock(t) then 1 else 0
  {
    hide Inv, Waiting, ReadClaims, WriteClaims, WriteLocked;
    if e.WriteLock? { WriteAskClaims(l, e.t, t); } else { ReadAskClaims(l, e, t); }
  }

  lemma {:induction false} ToWritersClaims(l: RwLock, t: Task)
    requires GroupsOk(l.writers) && l.writers.order != []
    ensures ReadClaims(ToWriters(l), t) == ReadClaims(l, t) && WriteClaims(ToWriters(l), t) == WriteClaims(l, t)
  {
    PoppedOk(l.writers);
    DistinctMultiset(Group(l.writers, l.writers.order[0]), t);
  }

  lemma {:induction false} ToReadersClaims(l: RwLock, t: Task)
    requires forall i, j :: 0 <= i < j < |l.readers| ==> l.readers[i] != l.readers[j]
    ensures ReadClaims(ToReaders(l), t) == ReadClaims(l, t) && WriteClaims(ToReaders(l), t) == WriteClaims(l, t)
  {
    DistinctMultiset(l.readers, t);
  }

  lemma {:induction false} ReadReleaseClaims(l: RwLock, u: Task, t: Task)
    requires Inv(l) && u in l.reading.holders
    ensures var r := ReadUnlocked(l, u);
            && ReadClaims(r, t) == ReadClaims(l, t) - (if u == t then 1 else 0)
            && WriteClaims(r, t) == WriteClaims(l, t)
  {
    assert GroupsOk(l.writers);
    hide Inv, GroupsOk, ToWriters, IsWaiting;
    HolderCount(l, u);
    var l2 := l.(rep := 0, reading := Released(l.reading, u), isRead := false, root := None);
    if l.writers.order != [] { ToWritersClaims(l2, t); }
  }

  lemma {:induction false} WriteReleaseClaims(l: RwLock, u: Task, t: Task)
    requires Inv(l) && u in l.writing.holders
    ensures var r := WriteUnlocked(l, u);
            && ReadClaims(r, t) == ReadClaims(l, t)
            && WriteClaims(r, t) == WriteClaims(l, t) - if u == t then 1 else 0
  {
    assert GroupsOk(l.writers) && forall i, j :: 0 <= i < j < |l.readers| ==> l.readers[i] != l.readers[j];
    hide Inv, GroupsOk, ToWriters, ToReaders, IsWaiting;
    HolderCount(l, u);
    var l1 := l.(rep := Dec(l.rep), writing := Released(l.writing, u));
    assert ReadClaims(l1, t) == ReadClaims(l, t) && WriteClaims(l1, t) == WriteClaims(l, t) - if u == t then 1 else 0;
    if l.rep == 1 {
      var l2 := l1.(root := None);
      assert ReadClaims(l2, t) == ReadClaims(l1, t) && WriteClaims(l2, t) == WriteClaims(l1, t);
      hide ReadClaims, WriteClaims;
      if l.writers.order != [] { ToWritersClaims(l2, t); } else { ToReadersClaims(l2, t); }
    }
  }

  lemma {:induction false} ReleaseClaims(l: RwLock, e: Event, t: Task)
    requires Inv(l) && Legal(l, e) && (e.ReadUnlock? || e.WriteUnlock?)
    ensures ReadClaims(Step(l, e), t) == ReadClaims(l, t) - if e == ReadUnlock(t) then 1 else 0
    ensures WriteClaims(Step(l, e), t) == WriteClaims(l, t) - if e == WriteUnlock(t) then 1 else 0
  {
    hide Inv, ReadClaims, WriteClaims, ReadUnlocked, WriteUnlocked;
    if e.ReadUnlock? { ReadReleaseClaims(l, e.t, t); } else { WriteReleaseClaims(l, e.t, t); }
  }

  /** In every run, what a task asked for and has not released is what it holds and
      what it waits for, of either kind. */
  lemma {:induction false} ClaimsAreEvents(ls: seq<RwLock>, es: seq<Event>, n: nat, t: Task)
    requires IsRun(ls, es) && ls[0] == UNLOCKED && n <= |es|
    ensures ReadClaims(ls[n], t) == ReadAsks(ls, es, n, t) - Times(es, n, ReadUnlock(t))
    ensures WriteClaims(ls[n], t) == Times(es, n, WriteLock(t)) - Times(es, n, WriteUnlock(t))
  {
    if n == 0 {
    } else {
      hide Inv, Legal, Step, ReadClaims, WriteClaims, AsksRead;
      UnlockedIsFine();
      ClaimsAreEvents(ls, es, n - 1, t);
      RunInv(ls, es, n - 1);
      assert Goes(ls, es, n - 1);
      var l, e := ls[n - 1], es[n - 1];
      if e.ReadUnlock? || e.WriteUnlock? {
        ReleaseClaims(l, e, t);
        NoAsk(l, e, t);
      } else {
        AskClaims(l, e, t);
      }
    }
  }

  lemma {:induction false} NoAsk(l: RwLock, e: Event, t: Task)
    requires e.ReadUnlock? || e.WriteUnlock?
    ensures !AsksRead(l, e, t)
  {}

  // ----------------------------------------------------------- arrival order

  /** When event e last happened before n. */
  ghost function Last(es: seq<Event>, n: nat, e: Event): int
    requires n <= |es|
  {
    if n == 0 then -1 else if es[n - 1] == e then n - 1 else Last(es, n - 1, e)
  }

  lemma {:induction false} LastBefore(es: seq<Event>, n: nat, e: Event)
    requires n <= |es|
    ensures Last(es, n, e) < n
  {
    if n == 0 {
    } else {
      LastBefore(es, n - 1, e);
    }
  }

  ghost function WriteTimes(es: seq<Event>, n: nat): Task -> int
    requires n <= |es|
  {
    t => Last(es, n, WriteLock(t))
  }

  ghost function ReadTimes(es: seq<Event>, n: nat): Task -> int
    requires n <= |es|
  {
    t => Last(es, n, ReadLock(t))
  }

  ghost predicate QueuesInOrder(l: RwLock, written: Task -> int, read: Task -> int) {
    GroupsOk(l.writers) && InOrder(l.writers, written) && Sorted(l.readers, read)
  }

  lemma {:induction false} StepInOrder(l: RwLock, e: Event, w: Task -> int, r: Task -> int, w1: Task -> int,
                                       r1: Task -> int, now: int)
    requires Inv(l) && Legal(l, e) && QueuesInOrder(l, w, r)
    requires forall t :: w(t) < now && w1(t) == if e == WriteLock(t) then now else w(t)
    requires forall t :: r(t) < now && r1(t) == if e == ReadLock(t) then now else r(t)
    ensures QueuesInOrder(Step(l, e), w1, r1)
  {
    hide InOrder, HoldersOk, Enqueued, Popped;
    StaysInOrder(l.writers, w, w1);
    assert Sorted(l.readers, r1) by {
      forall i | 0 <= i < |l.readers| ensures r1(l.readers[i]) == r(l.readers[i]) { assert Waiting(l, l.readers[i]); }
    }
    match e
    case WriteLock(t) => EnqueuedInOrder(l.writers, t, w1);
    case ReadUnlock(t) => if l.writers.order != [] { PoppedInOrder(l.writers, w1); }
    case WriteUnlock(t) => if l.writers.order != [] { PoppedInOrder(l.writers, w1); }
    case _ =>
  }

  lemma {:induction false} UnlockedInOrder(w: Task -> int, r: Task -> int)
    ensures QueuesInOrder(UNLOCKED, w, r)
  {
    NoneInOrder(w);
  }

  /** In every run, waiting writers of one root, the roots, and waiting readers are in
      the order in which they asked. */
  lemma {:induction false} WaitersInOrder(ls: seq<RwLock>, es: seq<Event>, n: nat)
    requires IsRun(ls, es) && ls[0] == UNLOCKED && n <= |es|
    ensures QueuesInOrder(ls[n], WriteTimes(es, n), ReadTimes(es, n))
  {
    hide Inv, Legal, Step, QueuesInOrder;
    UnlockedIsFine();
    if n == 0 {
      UnlockedInOrder(WriteTimes(es, n), ReadTimes(es, n));
    } else {
      WaitersInOrder(ls, es, n - 1);
      RunInv(ls, es, n - 1);
      assert Goes(ls, es, n - 1);
      var w, r := WriteTimes(es, n - 1), ReadTimes(es, n - 1);
      forall t ensures w(t) < n - 1 && r(t) < n - 1 {
        LastBefore(es, n - 1, WriteLock(t));
        LastBefore(es, n - 1, ReadLock(t));
      }
      StepInOrder(ls[n - 1], es[n - 1], w, r, WriteTimes(es, n), ReadTimes(es, n), n - 1);
    }
  }

  // --------------------------------------------------- order of the writers

  ghost predicate IsHandover(l: RwLock, e: Event) {
    (e.ReadUnlock? || e.WriteUnlock?) && l.rep == 1 && l.writers.order != []
  }

  ghost function Handovers(ls: seq<RwLock>, es: seq<Event>, i: nat): nat
    requires i <= |es| <= |ls|
  {
    if i == 0 then 0
    else Handovers(ls, es, i - 1) + if IsHandover(ls[i - 1], es[i - 1]) then 1 else 0
  }

  lemma {:induction false} OrderAfter(l: RwLock, e: Event)
    requires Inv(l) && Legal(l, e)
    ensures if IsHandover(l, e) then Step(l, e).writers.order == l.writers.order[1..]
            else l.writers.order <= Step(l, e).writers.order
  {
    hide Inv, Granted, Released, Asked;
    if e.ReadUnlock? || e.WriteUnlock? { HolderCount(l, e.t); }
  }

  lemma {:induction false} PositionMovesUp(ls: seq<RwLock>, es: seq<Event>, k: nat, i: nat)
    requires IsRun(ls, es) && Inv(ls[0]) && k < |ls[0].writers.order| && i <= |es|
    requires Handovers(ls, es, i) <= k
    ensures k - Handovers(ls, es, i) < |ls[i].writers.order|
    ensures ls[i].writers.order[k - Handovers(ls, es, i)] == ls[0].writers.order[k]
  {
    hide Inv, Step, Legal;
    if i == 0 {
    } else {
      PositionMovesUp(ls, es, k, i - 1);
      assert Goes(ls, es, i - 1);
      RunInv(ls, es, i - 1);
      OrderAfter(ls[i - 1], es[i - 1]);
    }
  }

  lemma {:induction false} HandedToWriters(l: RwLock, e: Event)
    requires Inv(l) && Legal(l, e) && IsHandover(l, e)
    ensures var l1 := Step(l, e);
            && l1.root == Some(l.writers.order[0])
            && l1.reading.holders == multiset{}
            && forall u :: u in l1.writing.holders <==> IsWaiting(l.writers, u) && u.root == l.writers.order[0]
  {
    PoppedOk(l.writers);
    if e.ReadUnlock? { LastHolder(l.reading.holders, e.t); } else { LastHolder(l.writing.holders, e.t); }
    assert Step(l, e).writing.holders == multiset(Group(l.writers, l.writers.order[0]));
  }

  /** A writing root at position k is served at exactly the (k+1)-th hand-over to
      writers, by whichever kind of unlock, and not before: then all its waiters hold
      the lock and nobody else does. */
  lemma {:induction false} WritersServedInOrder(ls: seq<RwLock>, es: seq<Event>, k: nat, i: nat)
    requires IsRun(ls, es) && Inv(ls[0]) && k < |ls[0].writers.order| && i < |es|
    requires Handovers(ls, es, i) == k && IsHandover(ls[i], es[i])
    ensures var root := ls[0].writers.order[k];
            && ls[i + 1].root == Some(root)
            && ls[i + 1].reading.holders == multiset{}
            && forall t :: t in ls[i + 1].writing.holders <==> IsWaiting(ls[i].writers, t) && t.root == root
    ensures forall j :: 0 <= j <= i ==>
              ls[0].writers.order[k] in ls[j].writers.waiting && ls[j].root != Some(ls[0].writers.order[k])
  {
    hide Inv, Step, Legal;
    var root := ls[0].writers.order[k];
    forall j | 0 <= j <= i ensures root in ls[j].writers.waiting && ls[j].root != Some(root) {
      HandoversMonotone(ls, es, j, i);
      PositionMovesUp(ls, es, k, j);
      RunInv(ls, es, j);
      QueuedNotServed(ls[j], root);
    }
    PositionMovesUp(ls, es, k, i);
    RunInv(ls, es, i);
    assert Goes(ls, es, i);
    HandedToWriters(ls[i], es[i]);
  }

  lemma {:induction false} QueuedNotServed(l: RwLock, root: nat)
    requires Inv(l) && root in l.writers.order
    ensures root in l.writers.waiting && l.root != Some(root)
  {}

  lemma {:induction false} HandoversMonotone(ls: seq<RwLock>, es: seq<Event>, j: nat, i: nat)
    requires j <= i <= |es| <= |ls|
    ensures Handovers(ls, es, j) <= Handovers(ls, es, i)
    decreases i
  {
    if j == i {
    } else {
      HandoversMonotone(ls, es, j, i - 1);
    }
  }

  // ------------------------------------------------- a reader asks to write

  /** A reader waits to write. */
  ghost predicate Upgrading(l: RwLock, t: Task) {
    l.isRead && t in l.reading.holders && IsWaiting(l.writers, t)
  }

  lemma {:induction false} UpgradingStarts(l: RwLock, t: Task)
    requires Inv(l) && t in l.reading.holders && Legal(l, WriteLock(t))
    ensures Upgrading(Step(l, WriteLock(t)), t)
  {
    EnqueuedOk(l.writers, t);
  }

  lemma {:induction false} UpgradingExcludes(l: RwLock, t: Task)
    requires Inv(l)
    ensures Upgrading(l, t) ==> l.writing.holders == multiset{}
  {}

  lemma {:induction false} UpgradingStays(l: RwLock, e: Event, t: Task)
    requires Inv(l) && Legal(l, e) && Upgrading(l, t) && e.t != t
    ensures Upgrading(Step(l, e), t)
  {
    match e
    case ReadUnlock(u) =>
      assert t in l.reading.holders - multiset{u};
      assert |l.reading.holders - multiset{u}| == |l.reading.holders| - 1 > 0;
    case WriteLock(u) => EnqueuedOk(l.writers, u);
    case _ =>
  }

  lemma {:induction false} UpgradingLasts(ls: seq<RwLock>, es: seq<Event>, i: nat, n: nat, t: Task)
    requires IsRun(ls, es) && Inv(ls[0]) && i < n <= |es|
    requires t in ls[i].reading.holders && es[i] == WriteLock(t)
    requires forall k :: i < k < n ==> es[k].t != t
    ensures Upgrading(ls[n], t)
    decreases n
  {
    hide Inv, Step, Legal, Upgrading;
    RunInv(ls, es, n - 1);
    assert Goes(ls, es, n - 1);
    if n == i + 1 {
      UpgradingStarts(ls[i], t);
    } else {
      UpgradingLasts(ls, es, i, n - 1, t);
      UpgradingStays(ls[n - 1], es[n - 1], t);
    }
  }

  /** A task that holds the lock for reading and asks to write is parked. If, being
      parked, it does nothing more, it never gets the lock: it holds it for reading and
      waits for ever, and no writer ever holds the lock again. */
  lemma {:induction false} UpgraderWaitsForEver(ls: seq<RwLock>, es: seq<Event>, i: nat, n: nat, t: Task)
    requires IsRun(ls, es) && ls[0] == UNLOCKED && i < n <= |es|
    requires t in ls[i].reading.holders && es[i] == WriteLock(t)
    requires forall k :: i < k < n ==> es[k].t != t
    ensures Upgrading(ls[n], t) && ls[n].writing.holders == multiset{}
  {
    assert Inv(UNLOCKED);
    hide Inv, Upgrading, IsRun;
    UpgradingLasts(ls, es, i, n, t);
    RunInv(ls, es, n);
    UpgradingExcludes(ls[n], t);
  }

  // ------------------------------------------------------------- the object

  /** The queue of roots and the writer map are kept as one value. */
  class CoRwLock {
    var root: Option<nat>
    var rep: nat
    var isRead: bool
    var writers: Groups
    var readers: seq<Task>
    ghost var reading: History
    ghost var writing: History

    ghost function State(): RwLock
      reads this
    {
      RwLock(root, rep, isRead, writers, readers, reading, writing)
    }

    constructor ()
      ensures State() == UNLOCKED
    {
      root, rep, isRead, writers, readers := None, 0, false, NO_GROUPS, [];
      reading, writing := NO_HISTORY, NO_HISTORY;
    }

    method TryReadLock(task: Task) returns (ok: bool)
      requires Inv(State()) && !Waiting(State(), task)
      modifies this
      ensures State() == TryReadLocked(old(State()), task) && Inv(State())
      ensures ok <==> CanRead(old(State()))
      ensures ok ==> reading.holders == old(reading.holders) + multiset{task} && isRead
      ensures !ok ==> State() == old(State())
    {
      hide Inv, Waiting, Asked, Granted, ReadLocked, Legal, CanRead;
      assert Legal(State(), Event.TryReadLock(task)) by { AskingIsLegal(State(), task); }
      GrantsIff(State(), Event.TryReadLock(task));
      HoldersShow(State(), task);
      ReadLockedInv(State(), task);
      ok := rep == 0 || isRead;
      if ok {
        isRead := true;
        rep := rep + 1;
        reading := Granted(Asked(reading, task), [task]);
      }
    }

    method ReadLock(task: Task) returns (outcome: Outcome)
      requires Inv(State()) && !Waiting(State(), task)
      modifies this
      ensures State() == ReadLocked(old(State()), task) && Inv(State())
      ensures outcome == ReadOutcome(old(State()), task)
    {
      hide Inv, Waiting, Asked, Granted, TryReadLocked;
      ReadLockedInv(State(), task);
      if rep == 0 || isRead {
        isRead := true;
        rep := rep + 1;
        reading := Granted(Asked(reading, task), [task]);
        outcome := Acquired;
      } else if !isRead && root == Some(task.root) {
        outcome := Fatal;
      } else {
        readers := readers + [task];
        reading := Asked(reading, task);
        outcome := Parked;
      }
    }

    method WriteLock(task: Task) returns (outcome: Outcome)
      requires Inv(State()) && !Waiting(State(), task)
      modifies this
      ensures State() == WriteLocked(old(State()), task) && Inv(State())
      ensures outcome == WriteOutcome(old(State()), task)
    {
      hide Inv, Waiting, Asked, Granted;
      WriteLockedInv(State(), task);
      if !isRead && (rep == 0 || root == Some(task.root)) {
        root := Some(task.root);
        rep := rep + 1;
        writing := Granted(Asked(writing, task), [task]);
        outcome := Acquired;
      } else if isRead && root == Some(task.root) {
        outcome := Fatal;
      } else {
        var order, byRoot := writers.order, writers.waiting;
        if task.root !in byRoot {
          byRoot := byRoot[task.root := []];
          order := order + [task.root];
        }
        byRoot := byRoot[task.root := byRoot[task.root] + [task]];
        EnqueuedBySteps(writers, task);
        writers := Groups(order, byRoot);
        writing := Asked(writing, task);
        outcome := Parked;
      }
    }

    /** Signal a group of parked tasks; each becomes a holder. */
    method Signal(group: seq<Task>) returns (signalled: seq<Task>)
      requires rep == 0
      modifies this`rep
      ensures rep == |group| && signalled == group
    {
      signalled := [];
      for i := 0 to |group|
        invariant rep == i && signalled == group[..i]
      {
        signalled := signalled + [group[i]];
        rep := rep + 1;
      }
      assert group[..|group|] == group;
    }

    /** Releases a read lock; returns the writers signalled to resume. */
    method ReadUnlock(ghost task: Task) returns (signalled: seq<Task>)
      requires Inv(State()) && task in reading.holders
      modifies this
      ensures State() == ReadUnlocked(old(State()), task) && Inv(State())
      ensures signalled == ReadResumes(old(State()))
    {
      hide Inv, Granted, Released;
      HolderCount(State(), task);
      ReadUnlockedInv(State(), task);
      signalled := [];
      rep := rep - 1;
      reading := Released(reading, task);
      if rep == 0 {
        isRead, root := false, None;
        if writers.waiting != map[] {
          root := Some(writers.order[0]);
          var blocked := Group(writers, writers.order[0]);
          signalled := Signal(blocked);
          writers := Popped(writers);
          writing := Granted(writing, blocked);
        }
      }
    }

    /** Releases a write lock; returns the tasks signalled to resume: the next
        group of writers, or all readers when no writer waits. */
    method WriteUnlock(ghost task: Task) returns (signalled: seq<Task>)
      requires Inv(State()) && task in writing.holders
      modifies this
      ensures State() == WriteUnlocked(old(State()), task) && Inv(State())
      ensures signalled == WriteResumes(old(State()))
    {
      hide Inv, Granted, Released;
      HolderCount(State(), task);
      WriteUnlockedInv(State(), task);
      signalled := [];
      rep := rep - 1;
      writing := Released(writing, task);
      if rep == 0 {
        root := None;
        if writers.waiting != map[] {
          root := Some(writers.order[0]);
          var blocked := Group(writers, writers.order[0]);
          signalled := Signal(blocked);
          writers := Popped(writers);
          writing := Granted(writing, blocked);
        } else if readers != [] {
          isRead := true;
          signalled := Signal(readers);
          reading := Granted(reading, readers);
          readers := [];
        }
      }
    }
  }
}
