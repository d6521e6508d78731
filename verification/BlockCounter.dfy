/** The signed block counter of one task: a wait on n children races with their
    signals. SetBlocked, IsBlocked and UnsetBlocked of
    include/chimaera/module_registry/task.h, SignalUnblock, and the end of RunTask. */
module BlockCounters {

  /** Where the waiting task is: running, between the atomic add of SetBlocked and
      the setting of its flags, back in RunTask, or sorted by RunTask into parked
      (it left its lane) or back (it stays in its lane). */
  datatype Phase = Running | Added(ret: int) | Stopped | Parked | Back

  /** The counter and the two flags. */
  datatype Bits = Bits(count: int, blocked: bool, yielded: bool)

  function Counting(b: Bits, n: int): Bits { b.(count := b.count + n) }

  /** The second half of SetBlocked, with what its add returned, and Yield. */
  function Flagged(b: Bits, ret: int): Bits { b.(blocked := b.blocked || ret != 0, yielded := true) }

  predicate IsBlocked(b: Bits) { b.count > 0 || b.blocked }

  /** UnsetBlocked or UnsetYielded, as RunTask chooses. */
  function Sorted(b: Bits): Bits {
    if IsBlocked(b) then b.(blocked := false, yielded := false) else b.(yielded := false)
  }

  /** A wait. Beside the bits and the phase it keeps history: the signals sent
      before the add, all signals sent, and how often a signal requeued the task. */
  datatype Wait = Wait(bits: Bits, phase: Phase, early: nat, sent: nat, woken: nat)

  const INIT: Wait := Wait(Bits(0, false, false), Running, 0, 0, 0)

  datatype Event = Add | Flag | Sort | Signal

  /** One atomic step of a wait on n children. */
  function Next(s: Wait, n: nat, e: Event): Wait {
    match (e, s.phase)
    case (Add, Running) => s.(bits := Counting(s.bits, n), phase := Added(s.bits.count + n))
    case (Flag, Added(ret)) => s.(bits := Flagged(s.bits, ret), phase := Stopped)
    case (Sort, Stopped) => s.(bits := Sorted(s.bits), phase := if IsBlocked(s.bits) then Parked else Back)
    case (Signal, _) =>
      s.(bits := Counting(s.bits, -1), sent := s.sent + 1,
         early := if s.phase.Running? then s.early + 1 else s.early,
         woken := if s.bits.count - 1 == 0 then s.woken + 1 else s.woken)
    case _ => s
  }

  function After(s: Wait, n: nat, es: seq<Event>): Wait
    decreases |es|
  {
    if es == [] then s else Next(After(s, n, es[..|es| - 1]), n, es[|es| - 1])
  }

  /** How often the task was put back into a lane. */
  function Requeues(s: Wait): nat { s.woken + if s.phase.Back? then 1 else 0 }

  predicate Inv(s: Wait, n: nat) {
    && s.early <= s.sent
    && match s.phase {
         case Running => s.bits.count == 0 - s.sent && s.early == s.sent && s.woken == 0 && !s.bits.blocked
         case Added(ret) => ret == n - s.early && Counted(s, n) && !s.bits.blocked
         case Stopped => Counted(s, n) && s.bits.blocked == (s.early != n)
         case Parked => Counted(s, n) && s.early != n && !s.bits.blocked
         case Back => Counted(s, n) && s.early == n && !s.bits.blocked
       }
  }

  /** After the add, the counter is what is still awaited, and a signal has requeued
      the task exactly when the n-th came late. */
  predicate Counted(s: Wait, n: nat) {
    s.bits.count == n - s.sent && s.woken == if s.early < n <= s.sent then 1 else 0
  }

  lemma {:induction false} RunInv(n: nat, es: seq<Event>)
    requires n > 0
    ensures Inv(After(INIT, n, es), n)
    decreases |es|
  {
    if es == [] {
    } else {
      RunInv(n, es[..|es| - 1]);
    }
  }

  /** Every interleaving of signals with a wait on n children. Once the task has
      stopped, it has been requeued exactly once if at most n signals came early
      and n have come in all, and not at all otherwise: by staying in its lane when
      all n were early, else by the signal that brought the counter to zero. */
  lemma {:induction false} RequeuedOnceIff(n: nat, es: seq<Event>)
    requires n > 0
    ensures var s := After(INIT, n, es);
            && Requeues(s) <= 1
            && (s.phase.Parked? || s.phase.Back? ==> (Requeues(s) == 1 <==> s.early <= n <= s.sent))
            && (s.phase.Back? ==> s.early == n && s.woken == 0)
            && (s.woken == 1 ==> s.early < n)
  {
    RunInv(n, es);
  }

  lemma {:induction false} RunSent(n: nat, es: seq<Event>)
    ensures After(INIT, n, es).sent == multiset(es)[Signal] && After(INIT, n, es).early <= multiset(es)[Signal]
    decreases |es|
  {
    if es == [] {
    } else {
      assert es == es[..|es| - 1] + [es[|es| - 1]];
      RunSent(n, es[..|es| - 1]);
    }
  }

  /** However n signals interleave with the wait on their n senders, the task that
      stopped is requeued exactly once. */
  lemma {:induction false} AllChildrenRequeueOnce(n: nat, es: seq<Event>)
    requires n > 0 && multiset(es)[Signal] == n
    ensures var s := After(INIT, n, es);
            s.phase.Parked? || s.phase.Back? ==> Requeues(s) == 1
  {
    RunInv(n, es);
    RunSent(n, es);
  }

  /** The task never runs again before n signals have come. */
  lemma {:induction false} NeverTooEarly(n: nat, es: seq<Event>)
    requires n > 0 && Requeues(After(INIT, n, es)) > 0
    ensures After(INIT, n, es).sent >= n
  {
    RunInv(n, es);
  }

  /** The signal that requeues is the one that makes n. */
  lemma {:induction false} WokenByNth(n: nat, es: seq<Event>)
    requires n > 0 && es != []
    ensures var s, r := After(INIT, n, es[..|es| - 1]), After(INIT, n, es);
            r.woken > s.woken ==> es[|es| - 1] == Signal && r.sent == n && r.bits.count == 0
  {
    RunInv(n, es[..|es| - 1]);
  }

  /** With no more than n signals the counter is back at zero whenever the task
      resumes, no flag is left set, and it is not found blocked: the next wait
      starts like the first. */
  lemma {:induction false} ResumesClean(n: nat, es: seq<Event>)
    requires n > 0
    ensures var s := After(INIT, n, es);
            (s.phase.Parked? || s.phase.Back?) && Requeues(s) == 1 && s.sent <= n
            ==> s.bits == INIT.bits
  {
    RunInv(n, es);
    RunFlags(n, es);
  }

  lemma {:induction false} RunFlags(n: nat, es: seq<Event>)
    ensures var s := After(INIT, n, es); s.bits.yielded <==> s.phase.Stopped?
    decreases |es|
  {
    if es == [] {
    } else {
      RunFlags(n, es[..|es| - 1]);
    }
  }

  /** A wait that covers fewer children than have already signalled: parked for good. */
  lemma {:induction false} MissedWaitStaysParked(n: nat, es: seq<Event>)
    requires n > 0 && After(INIT, n, es).early > n
    ensures Requeues(After(INIT, n, es)) == 0
  {
    RunInv(n, es);
  }

  // ---------------------------------------------------------- as an object

  class TaskState {
    var count: int
    var blocked: bool
    var yielded: bool

    function Value(): Bits
      reads this
    {
      Bits(count, blocked, yielded)
    }

    /** SetBlocked, then Yield. A wait on no child is no wait. */
    method Wait(n: nat)
      modifies this
      ensures Value() == if n == 0 then old(Value()) else Flagged(Counting(old(Value()), n), old(count) + n)
    {
      if n > 0 {
        var ret := count + n;
        count := ret;
        if ret != 0 {
          blocked, yielded := true, true;
        }
        yielded := true;
      }
    }

    method SignalUnblock() returns (requeue: bool)
      modifies this
      ensures Value() == Counting(old(Value()), -1) && requeue == (old(count) - 1 == 0)
    {
      count := count - 1;
      requeue := count == 0;
    }

    /** What RunTask makes of a coroutine that stopped: whether it stays in its lane,
        and whether it has ended. */
    method SortStopped(repeats: bool) returns (back: bool, end: bool)
      modifies this
      ensures Value() == Sorted(old(Value()))
      ensures back == (!IsBlocked(old(Value())) && (old(yielded) || repeats))
      ensures end == (!IsBlocked(old(Value())) && !old(yielded) && !repeats)
    {
      if count > 0 || blocked {
        blocked, yielded := false, false;
        back, end := false, false;
      } else if yielded {
        yielded := false;
        back, end := true, false;
      } else {
        back, end := repeats, !repeats;
      }
    }
  }
}
