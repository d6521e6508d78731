/** The remote task protocol between n nodes, as atomic steps.
    tasks/remote_queue/src/remote_queue_runtime.cc; an RPC is a message that arrives once. */
module RemoteQueues {
  import opened Common

  /** Where a replica is: in its node's submit queue, in the batch of node v for node
      u, in message k, executing at v, waiting at v for submit task i of its own, in the
      complete queue of v, in a batch or message back, or completed. */
  datatype Place =
    | SubmitQ(v: nat) | OutS(v: nat, u: nat) | WireS(k: nat)
    | At(v: nat) | Delegated(v: nat, i: nat)
    | CompleteQ(v: nat) | OutC(v: nat, u: nat) | WireC(k: nat)
    | Gone

  predicate IsQueue(p: Place) { !p.At? && !p.Delegated? && !p.Gone? }

  /** A copy of a task: the node and submit task it belongs to, the node it resolved
      to, whether it is a flush task, and the return node that came with the message.
      `place` and `handled` (the nodes that executed or delegated it) are history. */
  datatype Replica = Replica(home: nat, dest: nat, submit: nat, flush: bool, ret: nat, place: Place, handled: seq<nat>)

  /** A submit task: the nodes its task resolved to, those it has still to queue a
      replica for, its block counter, how often it was requeued, and the copy that
      delegated to it, if any. */
  datatype Submit = Submit(node: nat, flush: bool, targets: seq<nat>, todo: seq<nat>, count: int, resumed: nat,
                           parent: Option<nat>, closed: bool)

  datatype Message = Message(from: nat, to: nat)

  datatype Net = Net(lists: map<Place, seq<nat>>, msgs: seq<Message>, reps: seq<Replica>,
                     submits: seq<Submit>, pending: seq<int>)

  function List(s: Net, p: Place): seq<nat> { if p in s.lists then s.lists[p] else [] }

  function One(flush: bool): int { if flush then 0 else 1 }

  /** The first replica of queue p leaves it. */
  function Take(s: Net, p: Place): Net
    requires List(s, p) != []
  {
    s.(lists := s.lists[p := List(s, p)[1..]])
  }

  /** Replica r is put in place q. */
  function Put(s: Net, r: nat, q: Place): Net
    requires r < |s.reps|
  {
    s.(lists := if IsQueue(q) then s.lists[q := List(s, q) + [r]] else s.lists,
       reps := s.reps[r := s.reps[r].(place := q)])
  }

  /** The head of a queue, if it names a replica. */
  predicate HasHead(s: Net, p: Place) { List(s, p) != [] && List(s, p)[0] < |s.reps| }

  function Move(s: Net, p: Place, q: Place): Net
    requires HasHead(s, p)
  {
    Put(Take(s, p), List(s, p)[0], q)
  }

  /** A batch becomes a message. */
  function Sent(s: Net, p: Place, q: Place, m: Message): Net
    requires IsQueue(p) && IsQueue(q)
  {
    s.(lists := s.lists[q := List(s, p)][p := []], msgs := s.msgs + [m],
       reps := seq(|s.reps|, r requires 0 <= r < |s.reps| =>
                     if s.reps[r].place == p then s.reps[r].(place := q) else s.reps[r]))
  }

  // ------------------------------------------------------------------- steps

  datatype Event =
    | Start(v: nat, targets: seq<nat>, flush: bool, parent: Option<nat>)
    | Emplace(i: nat)
    | Pop(v: nat)
    | Send(v: nat, u: nat)
    | Receive(k: nat)
    | Execute(r: nat)
    | PopDone(v: nat)
    | SendDone(v: nat, u: nat)
    | Complete(k: nat)
    | Close(i: nat)

  /** The step is possible. */
  predicate Enabled(s: Net, e: Event) {
    match e
    case Start(v, targets, flush, parent) =>
      && v < |s.pending| && targets != [] && (forall j :: 0 <= j < |targets| ==> targets[j] < |s.pending|)
      && (parent.Some? ==> parent.value < |s.reps| && s.reps[parent.value].place == At(v))
    case Emplace(i) => i < |s.submits| && s.submits[i].todo != []
    case Pop(v) => v < |s.pending| && HasHead(s, SubmitQ(v))
    case Send(v, u) => List(s, OutS(v, u)) != []
    case Receive(k) => k < |s.msgs| && HasHead(s, WireS(k))
    case Execute(r) => r < |s.reps| && s.reps[r].place.At?
    case PopDone(v) => HasHead(s, CompleteQ(v))
    case SendDone(v, u) => List(s, OutC(v, u)) != []
    case Complete(k) =>
      && k < |s.msgs| && s.msgs[k].to < |s.pending| && HasHead(s, WireC(k))
      && s.reps[List(s, WireC(k))[0]].submit < |s.submits|
    case Close(i) =>
      && i < |s.submits| && s.submits[i].resumed > 0 && !s.submits[i].closed
      && (s.submits[i].parent.Some? ==> s.submits[i].parent.value < |s.reps|)
  }

  /** Direct and Replicate up to the wait: the counter is set, nothing is queued yet. */
  function Started(s: Net, v: nat, targets: seq<nat>, flush: bool, parent: Option<nat>): Net
    requires parent.Some? ==> parent.value < |s.reps|
  {
    var s1 := s.(submits := s.submits + [Submit(v, flush, targets, targets, |targets|, 0, parent, false)]);
    match parent
    case None => s1
    case Some(r) => Handled(s1, r, v, Delegated(v, |s.submits|))
  }

  /** Node v has dealt with replica r, which goes to q. */
  function Handled(s: Net, r: nat, v: nat, q: Place): Net
    requires r < |s.reps|
  {
    Put(s.(reps := s.reps[r := s.reps[r].(handled := s.reps[r].handled + [v])]), r, q)
  }

  /** One round of the loop of Replicate. */
  function Emplaced(s: Net, i: nat): Net
    requires i < |s.submits| && s.submits[i].todo != []
  {
    var t := s.submits[i];
    var r := Replica(t.node, t.todo[0], i, t.flush, 0, SubmitQ(t.node), []);
    s.(submits := s.submits[i := t.(todo := t.todo[1..])], reps := s.reps + [r],
       lists := s.lists[SubmitQ(t.node) := List(s, SubmitQ(t.node)) + [|s.reps|]])
  }

  /** SignalUnblock of a submit task. */
  function Signalled(t: Submit): Submit {
    t.(count := t.count - 1, resumed := if t.count - 1 == 0 then t.resumed + 1 else t.resumed)
  }

  function Next(s: Net, e: Event): Net
    requires Enabled(s, e)
  {
    match e
    case Start(v, targets, flush, parent) => Started(s, v, targets, flush, parent)
    case Emplace(i) => Emplaced(s, i)
    case Pop(v) =>
      var x := s.reps[List(s, SubmitQ(v))[0]];
      Move(s, SubmitQ(v), OutS(v, x.dest)).(pending := s.pending[v := s.pending[v] + One(x.flush)])
    case Send(v, u) => Sent(s, OutS(v, u), WireS(|s.msgs|), Message(v, u))
    case Receive(k) =>
      var r := List(s, WireS(k))[0];
      Move(s.(reps := s.reps[r := s.reps[r].(ret := s.msgs[k].from)]), WireS(k), At(s.msgs[k].to))
    case Execute(r) => Handled(s, r, s.reps[r].place.v, CompleteQ(s.reps[r].place.v))
    case PopDone(v) => Move(s, CompleteQ(v), OutC(v, s.reps[List(s, CompleteQ(v))[0]].ret))
    case SendDone(v, u) => Sent(s, OutC(v, u), WireC(|s.msgs|), Message(v, u))
    case Complete(k) =>
      var x, v := s.reps[List(s, WireC(k))[0]], s.msgs[k].to;
      Move(s, WireC(k), Gone).(pending := s.pending[v := s.pending[v] - One(x.flush)],
                               submits := s.submits[x.submit := Signalled(s.submits[x.submit])])
    case Close(i) =>
      var s1 := s.(submits := s.submits[i := s.submits[i].(closed := true)]);
      match s.submits[i].parent {
        case None => s1
        case Some(r) => Put(s1, r, CompleteQ(s.submits[i].node))
      }
  }
}
