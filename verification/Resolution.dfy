/** Query resolution of include/chimaera/network/rpc.h: from a domain query to
    the nodes and containers it stands for. */
module Resolution {
  import opened Domains

  datatype Flag = Local | Direct | Global | Schedule | Id | Hash | Range
                | Broadcast | RepUntilSuccess | ChooseOne | ForwardToLeader

  /** `lo` is the word shared by the hash, the id and the range offset of the
      selection union; `hi` is the range count. */
  datatype DomainQuery = DomainQuery(flags: set<Flag>, group: u32, lo: u32, hi: u32) {
    function IterFlags(): set<Flag> {
      flags * {Broadcast, RepUntilSuccess, ChooseOne, ForwardToLeader}
    }
  }

  function LocalId(group: u32, id: u32): DomainQuery { DomainQuery({Local, Id}, group, id, 0) }
  function DirectId(group: u32, id: u32): DomainQuery { DomainQuery({Direct, Id, ChooseOne}, group, id, 0) }
  function DirectHash(group: u32, hash: u32): DomainQuery { DomainQuery({Direct, Hash, Broadcast}, group, hash, 0) }
  function LocalHash(hash: u32): DomainQuery { DirectHash(LOCAL_CONTAINERS, hash) }
  function GlobalQuery(group: u32, iter: set<Flag>): DomainQuery { DomainQuery({Global} + iter, group, 0, 0) }
  function RangeQuery(group: u32, off: u32, count: u32, iter: set<Flag>): DomainQuery {
    DomainQuery({Global, Range} + iter, group, off, count)
  }

  datatype Resolved = Resolved(node: u32, dom: DomainQuery)

  /** NoMember: the exception of a look-up in a domain that is missing or empty.
      OutOfRange: the stored size overstates the id list. Cycle: the program would
      recurse for ever. NoLeader: the leader of an empty domain is read. */
  datatype Error = NoMember | OutOfRange | Cycle | NoLeader

  datatype Result<+T> = Ok(value: T) | Err(error: Error)

  /** What a node knows: itself, the number of hosts and its domain map. */
  datatype Context = Context(node: u32, hosts: nat, m: DomainMap)

  const NEIGHBORHOOD: nat := 32

  function Then(a: Result<seq<Resolved>>, b: Result<seq<Resolved>>): Result<seq<Resolved>> {
    if a.Err? then a else if b.Err? then b else Ok(a.value + b.value)
  }

  lemma {:induction false} ThenAssociative(a: Result<seq<Resolved>>, b: Result<seq<Resolved>>, c: Result<seq<Resolved>>)
    ensures Then(Then(a, b), c) == Then(a, Then(b, c))
  {
    if a.Ok? && b.Ok? && c.Ok? {
      assert (a.value + b.value) + c.value == a.value + (b.value + c.value);
    }
  }

  // ------------------------------------------------------------- look-ups

  function GetEntry(e: Entry, hash: u32): Result<SubDomainId> {
    if e.size == 0 then Err(NoMember)
    else if hash % e.size >= |e.ids| then Err(OutOfRange)
    else Ok(e.ids[hash % e.size])
  }

  function GetSubDomainId(m: DomainMap, scope: PoolId, q: DomainQuery): Result<SubDomainId> {
    if Id in q.flags then Ok(SubDomainId(q.group, q.lo))
    else if Hash in q.flags then GetEntry(Lookup(m, DomainId(scope, SubDomainId(q.group, 0))), q.lo)
    else Ok(SubDomainId(q.group, 0))
  }

  // --------------------------------------------------------- minor domains

  /** The sub-domains that have members. */
  function Subs(m: DomainMap, scope: PoolId): set<SubDomainId> {
    set d | d in m && d.scope == scope && m[d].ids != [] :: d.sub
  }

  /** Resolve one sub-domain. `avail` holds the sub-domains not being resolved
      already; an id leads to itself, whether it names a container or a group. */
  function ResolveSub(m: DomainMap, scope: PoolId, sub: SubDomainId, avail: set<SubDomainId>): Result<seq<Resolved>>
    decreases avail, 0
  {
    var ids := Lookup(m, DomainId(scope, sub)).ids;
    if ids == [] then Ok([])
    else if sub !in avail then Err(Cycle)
    else ResolveIds(m, scope, sub, ids, avail - {sub})
  }

  function ResolveIds(m: DomainMap, scope: PoolId, sub: SubDomainId, ids: seq<SubDomainId>, avail: set<SubDomainId>)
    : Result<seq<Resolved>>
    decreases avail, 1 + |ids|
  {
    if ids == [] then Ok([])
    else Then(ResolveId(m, scope, sub, ids[0], avail), ResolveIds(m, scope, sub, ids[1..], avail))
  }

  function ResolveId(m: DomainMap, scope: PoolId, sub: SubDomainId, id: SubDomainId, avail: set<SubDomainId>)
    : Result<seq<Resolved>>
    decreases avail, 1
  {
    if id.IsPhysical() then Ok([Resolved(id.minor, LocalId(CONTAINER_SET, sub.minor))])
    else ResolveSub(m, scope, id, avail)
  }

  function ResolveMinorIn(m: DomainMap, scope: PoolId, q: DomainQuery, avail: set<SubDomainId>): Result<seq<Resolved>> {
    var sub := GetSubDomainId(m, scope, q);
    if sub.Err? then Err(sub.error) else ResolveSub(m, scope, sub.value, avail)
  }

  function ResolveMinor(m: DomainMap, scope: PoolId, q: DomainQuery): Result<seq<Resolved>> {
    ResolveMinorIn(m, scope, q, Subs(m, scope))
  }

  // --------------------------------------------------------- major domains

  /** The members off, off+1, ... of a group, `count` of them; the hash that
      selects a member is a 32-bit counter. */
  function ResolveRun(m: DomainMap, scope: PoolId, group: u32, off: nat, count: nat): Result<seq<Resolved>>
    decreases count
  {
    if count == 0 then Ok([])
    else Then(ResolveMinor(m, scope, DirectHash(group, off % U32)), ResolveRun(m, scope, group, off + 1, count - 1))
  }

  function ForwardNode(c: Context): int {
    if c.hosts / NEIGHBORHOOD < 2 then c.node else c.hosts / NEIGHBORHOOD * NEIGHBORHOOD
  }

  function Min(a: nat, b: nat): nat { if a < b then a else b }

  /** The sub-queries a large range is divided into, NEIGHBORHOOD members each. */
  function SplitRun(node: u32, group: u32, off: nat, count: nat, iter: set<Flag>): seq<Resolved>
    decreases count
  {
    if count == 0 then []
    else
      var n := Min(NEIGHBORHOOD, count);
      [Resolved(node, RangeQuery(group, off % U32, n, iter))] + SplitRun(node, group, off + n, count - n, iter)
  }

  function ResolveMajor(c: Context, scope: PoolId, q: DomainQuery, full: bool): Result<seq<Resolved>> {
    var sub := GetSubDomainId(c.m, scope, q);
    if sub.Err? then Err(sub.error)
    else
      var off := if Range in q.flags then q.lo else 0;
      var count := if Range in q.flags then q.hi else Lookup(c.m, DomainId(scope, sub.value)).size;
      if count <= NEIGHBORHOOD || full then ResolveRun(c.m, scope, q.group, off, count)
      else Ok(SplitRun(ForwardNode(c) % U32, q.group, off, count, q.IterFlags()))
  }

  function Resolve(c: Context, scope: PoolId, q: DomainQuery, full: bool): Result<seq<Resolved>> {
    if {Local, Id} <= q.flags then Ok([Resolved(c.node, q)])
    else if ForwardToLeader in q.flags then
      var r := ResolveMinor(c.m, scope, DomainQuery({Direct, Hash} + q.flags, q.group, 1, 0));
      if r.Err? then r
      else if r.value == [] then Err(NoLeader)
      else Ok([Resolved(r.value[0].node, q.(flags := q.flags - {ForwardToLeader}))] + r.value[1..])
    else if Direct in q.flags then ResolveMinor(c.m, scope, q)
    else if Global in q.flags then ResolveMajor(c, scope, q, full)
    else Ok([])
  }

  // --------------------------------- empty entries make no difference

  /** The maps differ at most in entries without members, as a look-up that inserts
      what it does not find leaves them. */
  ghost predicate SameLookups(m1: DomainMap, m2: DomainMap) {
    forall d :: Lookup(m1, d) == Lookup(m2, d)
  }

  lemma {:induction false} SameSub(m1: DomainMap, m2: DomainMap, scope: PoolId, sub: SubDomainId,
                                   avail: set<SubDomainId>)
    requires SameLookups(m1, m2)
    ensures ResolveSub(m1, scope, sub, avail) == ResolveSub(m2, scope, sub, avail)
    decreases avail, 0
  {
    var ids := Lookup(m1, DomainId(scope, sub)).ids;
    assert ids == Lookup(m2, DomainId(scope, sub)).ids;
    if ids != [] && sub in avail {
      SameIds(m1, m2, scope, sub, ids, avail - {sub});
    }
  }

  lemma {:induction false} SameIds(m1: DomainMap, m2: DomainMap, scope: PoolId, sub: SubDomainId,
                                   ids: seq<SubDomainId>, avail: set<SubDomainId>)
    requires SameLookups(m1, m2)
    ensures ResolveIds(m1, scope, sub, ids, avail) == ResolveIds(m2, scope, sub, ids, avail)
    decreases avail, 1 + |ids|
  {
    if ids == [] {
    } else {
      if !ids[0].IsPhysical() { SameSub(m1, m2, scope, ids[0], avail); }
      SameIds(m1, m2, scope, sub, ids[1..], avail);
    }
  }

  lemma {:induction false} SameMinorIn(m1: DomainMap, m2: DomainMap, scope: PoolId, q: DomainQuery,
                                       avail: set<SubDomainId>)
    requires SameLookups(m1, m2)
    ensures GetSubDomainId(m1, scope, q) == GetSubDomainId(m2, scope, q)
    ensures ResolveMinorIn(m1, scope, q, avail) == ResolveMinorIn(m2, scope, q, avail)
  {
    var major := DomainId(scope, SubDomainId(q.group, 0));
    assert Lookup(m1, major) == Lookup(m2, major);
    var sub := GetSubDomainId(m1, scope, q);
    if sub.Ok? { SameSub(m1, m2, scope, sub.value, avail); }
  }

  lemma {:induction false} SameSubs(m1: DomainMap, m2: DomainMap, scope: PoolId)
    requires SameLookups(m1, m2)
    ensures Subs(m1, scope) == Subs(m2, scope)
  {
    forall id ensures id in Subs(m1, scope) <==> id in Subs(m2, scope) {
      var d := DomainId(scope, id);
      assert Lookup(m1, d) == Lookup(m2, d);
      assert id in Subs(m1, scope) <==> Lookup(m1, d).ids != [];
      assert id in Subs(m2, scope) <==> Lookup(m2, d).ids != [];
    }
  }

  lemma {:induction false} SameRun(m1: DomainMap, m2: DomainMap, scope: PoolId, group: u32, off: nat, count: nat)
    requires SameLookups(m1, m2)
    ensures ResolveRun(m1, scope, group, off, count) == ResolveRun(m2, scope, group, off, count)
    decreases count
  {
    if count == 0 {
    } else {
      hide SameLookups, ResolveMinorIn;
      SameSubs(m1, m2, scope);
      SameMinorIn(m1, m2, scope, DirectHash(group, off % U32), Subs(m1, scope));
      SameRun(m1, m2, scope, group, off + 1, count - 1);
    }
  }

  /** Inserting empty entries changes no answer to any query. */
  lemma {:induction false} EmptyEntriesAreInvisible(c1: Context, c2: Context, scope: PoolId, q: DomainQuery, full: bool)
    requires SameLookups(c1.m, c2.m) && c1.node == c2.node && c1.hosts == c2.hosts
    ensures Resolve(c1, scope, q, full) == Resolve(c2, scope, q, full)
  {
    SameSubs(c1.m, c2.m, scope);
    SameMinorIn(c1.m, c2.m, scope, q, Subs(c1.m, scope));
    SameMinorIn(c1.m, c2.m, scope, DomainQuery({Direct, Hash} + q.flags, q.group, 1, 0), Subs(c1.m, scope));
    var sub := GetSubDomainId(c1.m, scope, q);
    if sub.Ok? {
      var d := DomainId(scope, sub.value);
      assert Lookup(c1.m, d) == Lookup(c2.m, d);
      var off := if Range in q.flags then q.lo else 0;
      var count := if Range in q.flags then q.hi else Lookup(c1.m, d).size;
      hide SameLookups, ResolveMinorIn, ResolveRun;
      SameRun(c1.m, c2.m, scope, q.group, off, count);
    }
  }
}
