/** The domains a new pool starts with, and where its containers and tasks end up. */
module Placement {
  import opened Domains
  import opened Resolution

  function Major(pool: PoolId, group: u32): DomainId { DomainId(pool, SubDomainId(group, 0)) }
  function Minor(pool: PoolId, group: u32, i: u32): DomainId { DomainId(pool, SubDomainId(group, i)) }

  /** Container i lives on the node chosen round-robin from the affinity list. */
  function Owner(nodes: seq<u32>, i: nat): u32
    requires nodes != [] && i >= 1
  {
    nodes[(i - 1) % |nodes|]
  }

  /** The updates for container i as node `me` issues them. */
  function ContainerOps(pool: PoolId, nodes: seq<u32>, i: u32, me: u32): seq<UpdateInfo>
    requires nodes != [] && i >= 1
  {
    [UpdateInfo(Minor(pool, CONTAINER_SET, i), Expand, IdRange(PHYSICAL_NODE, Owner(nodes, i), 1))]
    + if Owner(nodes, i) == me
      then [UpdateInfo(Minor(pool, LOCAL_CONTAINERS, 1), Expand, IdRange(CONTAINER_SET, i, 1))]
      else []
  }

  function AllContainerOps(pool: PoolId, nodes: seq<u32>, g: u32, me: u32): seq<UpdateInfo>
    requires nodes != []
  {
    if g == 0 then [] else AllContainerOps(pool, nodes, g - 1, me) + ContainerOps(pool, nodes, g, me)
  }

  function MajorOps(pool: PoolId, nodes: seq<u32>): seq<UpdateInfo> {
    [UpdateInfo(Major(pool, CONTAINER_SET), Expand, IdRange(CONTAINER_SET, 1, |nodes| % U32)),
     UpdateInfo(Major(pool, LOCAL_CONTAINERS), Expand, IdRange(LOCAL_CONTAINERS, 1, 1))]
  }

  function DefaultOps(pool: PoolId, nodes: seq<u32>, g: u32, me: u32): seq<UpdateInfo>
    requires nodes != []
  {
    MajorOps(pool, nodes) + AllContainerOps(pool, nodes, g, me)
  }

  lemma {:induction false} ModSmall(x: nat, n: nat)
    requires x < n
    ensures x % n == x
  {}

  lemma {:induction false} ModSelf(n: nat)
    requires n > 0
    ensures n % n == 0
  {}

  // -------------------------------------------- what the updates build

  /** The members of a group numbered 1..n. */
  function Members(group: u32, n: u32): seq<SubDomainId> {
    if n == 0 then [] else Members(group, n - 1) + [SubDomainId(group, n)]
  }

  /** The containers among 1..n that live on `me`, in increasing order. */
  function LocalIds(nodes: seq<u32>, n: u32, me: u32): seq<SubDomainId>
    requires nodes != []
  {
    if n == 0 then []
    else LocalIds(nodes, n - 1, me) + if Owner(nodes, n) == me then [SubDomainId(CONTAINER_SET, n)] else []
  }

  function Single(id: SubDomainId): Entry { Entry(1, {id}, [id]) }

  ghost predicate MajorsAre(m: DomainMap, pool: PoolId, n: nat) {
    && EntryOk(Lookup(m, Major(pool, CONTAINER_SET)))
    && n < U32 && Lookup(m, Major(pool, CONTAINER_SET)).ids == Members(CONTAINER_SET, n)
    && Lookup(m, Major(pool, LOCAL_CONTAINERS)) == Single(SubDomainId(LOCAL_CONTAINERS, 1))
  }

  ghost predicate ContainersAre(m: DomainMap, pool: PoolId, nodes: seq<u32>, g: u32)
    requires nodes != []
  {
    && (forall i: u32 :: 1 <= i <= g ==>
          Lookup(m, Minor(pool, CONTAINER_SET, i)) == Single(SubDomainId(PHYSICAL_NODE, Owner(nodes, i))))
    && (forall i: u32 :: g < i ==> Lookup(m, Minor(pool, CONTAINER_SET, i)) == EMPTY_ENTRY)
  }

  ghost predicate LocalsAre(m: DomainMap, pool: PoolId, ids: seq<SubDomainId>) {
    && EntryOk(Lookup(m, Minor(pool, LOCAL_CONTAINERS, 1)))
    && Lookup(m, Minor(pool, LOCAL_CONTAINERS, 1)).ids == ids
  }

  ghost predicate GroupsAre(m: DomainMap, pool: PoolId) {
    forall d: DomainId :: d.scope == pool && d.sub.major == PHYSICAL_NODE ==> Lookup(m, d) == EMPTY_ENTRY
  }

  /** The entries of a pool over `nodes` with `g` containers as `me` sees them. */
  ghost predicate PoolBuilt(m: DomainMap, pool: PoolId, nodes: seq<u32>, g: u32, me: u32)
    requires nodes != []
  {
    && MajorsAre(m, pool, |nodes|)
    && ContainersAre(m, pool, nodes, g)
    && LocalsAre(m, pool, LocalIds(nodes, g, me))
    && GroupsAre(m, pool)
  }

  /** The map has nothing of the pool. */
  ghost predicate NoPool(m: DomainMap, pool: PoolId) {
    forall d: DomainId :: d.scope == pool ==> Lookup(m, d) == EMPTY_ENTRY
  }

  /** Identifiers leave room for the 32-bit range ends computed from them. */
  ghost predicate Representable(nodes: seq<u32>, g: u32) {
    && 1 <= |nodes| < U32 - 1 && g < U32 - 1
    && forall k :: 0 <= k < |nodes| ==> nodes[k] < U32 - 1
  }

  lemma {:induction false} MembersFacts(group: u32, n: u32)
    ensures |Members(group, n)| == n
    ensures forall k :: 0 <= k < n ==> Members(group, n)[k] == SubDomainId(group, k + 1)
  {
    if n == 0 {
    } else {
      MembersFacts(group, n - 1);
    }
  }

  lemma {:induction false} LocalIdsFacts(nodes: seq<u32>, n: u32, me: u32)
    requires nodes != []
    ensures forall id :: id in LocalIds(nodes, n, me) <==>
              id.major == CONTAINER_SET && 1 <= id.minor <= n && Owner(nodes, id.minor) == me
    ensures forall i, j :: 0 <= i < j < |LocalIds(nodes, n, me)| ==>
              LocalIds(nodes, n, me)[i].minor < LocalIds(nodes, n, me)[j].minor
  {
    if n == 0 {
    } else {
      LocalIdsFacts(nodes, n - 1, me);
      var a := LocalIds(nodes, n - 1, me);
      forall i | 0 <= i < |a| ensures a[i].minor < n { assert a[i] in a; }
    }
  }

  lemma {:induction false} ExpandSingle(e: Entry, group: u32, i: u32)
    requires EntryOk(e) && i < U32 - 1
    requires forall id :: id in e.ids && id.major == group ==> id.minor < i
    ensures Expanded(e, IdRange(group, i, 1))
         == Entry(e.size + 1, e.idSet + {SubDomainId(group, i)}, e.ids + [SubDomainId(group, i)])
    ensures EntryOk(Expanded(e, IdRange(group, i, 1)))
  {
    ExpandFromOk(e, group, i, i + 1);
    assert SubDomainId(group, i) !in e.ids;
    var e1 := Entry(e.size + 1, e.idSet + {SubDomainId(group, i)}, e.ids + [SubDomainId(group, i)]);
    assert ExpandFrom(e1, group, i + 1, i + 1) == e1;
  }

  lemma {:induction false} ExpandMembers(group: u32, n: u32)
    requires n < U32 - 1
    ensures var e := Expanded(EMPTY_ENTRY, IdRange(group, 1, n)); EntryOk(e) && e.ids == Members(group, n)
  {
    ModSmall(1 + n, U32);
    ExpandFromOk(EMPTY_ENTRY, group, 1, n + 1);
    ExpandFromFresh(EMPTY_ENTRY, group, 1, n + 1);
    MembersFacts(group, n);
  }

  lemma {:induction false} AppliedTwo(m: DomainMap, ops: seq<UpdateInfo>)
    requires |ops| == 2
    ensures AppliedAll(m, ops) == Applied(Applied(m, ops[0]), ops[1])
  {
    assert ops[1..][1..] == [];
    assert AppliedAll(Applied(Applied(m, ops[0]), ops[1]), []) == Applied(Applied(m, ops[0]), ops[1]);
  }

  lemma {:induction false} MajorsBuilt(m: DomainMap, pool: PoolId, nodes: seq<u32>, me: u32)
    requires Representable(nodes, 0)
    requires NoPool(m, pool)
    ensures PoolBuilt(AppliedAll(m, MajorOps(pool, nodes)), pool, nodes, 0, me)
  {
    hide Expanded, Owner;
    var ops := MajorOps(pool, nodes);
    ModSmall(|nodes|, U32);
    AppliedTwo(m, ops);
    ExpandMembers(CONTAINER_SET, |nodes|);
    ExpandSingle(EMPTY_ENTRY, LOCAL_CONTAINERS, 1);
  }

  lemma {:induction false} ContainerAdded(m: DomainMap, pool: PoolId, nodes: seq<u32>, g: u32)
    requires Representable(nodes, g) && g >= 1
    requires ContainersAre(m, pool, nodes, g - 1)
    ensures var m1 := Applied(m, ContainerOps(pool, nodes, g, 0)[0]);
            && m1 == m[Minor(pool, CONTAINER_SET, g) := Single(SubDomainId(PHYSICAL_NODE, Owner(nodes, g)))]
            && ContainersAre(m1, pool, nodes, g)
  {
    assert Owner(nodes, g) in nodes;
    hide Owner, Expanded;
    var id := SubDomainId(PHYSICAL_NODE, Owner(nodes, g));
    ExpandSingle(EMPTY_ENTRY, PHYSICAL_NODE, id.minor);
    assert EMPTY_ENTRY.idSet + {id} == {id} && EMPTY_ENTRY.ids + [id] == [id];
    assert Lookup(m, Minor(pool, CONTAINER_SET, g)) == EMPTY_ENTRY;
  }

  lemma {:induction false} LocalAdded(m: DomainMap, pool: PoolId, nodes: seq<u32>, g: u32, me: u32)
    requires Representable(nodes, g) && g >= 1 && Owner(nodes, g) == me
    requires LocalsAre(m, pool, LocalIds(nodes, g - 1, me))
    ensures var m1 := Applied(m, ContainerOps(pool, nodes, g, me)[1]);
            && LocalsAre(m1, pool, LocalIds(nodes, g, me))
            && m1.Keys == m.Keys + {Minor(pool, LOCAL_CONTAINERS, 1)}
            && forall d :: d in m && d != Minor(pool, LOCAL_CONTAINERS, 1) ==> m1[d] == m[d]
  {
    hide Owner, Expanded;
    LocalIdsFacts(nodes, g - 1, me);
    ExpandSingle(Lookup(m, Minor(pool, LOCAL_CONTAINERS, 1)), CONTAINER_SET, g);
  }

  lemma {:induction false} ContainerBuilt(m: DomainMap, pool: PoolId, nodes: seq<u32>, g: u32, me: u32)
    requires Representable(nodes, g) && g >= 1
    requires PoolBuilt(m, pool, nodes, g - 1, me)
    ensures PoolBuilt(AppliedAll(m, ContainerOps(pool, nodes, g, me)), pool, nodes, g, me)
  {
    hide Owner, Expanded, EntryOk;
    var ops := ContainerOps(pool, nodes, g, me);
    var m1 := Applied(m, ops[0]);
    ContainerAdded(m, pool, nodes, g);
    if Owner(nodes, g) == me {
      AppliedTwo(m, ops);
      hide Applied;
      LocalAdded(m1, pool, nodes, g, me);
    } else {
      assert ops[1..] == [];
      assert AppliedAll(m, ops) == m1;
    }
  }

  lemma {:induction false} ContainersBuilt(m: DomainMap, pool: PoolId, nodes: seq<u32>, g: u32, me: u32)
    requires Representable(nodes, g)
    requires PoolBuilt(m, pool, nodes, 0, me)
    ensures PoolBuilt(AppliedAll(m, AllContainerOps(pool, nodes, g, me)), pool, nodes, g, me)
  {
    if g == 0 {
    } else {
      ContainersBuilt(m, pool, nodes, g - 1, me);
      var a := AllContainerOps(pool, nodes, g - 1, me);
      AppliedAllAppend(m, a, ContainerOps(pool, nodes, g, me));
      ContainerBuilt(AppliedAll(m, a), pool, nodes, g, me);
    }
  }

  /** Applying the default updates to a map without the pool builds the pool. */
  lemma {:induction false} DefaultOpsBuildPool(m: DomainMap, pool: PoolId, nodes: seq<u32>, g: u32, me: u32)
    requires Representable(nodes, g)
    requires NoPool(m, pool)
    ensures PoolBuilt(AppliedAll(m, DefaultOps(pool, nodes, g, me)), pool, nodes, g, me)
  {
    MajorsBuilt(m, pool, nodes, me);
    AppliedAllAppend(m, MajorOps(pool, nodes), AllContainerOps(pool, nodes, g, me));
    ContainersBuilt(AppliedAll(m, MajorOps(pool, nodes)), pool, nodes, g, me);
  }

  /** Resolving, which may enter empty domains, leaves a pool built. */
  lemma {:induction false} PoolStaysBuilt(m1: DomainMap, m2: DomainMap, pool: PoolId, nodes: seq<u32>, g: u32, me: u32)
    requires nodes != [] && PoolBuilt(m1, pool, nodes, g, me) && SameLookups(m1, m2)
    ensures PoolBuilt(m2, pool, nodes, g, me)
  {
    hide Owner, EntryOk;
    assert Lookup(m1, Minor(pool, LOCAL_CONTAINERS, 1)) == Lookup(m2, Minor(pool, LOCAL_CONTAINERS, 1));
  }

  // ------------------------------------------------ hashing to a container

  function HashContainer(nodes: seq<u32>, h: u32): nat
    requires nodes != []
  {
    1 + h % |nodes|
  }

  function ContainerTarget(nodes: seq<u32>, c: u32): Resolved
    requires nodes != [] && c >= 1
  {
    Resolved(Owner(nodes, c), LocalId(CONTAINER_SET, c))
  }

  lemma {:induction false} SingleResolves(m: DomainMap, pool: PoolId, sub: SubDomainId, id: SubDomainId,
                                          avail: set<SubDomainId>)
    requires id.IsPhysical()
    ensures ResolveIds(m, pool, sub, [id], avail) == Ok([Resolved(id.minor, LocalId(CONTAINER_SET, sub.minor))])
  {
    assert [id][1..] == [];
    assert ResolveIds(m, pool, sub, [id][1..], avail) == Ok([]);
    var r := Resolved(id.minor, LocalId(CONTAINER_SET, sub.minor));
    assert [r] + [] == [r];
  }

  lemma {:induction false} ContainerResolves(m: DomainMap, pool: PoolId, nodes: seq<u32>, g: u32, me: u32, c: u32,
                                             avail: set<SubDomainId>)
    requires nodes != [] && PoolBuilt(m, pool, nodes, g, me)
    requires c >= 1 && SubDomainId(CONTAINER_SET, c) in avail
    ensures ResolveSub(m, pool, SubDomainId(CONTAINER_SET, c), avail)
         == Ok(if c <= g then [ContainerTarget(nodes, c)] else [])
  {
    var sub := SubDomainId(CONTAINER_SET, c);
    if c <= g {
      SingleResolves(m, pool, sub, SubDomainId(PHYSICAL_NODE, Owner(nodes, c)), avail - {sub});
    } else {
      assert Lookup(m, Minor(pool, CONTAINER_SET, c)) == EMPTY_ENTRY;
    }
  }

  /** Any hash, on any node: the one container it selects, on that container's
      owner; or nothing when the list is longer than the number of containers
      and the hash falls beyond them. */
  lemma {:induction false} HashResolves(c: Context, pool: PoolId, nodes: seq<u32>, g: u32, h: u32, full: bool)
    requires nodes != [] && PoolBuilt(c.m, pool, nodes, g, c.node)
    ensures HashContainer(nodes, h) < U32
    ensures Resolve(c, pool, DirectHash(CONTAINER_SET, h), full)
         == Ok(if HashContainer(nodes, h) <= g then [ContainerTarget(nodes, HashContainer(nodes, h))] else [])
  {
    var k := HashContainer(nodes, h);
    MembersFacts(CONTAINER_SET, |nodes|);
    var sub := SubDomainId(CONTAINER_SET, k);
    assert GetSubDomainId(c.m, pool, DirectHash(CONTAINER_SET, h)) == Ok(sub);
    if k <= g {
      assert Lookup(c.m, Minor(pool, CONTAINER_SET, k)).ids != [];
      assert sub in Subs(c.m, pool);
      ContainerResolves(c.m, pool, nodes, g, c.node, k, Subs(c.m, pool));
    } else {
      assert Lookup(c.m, Minor(pool, CONTAINER_SET, k)) == EMPTY_ENTRY;
    }
  }

  /** The query for one container resolves to it, on its owner, if it was made. */
  lemma {:induction false} IdResolves(c: Context, pool: PoolId, nodes: seq<u32>, g: u32, i: u32, full: bool)
    requires nodes != [] && PoolBuilt(c.m, pool, nodes, g, c.node) && i >= 1
    ensures Resolve(c, pool, DirectId(CONTAINER_SET, i), full)
         == Ok(if i <= g then [ContainerTarget(nodes, i)] else [])
  {
    var sub := SubDomainId(CONTAINER_SET, i);
    if i <= g {
      assert Lookup(c.m, Minor(pool, CONTAINER_SET, i)).ids != [];
      assert sub in Subs(c.m, pool);
      ContainerResolves(c.m, pool, nodes, g, c.node, i, Subs(c.m, pool));
    } else {
      assert Lookup(c.m, Minor(pool, CONTAINER_SET, i)) == EMPTY_ENTRY;
    }
  }

  // ---------------------------------------------------- location independence

  /** The query resolves to one container, of this node. */
  predicate ResolvesHere(c: Context, pool: PoolId, q: DomainQuery) {
    var r := Resolve(c, pool, q, false);
    r.Ok? && |r.value| == 1 && r.value[0].node == c.node && {Local, Id} <= r.value[0].dom.flags
  }

  /** A hash resolves to this node exactly if the container it selects was made, here;
      what it is sent on as resolves to the node that receives it. */
  lemma {:induction false} HashResolvesHereIff(c: Context, pool: PoolId, nodes: seq<u32>, g: u32, h: u32)
    requires nodes != [] && PoolBuilt(c.m, pool, nodes, g, c.node)
    ensures var k := HashContainer(nodes, h);
            && (ResolvesHere(c, pool, DirectHash(CONTAINER_SET, h)) <==> k <= g && Owner(nodes, k) == c.node)
            && (k < U32 && ResolvesHere(c, pool, LocalId(CONTAINER_SET, k)))
  {
    hide ResolveMinor, ResolveMajor;
    HashResolves(c, pool, nodes, g, h, false);
  }

  datatype Fate = Runs(node: u32, container: u32) | Spreads | Lost | Travelling

  /** Follow a task that may still be sent `hops` times. Resolved to one container
      of this node it runs here, unless it is marked remote; resolved to a single
      target it is sent there, carrying the resolved query and unmarked. */
  function Follow(view: u32 -> Context, at: u32, pool: PoolId, q: DomainQuery, marked: bool, hops: nat): Fate
    decreases hops
  {
    var r := Resolve(view(at), pool, q, false);
    if r.Err? || r.value == [] then Lost
    else if !marked && ResolvesHere(view(at), pool, q) then Runs(at, r.value[0].dom.lo)
    else if |r.value| > 1 then Spreads
    else if hops == 0 then Travelling
    else Follow(view, r.value[0].node, pool, r.value[0].dom, false, hops - 1)
  }

  /** From any node, marked remote or not, a hashed task runs in the container its
      hash selects, on the container's owner, after at most one hop; it is lost
      exactly when that container was not made. */
  lemma {:induction false} HashRoutingIsLocationIndependent(view: u32 -> Context, a: u32, pool: PoolId,
                                                            nodes: seq<u32>, g: u32,
                                         h: u32, marked: bool)
    requires nodes != []
    requires forall v: u32 :: view(v).node == v && PoolBuilt(view(v).m, pool, nodes, g, v)
    ensures var c := HashContainer(nodes, h);
            Follow(view, a, pool, DirectHash(CONTAINER_SET, h), marked, 1)
            == if c <= g then Runs(Owner(nodes, c), c) else Lost
  {
    HashResolves(view(a), pool, nodes, g, h, false);
    if HashContainer(nodes, h) <= g {
      var t := ContainerTarget(nodes, HashContainer(nodes, h));
      var b := t.node;
      assert {Local, Id} <= t.dom.flags;
      assert Resolve(view(b), pool, t.dom, false) == Ok([Resolved(b, t.dom)]);
      assert Follow(view, b, pool, t.dom, false, 0) == Runs(b, t.dom.lo);
    }
  }

  ghost predicate MeetsDesign(view: u32 -> Context, a: u32, pool: PoolId, nodes: seq<u32>, g: u32, h: u32)
    requires nodes != [] && g >= 1
  {
    Follow(view, a, pool, DirectHash(CONTAINER_SET, h), false, 1) == Runs(Owner(nodes, 1 + h % g), 1 + h % g)
  }

  /** A list shorter than the number of containers: hash |nodes| starts over too early. */
  lemma {:induction false} ShortListMisses(view: u32 -> Context, a: u32, pool: PoolId, nodes: seq<u32>, g: u32)
    requires 1 <= |nodes| < g
    requires forall v: u32 :: view(v).node == v && PoolBuilt(view(v).m, pool, nodes, g, v)
    ensures !MeetsDesign(view, a, pool, nodes, g, |nodes|)
  {
    var h: u32 := |nodes|;
    ModSelf(h);
    ModSmall(h, g);
    HashRoutingIsLocationIndependent(view, a, pool, nodes, g, h, false);
  }

  /** A longer list: hash g selects a container that was never made. */
  lemma {:induction false} LongListLoses(view: u32 -> Context, a: u32, pool: PoolId, nodes: seq<u32>, g: u32)
    requires 1 <= g < |nodes|
    requires forall v: u32 :: view(v).node == v && PoolBuilt(view(v).m, pool, nodes, g, v)
    ensures Follow(view, a, pool, DirectHash(CONTAINER_SET, g), false, 1) == Lost
  {
    ModSmall(g, |nodes|);
    HashRoutingIsLocationIndependent(view, a, pool, nodes, g, g, false);
  }

  /** The design asks for container 1 + h mod g. The program takes 1 + h mod the
      length of the affinity list, so it meets the design for every hash exactly
      when the list is as long as the number of containers. */
  lemma {:induction false} HashMeetsDesignIff(view: u32 -> Context, a: u32, pool: PoolId, nodes: seq<u32>, g: u32)
    requires 1 <= |nodes| < U32 && g >= 1
    requires forall v: u32 :: view(v).node == v && PoolBuilt(view(v).m, pool, nodes, g, v)
    ensures (forall h: u32 :: MeetsDesign(view, a, pool, nodes, g, h)) <==> |nodes| == g
  {
    if |nodes| == g {
      forall h: u32 ensures MeetsDesign(view, a, pool, nodes, g, h) {
        HashRoutingIsLocationIndependent(view, a, pool, nodes, g, h, false);
      }
    } else if |nodes| < g {
      ShortListMisses(view, a, pool, nodes, g);
    } else {
      LongListLoses(view, a, pool, nodes, g);
      assert !MeetsDesign(view, a, pool, nodes, g, g);
    }
  }

  // ------------------------------------------------------- local containers

  /** The loop of GetLocalContainers from member i on. */
  function LocalFrom(c: Context, scope: PoolId, i: nat, size: nat): Result<seq<SubDomainId>>
    decreases size - i
  {
    if i >= size then Ok([])
    else
      var r := Resolve(c, scope, DirectHash(CONTAINER_SET, i % U32), true);
      if r.Err? then Err(r.error)
      else
        var rest := LocalFrom(c, scope, i + 1, size);
        if rest.Err? then rest
        else if |r.value| == 1 && r.value[0].node == c.node
          then Ok([SubDomainId(CONTAINER_SET, r.value[0].dom.lo)] + rest.value)
        else rest
  }

  function GetLocal(c: Context, scope: PoolId): Result<seq<SubDomainId>> {
    LocalFrom(c, scope, 0, Lookup(c.m, Major(scope, CONTAINER_SET)).size)
  }

  /** One turn of the loop over the members. */
  lemma {:induction false} MemberResolves(c: Context, pool: PoolId, nodes: seq<u32>, g: u32, i: nat)
    requires nodes != [] && PoolBuilt(c.m, pool, nodes, g, c.node) && i < |nodes|
    ensures Resolve(c, pool, DirectHash(CONTAINER_SET, i % U32), true)
         == Ok(if i + 1 <= g then [ContainerTarget(nodes, i + 1)] else [])
  {
    assert |nodes| < U32;
    hide PoolBuilt, Resolve, Owner;
    ModSmall(i, |nodes|);
    ModSmall(i, U32);
    HashResolves(c, pool, nodes, g, i, true);
  }

  /** The containers i+1..n that live on `me`. */
  function LocalBetween(nodes: seq<u32>, i: nat, n: u32, me: u32): seq<SubDomainId>
    requires nodes != []
    decreases n - i
  {
    if i >= n then []
    else (if Owner(nodes, i + 1) == me then [SubDomainId(CONTAINER_SET, i + 1)] else [])
         + LocalBetween(nodes, i + 1, n, me)
  }

  lemma {:induction false} LocalIdsSplit(nodes: seq<u32>, i: nat, n: u32, me: u32)
    requires nodes != [] && i <= n
    ensures LocalIds(nodes, i, me) + LocalBetween(nodes, i, n, me) == LocalIds(nodes, n, me)
    decreases n - i
  {
    hide Owner;
    if i >= n {
    } else {
      LocalIdsSplit(nodes, i + 1, n, me);
      var one := if Owner(nodes, i + 1) == me then [SubDomainId(CONTAINER_SET, i + 1)] else [];
      var rest := LocalBetween(nodes, i + 1, n, me);
      assert LocalIds(nodes, i, me) + (one + rest) == (LocalIds(nodes, i, me) + one) + rest;
    }
  }

  lemma {:induction false} LocalFromIs(c: Context, pool: PoolId, nodes: seq<u32>, g: u32, i: nat)
    requires nodes != [] && PoolBuilt(c.m, pool, nodes, g, c.node) && i <= |nodes|
    ensures LocalFrom(c, pool, i, |nodes|) == Ok(LocalBetween(nodes, i, Min(|nodes|, g), c.node))
    decreases |nodes| - i
  {
    hide Resolve, Owner;
    if i >= |nodes| {
    } else {
      MemberResolves(c, pool, nodes, g, i);
      LocalFromIs(c, pool, nodes, g, i + 1);
      var rest := LocalBetween(nodes, i + 1, Min(|nodes|, g), c.node);
      assert [] + rest == rest;
      assert i >= g ==> rest == [];
    }
  }

  /** GetLocalContainers lists the containers numbered up to the list length and
      up to g whose round-robin owner is this node. */
  lemma {:induction false} GetLocalIs(c: Context, pool: PoolId, nodes: seq<u32>, g: u32)
    requires nodes != [] && PoolBuilt(c.m, pool, nodes, g, c.node)
    ensures GetLocal(c, pool) == Ok(LocalIds(nodes, Min(|nodes|, g), c.node))
  {
    hide LocalFrom, LocalBetween, Owner;
    MembersFacts(CONTAINER_SET, |nodes|);
    LocalFromIs(c, pool, nodes, g, 0);
    LocalIdsSplit(nodes, 0, Min(|nodes|, g), c.node);
    var all := LocalBetween(nodes, 0, Min(|nodes|, g), c.node);
    assert LocalIds(nodes, 0, c.node) + all == all;
  }

  /** Over all nodes the results are a partition: container i is listed on node v
      exactly when v owns it, no node lists it twice, and nothing else is listed. */
  lemma {:induction false} LocalContainersPartition(view: u32 -> Context, pool: PoolId, nodes: seq<u32>, g: u32)
    requires nodes != []
    requires forall v: u32 :: view(v).node == v && PoolBuilt(view(v).m, pool, nodes, g, v)
    ensures forall v: u32 :: GetLocal(view(v), pool).Ok?
    ensures forall v: u32, id :: id in GetLocal(view(v), pool).value <==>
              id.major == CONTAINER_SET && 1 <= id.minor <= Min(|nodes|, g) && Owner(nodes, id.minor) == v
    ensures forall v: u32, i, j :: 0 <= i < j < |GetLocal(view(v), pool).value| ==>
              GetLocal(view(v), pool).value[i] != GetLocal(view(v), pool).value[j]
  {
    forall v: u32
      ensures GetLocal(view(v), pool) == Ok(LocalIds(nodes, Min(|nodes|, g), v))
    {
      GetLocalIs(view(v), pool, nodes, g);
    }
    forall v: u32, id
      ensures id in GetLocal(view(v), pool).value <==>
              id.major == CONTAINER_SET && 1 <= id.minor <= Min(|nodes|, g) && Owner(nodes, id.minor) == v
    {
      LocalIdsFacts(nodes, Min(|nodes|, g), v);
    }
    forall v: u32, i, j | 0 <= i < j < |GetLocal(view(v), pool).value|
      ensures GetLocal(view(v), pool).value[i] != GetLocal(view(v), pool).value[j]
    {
      LocalIdsFacts(nodes, Min(|nodes|, g), v);
    }
  }

  ghost predicate ListedSomewhere(view: u32 -> Context, pool: PoolId, i: u32) {
    exists v: u32 :: GetLocal(view(v), pool).Ok? && SubDomainId(CONTAINER_SET, i) in GetLocal(view(v), pool).value
  }

  /** The lists partition all containers 1..g exactly when the affinity list is at
      least that long: the containers beyond its length are on no node's list. */
  lemma {:induction false} LocalListsCoverIff(view: u32 -> Context, pool: PoolId, nodes: seq<u32>, g: u32)
    requires nodes != []
    requires forall v: u32 :: view(v).node == v && PoolBuilt(view(v).m, pool, nodes, g, v)
    ensures forall i: u32 :: |nodes| < i <= g ==> !ListedSomewhere(view, pool, i)
    ensures (forall i: u32 :: 1 <= i <= g ==> ListedSomewhere(view, pool, i)) <==> g <= |nodes|
  {
    LocalContainersPartition(view, pool, nodes, g);
    hide PoolBuilt, GetLocal;
    forall i: u32 | 1 <= i <= g && i <= |nodes| ensures ListedSomewhere(view, pool, i) {
      assert SubDomainId(CONTAINER_SET, i) in GetLocal(view(Owner(nodes, i)), pool).value;
    }
    if g > |nodes| { assert !ListedSomewhere(view, pool, g); }
  }

  // ------------------------------------------ the LocalContainers domain

  function TargetsOn(ids: seq<SubDomainId>, me: u32): seq<Resolved> {
    seq(|ids|, k requires 0 <= k < |ids| => Resolved(me, LocalId(CONTAINER_SET, ids[k].minor)))
  }

  lemma {:induction false} LocalIdResolves(m: DomainMap, pool: PoolId, nodes: seq<u32>, g: u32, me: u32,
                                           id: SubDomainId, avail: set<SubDomainId>)
    requires nodes != [] && PoolBuilt(m, pool, nodes, g, me) && id in LocalIds(nodes, g, me) && id in avail
    ensures !id.IsPhysical()
    ensures ResolveSub(m, pool, id, avail) == Ok([Resolved(me, LocalId(CONTAINER_SET, id.minor))])
  {
    hide Owner, ResolveSub, PoolBuilt, LocalIds;
    LocalIdsFacts(nodes, g, me);
    ContainerResolves(m, pool, nodes, g, me, id.minor, avail);
  }

  lemma {:induction false} LocalIdsResolve(m: DomainMap, pool: PoolId, nodes: seq<u32>, g: u32, me: u32,
                                           sub: SubDomainId, ids: seq<SubDomainId>, avail: set<SubDomainId>)
    requires nodes != [] && PoolBuilt(m, pool, nodes, g, me)
    requires forall k :: 0 <= k < |ids| ==> ids[k] in LocalIds(nodes, g, me) && ids[k] in avail
    ensures ResolveIds(m, pool, sub, ids, avail) == Ok(TargetsOn(ids, me))
    decreases |ids|
  {
    hide Owner, ResolveSub, PoolBuilt, LocalIds;
    if ids == [] {
    } else {
      LocalIdResolves(m, pool, nodes, g, me, ids[0], avail);
      LocalIdsResolve(m, pool, nodes, g, me, sub, ids[1..], avail);
      assert [Resolved(me, LocalId(CONTAINER_SET, ids[0].minor))] + TargetsOn(ids[1..], me) == TargetsOn(ids, me);
    }
  }

  /** Every local hash resolves to all containers of this node, in increasing order. */
  lemma {:induction false} LocalHashResolves(c: Context, pool: PoolId, nodes: seq<u32>, g: u32, h: u32, full: bool)
    requires nodes != [] && PoolBuilt(c.m, pool, nodes, g, c.node)
    ensures Resolve(c, pool, LocalHash(h), full) == Ok(TargetsOn(LocalIds(nodes, g, c.node), c.node))
  {
    hide Owner;
    var sub := SubDomainId(LOCAL_CONTAINERS, 1);
    var me := c.node;
    var avail := Subs(c.m, pool);
    assert GetSubDomainId(c.m, pool, LocalHash(h)) == Ok(sub);
    var ids := LocalIds(nodes, g, me);
    LocalIdsFacts(nodes, g, me);
    if ids != [] {
      assert Lookup(c.m, DomainId(pool, sub)).ids == ids;
      assert sub in avail;
      forall k | 0 <= k < |ids| ensures ids[k] in avail - {sub} {
        assert ids[k] in ids;
        assert Lookup(c.m, Minor(pool, CONTAINER_SET, ids[k].minor)).ids != [];
      }
      LocalIdsResolve(c.m, pool, nodes, g, me, sub, ids, avail - {sub});
      assert ResolveSub(c.m, pool, sub, avail) == Ok(TargetsOn(ids, me));
    } else {
      assert TargetsOn(ids, me) == [];
      assert ResolveSub(c.m, pool, sub, avail) == Ok([]);
    }
  }

  /** The LocalContainers domain and GetLocalContainers name the same containers
      in the same order exactly when no container beyond the affinity list's
      length lives here; in particular whenever g is at most that length. */
  lemma {:induction false} LocalIndexAgreesIff(c: Context, pool: PoolId, nodes: seq<u32>, g: u32, h: u32)
    requires nodes != [] && PoolBuilt(c.m, pool, nodes, g, c.node)
    ensures GetLocal(c, pool).Ok?
    ensures Resolve(c, pool, LocalHash(h), false) == Ok(TargetsOn(GetLocal(c, pool).value, c.node))
            <==> forall i: u32 :: |nodes| < i <= g ==> Owner(nodes, i) != c.node
  {
    hide Resolve, GetLocal, Owner, PoolBuilt;
    GetLocalIs(c, pool, nodes, g);
    LocalHashResolves(c, pool, nodes, g, h, false);
    var me := c.node;
    var n := Min(|nodes|, g);
    var short, long := LocalIds(nodes, n, me), LocalIds(nodes, g, me);
    LocalIdsFacts(nodes, n, me);
    LocalIdsFacts(nodes, g, me);
    if forall i: u32 :: |nodes| < i <= g ==> Owner(nodes, i) != me {
      SkipsForeign(nodes, n, g, me);
    } else {
      var i: u32 :| |nodes| < i <= g && Owner(nodes, i) == me;
      var id := SubDomainId(CONTAINER_SET, i);
      assert id in long && id !in short;
      var k :| 0 <= k < |long| && long[k] == id;
      assert TargetsOn(long, me)[k].dom.lo == i;
      assert k < |short| ==> short[k] in short;
    }
  }

  lemma {:induction false} SkipsForeign(nodes: seq<u32>, n: u32, g: u32, me: u32)
    requires nodes != [] && n <= g
    requires forall i: u32 :: n < i <= g ==> Owner(nodes, i) != me
    ensures LocalIds(nodes, n, me) == LocalIds(nodes, g, me)
    decreases g
  {
    if n >= g {
    } else {
      SkipsForeign(nodes, n, g - 1, me);
    }
  }
}
