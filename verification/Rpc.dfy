/** RpcContext: the resolving and updating loops of include/chimaera/network/rpc.h,
    each proved to compute the function that specifies it. */
module Rpc {
  import opened Domains
  import opened Resolution
  import opened Placement

  class RpcContext {
    const nodeId: u32
    const hosts: nat
    var domainMap: DomainMap

    constructor (nodeId: u32, hosts: nat)
      ensures this.nodeId == nodeId && this.hosts == hosts && domainMap == map[]
    {
      this.nodeId := nodeId;
      this.hosts := hosts;
      domainMap := map[];
    }

    function Ctx(): Context reads this { Context(nodeId, hosts, domainMap) }

    /** All updates, in order. */
    method UpdateDomains(ops: seq<UpdateInfo>)
      modifies this
      ensures domainMap == AppliedAll(old(domainMap), ops)
      ensures old(MapOk(domainMap)) && (forall k :: 0 <= k < |ops| ==> ops[k].op.Expand?) ==> MapOk(domainMap)
    {
      for k := 0 to |ops|
        invariant AppliedAll(domainMap, ops[k..]) == AppliedAll(old(domainMap), ops)
      {
        var d := ops[k].domain;
        var e := if d in domainMap then domainMap[d] else EMPTY_ENTRY;
        match ops[k].op {
          case Contract => e := ContractEntry(e, ops[k].range);
          case Expand => e := ExpandEntry(e, ops[k].range);
        }
        assert ops[k..][0] == ops[k] && ops[k..][1..] == ops[k + 1..];
        domainMap := domainMap[d := e];
      }
      if old(MapOk(domainMap)) && forall k :: 0 <= k < |ops| ==> ops[k].op.Expand? {
        ExpandOnlyRunsOk(old(domainMap), ops);
      }
    }

    /** What the map's subscript operator does: a missing domain is entered, empty. */
    method Touch(d: DomainId) returns (e: Entry)
      modifies this
      ensures e == Lookup(old(domainMap), d) && d in domainMap && SameLookups(old(domainMap), domainMap)
    {
      if d !in domainMap {
        domainMap := domainMap[d := EMPTY_ENTRY];
      }
      e := domainMap[d];
    }

    /** Appends the targets of a direct query to `res`. `avail` holds the domains
        that are not being resolved further up the call stack. */
    method ResolveMinorDomain(scope: PoolId, q: DomainQuery, avail: set<SubDomainId>, res: seq<Resolved>)
      returns (r: Result<seq<Resolved>>)
      modifies this
      ensures r == Then(Ok(res), ResolveMinorIn(old(domainMap), scope, q, avail))
      ensures SameLookups(old(domainMap), domainMap)
      decreases avail
    {
      ghost var m := domainMap;
      var id := GetSubDomainId(domainMap, scope, q);
      if id.Err? { return Err(id.error); }
      var sub := id.value;
      var e := Touch(DomainId(scope, sub));
      var ids := e.ids;
      if ids == [] {
        assert res + [] == res;
        return Ok(res);
      }
      if sub !in avail { return Err(Cycle); }
      var rest := avail - {sub};
      var acc := res;
      hide SameLookups;
      for k := 0 to |ids|
        invariant SameLookups(m, domainMap)
        invariant Then(Ok(acc), ResolveIds(m, scope, sub, ids[k..], rest))
               == Then(Ok(res), ResolveIds(m, scope, sub, ids, rest))
      {
        var x := ids[k];
        ghost var one := ResolveId(m, scope, sub, x, rest);
        ghost var tail := ResolveIds(m, scope, sub, ids[k + 1..], rest);
        assert ids[k..][0] == x && ids[k..][1..] == ids[k + 1..];
        ThenAssociative(Ok(acc), one, tail);
        if x.IsPhysical() {
          acc := acc + [Resolved(x.minor, LocalId(CONTAINER_SET, sub.minor))];
        } else {
          var q' := if x.minor > 0 then DirectId(x.major, x.minor) else GlobalQuery(x.major, {Broadcast});
          SameMinorIn(m, domainMap, scope, q', rest);
          ghost var m1 := domainMap;
          var inner := ResolveMinorDomain(scope, q', rest, acc);
          SameTrans(m, m1, domainMap);
          if inner.Err? { return inner; }
          acc := inner.value;
        }
      }
      assert acc + [] == acc;
      r := Ok(acc);
    }

    /** The members off.. of a group, one direct query after the other. */
    method ResolveMembers(scope: PoolId, group: u32, off: u32, count: nat) returns (r: Result<seq<Resolved>>)
      modifies this
      ensures r == ResolveRun(old(domainMap), scope, group, off, count)
      ensures SameLookups(old(domainMap), domainMap)
    {
      hide ResolveMinorIn;
      ghost var m := domainMap;
      var hash: u32 := off;
      var acc: seq<Resolved> := [];
      ghost var all := ResolveRun(m, scope, group, off, count);
      assert all.Ok? ==> [] + all.value == all.value;
      for i := 0 to count
        invariant hash == (off + i) % U32 && SameLookups(m, domainMap)
        invariant Then(Ok(acc), ResolveRun(m, scope, group, off + i, count - i)) == all
      {
        hide SameLookups;
        ghost var q := DirectHash(group, hash);
        ThenAssociative(Ok(acc), ResolveMinor(m, scope, q), ResolveRun(m, scope, group, off + i + 1, count - i - 1));
        SameSubs(m, domainMap, scope);
        SameMinorIn(m, domainMap, scope, q, Subs(m, scope));
        ghost var m1 := domainMap;
        var inner := ResolveMinorDomain(scope, DirectHash(group, hash), Subs(domainMap, scope), acc);
        SameTrans(m, m1, domainMap);
        if inner.Err? { return inner; }
        acc := inner.value;
        NextHash(off + i);
        hash := (hash + 1) % U32;
      }
      assert acc + [] == acc;
      r := Ok(acc);
    }

    /** The smaller range queries a large range is divided into. */
    method SplitMembers(node: u32, group: u32, off: u32, count: nat, iter: set<Flag>) returns (acc: seq<Resolved>)
      ensures acc == SplitRun(node, group, off, count, iter)
    {
      acc := [];
      var i, domOff := 0, off;
      ghost var all := SplitRun(node, group, off, count, iter);
      assert [] + all == all;
      while i < count
        invariant 0 <= i && domOff == off + i
        invariant if i <= count then acc + SplitRun(node, group, domOff, count - i, iter) == all else acc == all
      {
        var rem := Min(NEIGHBORHOOD, count - i);
        var sub := Resolved(node, RangeQuery(group, domOff % U32, rem, iter));
        assert acc + SplitRun(node, group, domOff, count - i, iter)
            == acc + [sub] + SplitRun(node, group, domOff + rem, count - i - rem, iter);
        acc := acc + [sub];
        i, domOff := i + NEIGHBORHOOD, domOff + NEIGHBORHOOD;
        assert i > count ==> acc + [] == acc;
      }
      assert i == count ==> acc + [] == acc;
    }

    method ResolveMajorDomain(scope: PoolId, q: DomainQuery, full: bool) returns (r: Result<seq<Resolved>>)
      modifies this
      ensures r == ResolveMajor(old(Ctx()), scope, q, full)
      ensures SameLookups(old(domainMap), domainMap)
    {
      ghost var m := domainMap;
      var id := GetSubDomainId(domainMap, scope, q);
      if id.Err? { return Err(id.error); }
      var entry := Touch(DomainId(scope, id.value));
      ghost var m1 := domainMap;
      var domOff, domSize := 0, entry.size;
      if Range in q.flags {
        domOff, domSize := q.lo, q.hi;
      }
      if domSize <= NEIGHBORHOOD || full {
        hide SameLookups;
        SameRun(m, m1, scope, q.group, domOff, domSize);
        r := ResolveMembers(scope, q.group, domOff, domSize);
        SameTrans(m, m1, domainMap);
      } else {
        var parts := SplitMembers(ForwardNode(Ctx()) % U32, q.group, domOff, domSize, q.IterFlags());
        r := Ok(parts);
      }
    }

    method ResolveDomainQuery(scope: PoolId, q: DomainQuery, full: bool) returns (r: Result<seq<Resolved>>)
      modifies this
      ensures r == Resolve(old(Ctx()), scope, q, full)
      ensures SameLookups(old(domainMap), domainMap)
    {
      ghost var m := domainMap;
      if {Local, Id} <= q.flags {
        r := Ok([Resolved(nodeId, q)]);
      } else if ForwardToLeader in q.flags {
        var leader := DomainQuery({Direct, Hash} + q.flags, q.group, 1, 0);
        r := ResolveMinorDomain(scope, leader, Subs(domainMap, scope), []);
        ghost var all := ResolveMinor(m, scope, leader);
        assert all.Ok? ==> [] + all.value == all.value;
        if r.Ok? {
          if r.value == [] {
            r := Err(NoLeader);
          } else {
            r := Ok([Resolved(r.value[0].node, q.(flags := q.flags - {ForwardToLeader}))] + r.value[1..]);
          }
        }
      } else if Direct in q.flags {
        r := ResolveMinorDomain(scope, q, Subs(domainMap, scope), []);
        ghost var all := ResolveMinor(m, scope, q);
        assert all.Ok? ==> [] + all.value == all.value;
      } else if Global in q.flags {
        r := ResolveMajorDomain(scope, q, full);
      } else {
        r := Ok([]);
      }
    }

    /** The affinity list is the nodes of the resolved affinity, or every host. */
    method CreateDefaultDomains(pool: PoolId, admin: PoolId, affinity: DomainQuery, globalContainers: u32)
      returns (r: Result<seq<UpdateInfo>>)
      requires 1 <= hosts < U32
      modifies this
      ensures var dom := Resolve(old(Ctx()), admin, affinity, true);
              match dom
              case Err(e) => r == Err(e)
              case Ok(targets) =>
                && r == Ok(DefaultOps(pool, AffinityNodes(targets, hosts), globalContainers, nodeId))
                && forall m :: ListFits(targets, hosts, globalContainers) && NoPool(m, pool) ==>
                     PlacedInTurn(AppliedAll(m, r.value), pool, targets, hosts, globalContainers, nodeId)
      ensures SameLookups(old(domainMap), domainMap)
    {
      var dom := ResolveDomainQuery(admin, affinity, true);
      if dom.Err? { return Err(dom.error); }
      hide SameLookups, Resolve, PlacedInTurn, NoPool, ListFits;
      var nodes := AffinityNodes(dom.value, hosts);
      var ops := MajorOps(pool, nodes);
      var i: u32 := 0;
      assert ops + [] == ops;
      while i < globalContainers
        invariant i <= globalContainers
        invariant ops == MajorOps(pool, nodes) + AllContainerOps(pool, nodes, i, nodeId)
        invariant SameLookups(old(domainMap), domainMap)
      {
        i := i + 1;
        var node := nodes[(i - 1) % |nodes|];
        ghost var before := ops;
        ops := ops + [UpdateInfo(Minor(pool, CONTAINER_SET, i), Expand, IdRange(PHYSICAL_NODE, node, 1))];
        if node == nodeId {
          ops := ops + [UpdateInfo(Minor(pool, LOCAL_CONTAINERS, 1), Expand, IdRange(CONTAINER_SET, i, 1))];
        }
        assert ops == before + ContainerOps(pool, nodes, i, nodeId);
      }
      r := Ok(ops);
      forall m | ListFits(dom.value, hosts, globalContainers) && NoPool(m, pool)
        ensures PlacedInTurn(AppliedAll(m, ops), pool, dom.value, hosts, globalContainers, nodeId)
      {
        DefaultDomainsPlaceInTurn(m, pool, dom.value, hosts, globalContainers, nodeId);
      }
    }

    method GetLocalContainers(scope: PoolId) returns (r: Result<seq<SubDomainId>>)
      modifies this
      ensures r == GetLocal(old(Ctx()), scope)
      ensures SameLookups(old(domainMap), domainMap)
    {
      ghost var c := Ctx();
      var domSize := Lookup(domainMap, Major(scope, CONTAINER_SET)).size;
      var acc: seq<SubDomainId> := [];
      ghost var all := GetLocal(c, scope);
      assert all.Ok? ==> [] + all.value == all.value;
      hide Resolve, LocalFrom, Prepend, SameLookups;
      assert all == Prepend([], LocalFrom(c, scope, 0, domSize)) by { PrependNone(all); }
      for i := 0 to domSize
        invariant SameLookups(c.m, domainMap)
        invariant all == Prepend(acc, LocalFrom(c, scope, i, domSize))
      {
        LocalFromNext(c, scope, i, domSize, acc);
        EmptyEntriesAreInvisible(c, Ctx(), scope, DirectHash(CONTAINER_SET, i % U32), true);
        ghost var m1 := domainMap;
        var t := ResolveDomainQuery(scope, DirectHash(CONTAINER_SET, i % U32), true);
        SameTrans(c.m, m1, domainMap);
        if t.Err? { return Err(t.error); }
        if |t.value| == 1 && t.value[0].node == nodeId {
          acc := acc + [SubDomainId(CONTAINER_SET, t.value[0].dom.lo)];
        }
      }
      LocalFromEnd(c, scope, domSize, acc);
      r := Ok(acc);
    }
  }

  lemma {:induction false} SameTrans(a: DomainMap, b: DomainMap, c: DomainMap)
    requires SameLookups(a, b) && SameLookups(b, c)
    ensures SameLookups(a, c)
  {}

  function AffinityNodes(targets: seq<Resolved>, hosts: nat): (nodes: seq<u32>)
    requires 1 <= hosts < U32
    ensures nodes != []
    ensures targets != [] ==>
              |nodes| == |targets| && forall k :: 0 <= k < |nodes| ==> nodes[k] == targets[k].node
    ensures targets == [] ==> |nodes| == hosts && forall k :: 0 <= k < |nodes| ==> nodes[k] == k + 1
  {
    if targets == [] then seq(hosts, k requires 0 <= k < hosts => k + 1)
    else seq(|targets|, k requires 0 <= k < |targets| => targets[k].node)
  }

  /** The node that container i of a new pool is for: targets taken in turn, or hosts
      taken in turn when the affinity resolves to nothing. */
  function ChosenNode(targets: seq<Resolved>, hosts: nat, i: nat): nat
    requires hosts >= 1 && i >= 1
  {
    if targets == [] then (i - 1) % hosts + 1 else targets[(i - 1) % |targets|].node
  }

  /** Containers 1..g of the pool are each on their chosen node and there are no others;
      the group has a member per target, or per host; and the local index of node `me`
      lists the containers chosen for it. */
  ghost predicate PlacedInTurn(m: DomainMap, pool: PoolId, targets: seq<Resolved>, hosts: nat, g: u32, me: u32)
    requires hosts >= 1
  {
    && (forall i: u32 :: 1 <= i <= g ==>
          var chosen := ChosenNode(targets, hosts, i);
          chosen < U32 && Lookup(m, Minor(pool, CONTAINER_SET, i)).ids == [SubDomainId(PHYSICAL_NODE, chosen)])
    && (forall i: u32 :: i > g ==> Lookup(m, Minor(pool, CONTAINER_SET, i)).ids == [])
    && |Lookup(m, Major(pool, CONTAINER_SET)).ids| == (if targets == [] then hosts else |targets|)
    && (forall id :: id in Lookup(m, Minor(pool, LOCAL_CONTAINERS, 1)).ids <==>
          id.major == CONTAINER_SET && 1 <= id.minor <= g && ChosenNode(targets, hosts, id.minor) == me)
  }

  lemma {:induction false} ChosenIsOwner(targets: seq<Resolved>, hosts: nat, i: nat)
    requires 1 <= hosts < U32 && i >= 1
    ensures ChosenNode(targets, hosts, i) == Owner(AffinityNodes(targets, hosts), i)
  {}

  /** The affinity list leaves room for range ends in 32 bits. */
  ghost predicate ListFits(targets: seq<Resolved>, hosts: nat, g: u32)
    requires 1 <= hosts < U32
  {
    Representable(AffinityNodes(targets, hosts), g)
  }

  /** Applying what CreateDefaultDomains returns to a map without the pool places its
      containers in turn on the nodes that the affinity resolved to. */
  lemma {:induction false} DefaultDomainsPlaceInTurn(m: DomainMap, pool: PoolId, targets: seq<Resolved>, hosts: nat,
                                                     g: u32, me: u32)
    requires 1 <= hosts < U32 && ListFits(targets, hosts, g)
    requires NoPool(m, pool)
    ensures PlacedInTurn(AppliedAll(m, DefaultOps(pool, AffinityNodes(targets, hosts), g, me)), pool, targets, hosts,
                         g, me)
  {
    hide AffinityNodes, Owner, ChosenNode, DefaultOps;
    var nodes := AffinityNodes(targets, hosts);
    DefaultOpsBuildPool(m, pool, nodes, g, me);
    MembersFacts(CONTAINER_SET, |nodes|);
    LocalIdsFacts(nodes, g, me);
    forall i: u32 | i >= 1 ensures ChosenNode(targets, hosts, i) == Owner(nodes, i) {
      ChosenIsOwner(targets, hosts, i);
    }
  }

  function Prepend(a: seq<SubDomainId>, r: Result<seq<SubDomainId>>): Result<seq<SubDomainId>> {
    if r.Err? then r else Ok(a + r.value)
  }

  lemma {:induction false} PrependNone(r: Result<seq<SubDomainId>>)
    ensures Prepend([], r) == r
  {
    if r.Ok? { assert [] + r.value == r.value; }
  }

  /** One turn of the loop of GetLocalContainers. */
  lemma {:induction false} LocalFromNext(c: Context, scope: PoolId, i: nat, size: nat, acc: seq<SubDomainId>)
    requires i < size
    ensures var r := Resolve(c, scope, DirectHash(CONTAINER_SET, i % U32), true);
            var all := Prepend(acc, LocalFrom(c, scope, i, size));
            if r.Err? then all == Err(r.error)
            else
              var one := if |r.value| == 1 && r.value[0].node == c.node
                         then [SubDomainId(CONTAINER_SET, r.value[0].dom.lo)] else [];
              all == Prepend(acc + one, LocalFrom(c, scope, i + 1, size))
  {
    hide Resolve;
    var r := Resolve(c, scope, DirectHash(CONTAINER_SET, i % U32), true);
    var rest := LocalFrom(c, scope, i + 1, size);
    if r.Ok? && rest.Ok? {
      var id := if |r.value| == 1 then SubDomainId(CONTAINER_SET, r.value[0].dom.lo) else SubDomainId(0, 0);
      assert acc + ([id] + rest.value) == (acc + [id]) + rest.value && acc + [] == acc;
    }
  }

  lemma {:induction false} LocalFromEnd(c: Context, scope: PoolId, size: nat, acc: seq<SubDomainId>)
    ensures Prepend(acc, LocalFrom(c, scope, size, size)) == Ok(acc)
  {
    assert acc + [] == acc;
  }

  lemma {:induction false} NextHash(x: nat)
    ensures (x % U32 + 1) % U32 == (x + 1) % U32
  {}
}
