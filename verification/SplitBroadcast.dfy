/** Large broadcasts are divided into range queries that other nodes resolve.
    The division loses nothing, repeats nothing and reorders nothing. */
module SplitBroadcast {
  import opened Domains
  import opened Resolution
  import opened Placement

  /** Every node resolves the queries it was sent. */
  function Forward(view: u32 -> Context, scope: PoolId, rs: seq<Resolved>): Result<seq<Resolved>> {
    if rs == [] then Ok([])
    else Then(Resolve(view(rs[0].node), scope, rs[0].dom, false), Forward(view, scope, rs[1..]))
  }

  /** The sub-domains in `s` are described alike by both maps ... */
  ghost predicate SameOn(m1: DomainMap, m2: DomainMap, scope: PoolId, s: set<SubDomainId>) {
    forall id :: id in s ==> Lookup(m1, DomainId(scope, id)) == Lookup(m2, DomainId(scope, id))
  }

  /** ... and lead only to one another. */
  ghost predicate Closed(m: DomainMap, scope: PoolId, s: set<SubDomainId>) {
    forall id, k :: id in s && 0 <= k < |Lookup(m, DomainId(scope, id)).ids| ==>
      Lookup(m, DomainId(scope, id)).ids[k] in s
  }

  // ------------------------------------------------- resolution is framed

  lemma {:induction false} FrameSub(m1: DomainMap, m2: DomainMap, scope: PoolId, s: set<SubDomainId>,
                                    sub: SubDomainId, a1: set<SubDomainId>, a2: set<SubDomainId>)
    requires SameOn(m1, m2, scope, s) && Closed(m1, scope, s)
    requires sub in s && a1 * s == a2 * s
    ensures ResolveSub(m1, scope, sub, a1) == ResolveSub(m2, scope, sub, a2)
    decreases a1, 0
  {
    var ids := Lookup(m1, DomainId(scope, sub)).ids;
    assert ids == Lookup(m2, DomainId(scope, sub)).ids;
    assert sub in a1 <==> sub in a1 * s;
    assert sub in a2 <==> sub in a2 * s;
    if ids != [] && sub in a1 {
      assert (a1 - {sub}) * s == a1 * s - {sub} == (a2 - {sub}) * s;
      FrameIds(m1, m2, scope, s, sub, ids, a1 - {sub}, a2 - {sub});
    }
  }

  lemma {:induction false} FrameIds(m1: DomainMap, m2: DomainMap, scope: PoolId, s: set<SubDomainId>,
                                    sub: SubDomainId, ids: seq<SubDomainId>, a1: set<SubDomainId>, a2: set<SubDomainId>)
    requires SameOn(m1, m2, scope, s) && Closed(m1, scope, s)
    requires (forall k :: 0 <= k < |ids| ==> ids[k] in s) && a1 * s == a2 * s
    ensures ResolveIds(m1, scope, sub, ids, a1) == ResolveIds(m2, scope, sub, ids, a2)
    decreases a1, 1 + |ids|
  {
    if ids == [] {
    } else {
      if !ids[0].IsPhysical() {
        FrameSub(m1, m2, scope, s, ids[0], a1, a2);
      }
      FrameIds(m1, m2, scope, s, sub, ids[1..], a1, a2);
    }
  }

  lemma {:induction false} FrameMinor(m1: DomainMap, m2: DomainMap, scope: PoolId, s: set<SubDomainId>, group: u32,
                                      hash: u32)
    requires SameOn(m1, m2, scope, s) && Closed(m1, scope, s)
    requires SubDomainId(group, 0) in s
    ensures ResolveMinor(m1, scope, DirectHash(group, hash)) == ResolveMinor(m2, scope, DirectHash(group, hash))
  {
    var q := DirectHash(group, hash);
    var d := DomainId(scope, SubDomainId(group, 0));
    assert Lookup(m1, d) == Lookup(m2, d);
    var sub := GetSubDomainId(m1, scope, q);
    if sub.Ok? {
      assert Lookup(m1, d).ids[hash % Lookup(m1, d).size] in s;
      forall id | id in s ensures id in Subs(m1, scope) <==> id in Subs(m2, scope) {
        assert id in Subs(m1, scope) <==> Lookup(m1, DomainId(scope, id)).ids != [];
        assert id in Subs(m2, scope) <==> Lookup(m2, DomainId(scope, id)).ids != [];
      }
      assert Subs(m1, scope) * s == Subs(m2, scope) * s;
      FrameSub(m1, m2, scope, s, sub.value, Subs(m1, scope), Subs(m2, scope));
    }
  }

  // ----------------------------------------------------- runs of members

  lemma {:induction false} SameNext(a: nat, b: nat)
    requires a % U32 == b % U32
    ensures (a + 1) % U32 == (b + 1) % U32
  {}

  /** The counter wraps at 32 bits, and the map may be another node's. */
  lemma {:induction false} RunFrame(m1: DomainMap, m2: DomainMap, scope: PoolId, s: set<SubDomainId>,
                                    group: u32, o1: nat, o2: nat, count: nat)
    requires SameOn(m1, m2, scope, s) && Closed(m1, scope, s)
    requires SubDomainId(group, 0) in s && o1 % U32 == o2 % U32
    ensures ResolveRun(m1, scope, group, o1, count) == ResolveRun(m2, scope, group, o2, count)
    decreases count
  {
    if count == 0 {
    } else {
      hide SameOn, Closed, ResolveMinor;
      FrameMinor(m1, m2, scope, s, group, o1 % U32);
      SameNext(o1, o2);
      RunFrame(m1, m2, scope, s, group, o1 + 1, o2 + 1, count - 1);
    }
  }

  lemma {:induction false} RunAppend(m: DomainMap, scope: PoolId, group: u32, off: nat, a: nat, b: nat)
    ensures ResolveRun(m, scope, group, off, a + b)
         == Then(ResolveRun(m, scope, group, off, a), ResolveRun(m, scope, group, off + a, b))
    decreases a
  {
    hide ResolveMinor;
    if a > 0 {
      RunAppend(m, scope, group, off + 1, a - 1, b);
      ThenAssociative(ResolveMinor(m, scope, DirectHash(group, off % U32)),
                      ResolveRun(m, scope, group, off + 1, a - 1), ResolveRun(m, scope, group, off + a, b));
    } else {
      var r := ResolveRun(m, scope, group, off, b);
      if r.Ok? { assert [] + r.value == r.value; }
    }
  }

  /** A range of at most a neighbourhood is resolved where it arrives. */
  lemma {:induction false} SmallRangeResolves(c: Context, scope: PoolId, group: u32, off: u32, n: u32, iter: set<Flag>)
    requires n <= NEIGHBORHOOD && iter <= {Broadcast, RepUntilSuccess, ChooseOne}
    ensures Resolve(c, scope, RangeQuery(group, off, n, iter), false) == ResolveRun(c.m, scope, group, off, n)
  {
    var q := RangeQuery(group, off, n, iter);
    assert Local !in q.flags && Direct !in q.flags && Hash !in q.flags && Id !in q.flags && Range in q.flags;
  }

  lemma {:induction false} SplitRunCovers(view: u32 -> Context, m: DomainMap, scope: PoolId, s: set<SubDomainId>,
                                          node: u32, group: u32, off: nat, count: nat, iter: set<Flag>)
    requires forall v: u32 :: SameOn(m, view(v).m, scope, s)
    requires Closed(m, scope, s) && SubDomainId(group, 0) in s
    requires iter <= {Broadcast, RepUntilSuccess, ChooseOne}
    ensures Forward(view, scope, SplitRun(node, group, off, count, iter)) == ResolveRun(m, scope, group, off, count)
    decreases count
  {
    hide Resolve, ResolveMinor, SameOn, Closed;
    if count == 0 {
    } else {
      var n := Min(NEIGHBORHOOD, count);
      var q := RangeQuery(group, off % U32, n, iter);
      var rest := SplitRun(node, group, off + n, count - n, iter);
      var rs := SplitRun(node, group, off, count, iter);
      assert rs[0] == Resolved(node, q) && rs[1..] == rest;
      RunFrame(m, view(node).m, scope, s, group, off, off % U32, n);
      SmallRangeResolves(view(node), scope, group, off % U32, n, iter);
      SplitRunCovers(view, m, scope, s, node, group, off + n, count - n, iter);
      RunAppend(m, scope, group, off, n, count - n);
    }
  }

  // -------------------------------------- resolved targets stay where they are

  predicate Target(r: Resolved) { r.dom == LocalId(CONTAINER_SET, r.dom.lo) }

  ghost predicate Targets(r: Result<seq<Resolved>>) {
    r.Ok? ==> forall k :: 0 <= k < |r.value| ==> Target(r.value[k])
  }

  lemma {:induction false} SubTargets(m: DomainMap, scope: PoolId, sub: SubDomainId, avail: set<SubDomainId>)
    ensures Targets(ResolveSub(m, scope, sub, avail))
    decreases avail, 0
  {
    var ids := Lookup(m, DomainId(scope, sub)).ids;
    if ids != [] && sub in avail { IdsTargets(m, scope, sub, ids, avail - {sub}); }
  }

  lemma {:induction false} IdsTargets(m: DomainMap, scope: PoolId, sub: SubDomainId, ids: seq<SubDomainId>,
                                      avail: set<SubDomainId>)
    ensures Targets(ResolveIds(m, scope, sub, ids, avail))
    decreases avail, 1 + |ids|
  {
    if ids == [] {
    } else {
      if !ids[0].IsPhysical() { SubTargets(m, scope, ids[0], avail); }
      IdsTargets(m, scope, sub, ids[1..], avail);
    }
  }

  lemma {:induction false} RunTargets(m: DomainMap, scope: PoolId, group: u32, off: nat, count: nat)
    ensures Targets(ResolveRun(m, scope, group, off, count))
    decreases count
  {
    if count == 0 {
    } else {
      var sub := GetSubDomainId(m, scope, DirectHash(group, off % U32));
      if sub.Ok? { SubTargets(m, scope, sub.value, Subs(m, scope)); }
      RunTargets(m, scope, group, off + 1, count - 1);
    }
  }

  lemma {:induction false} ForwardFixed(view: u32 -> Context, scope: PoolId, rs: seq<Resolved>)
    requires forall v: u32 :: view(v).node == v
    requires forall k :: 0 <= k < |rs| ==> {Local, Id} <= rs[k].dom.flags
    ensures Forward(view, scope, rs) == Ok(rs)
  {
    if rs == [] {
    } else {
      assert {Local, Id} <= rs[0].dom.flags;
      ForwardFixed(view, scope, rs[1..]);
      assert [rs[0]] + rs[1..] == rs;
    }
  }

  /** From any node `a`, for any range or whole group: the queries handed out by
      the dividing resolution, resolved once more where they were sent, give the
      same targets in the same order (or the same error) as resolving in full on
      `a`; and a third resolution changes nothing. `s` is the part of the domain
      map the group leads to, on which the nodes agree. */
  lemma {:induction false} SplitRefinesFull(view: u32 -> Context, a: u32, scope: PoolId, q: DomainQuery,
                                            s: set<SubDomainId>)
    requires forall v: u32 :: view(v).node == v && SameOn(view(a).m, view(v).m, scope, s)
    requires Closed(view(a).m, scope, s) && SubDomainId(q.group, 0) in s
    requires ForwardToLeader !in q.flags
    ensures var once := Resolve(view(a), scope, q, false);
            var full := Resolve(view(a), scope, q, true);
            && (once.Err? ==> full == once)
            && (once.Ok? ==> Forward(view, scope, once.value) == full)
            && (full.Ok? ==> Forward(view, scope, full.value) == full
                             && forall k :: 0 <= k < |full.value| ==> {Local, Id} <= full.value[k].dom.flags)
  {
    var c := view(a);
    var once := Resolve(c, scope, q, false);
    var full := Resolve(c, scope, q, true);
    if {Local, Id} <= q.flags {
      ForwardFixed(view, scope, [Resolved(a, q)]);
    } else if Direct in q.flags {
      var sub := GetSubDomainId(c.m, scope, q);
      if sub.Ok? { SubTargets(c.m, scope, sub.value, Subs(c.m, scope)); }
    } else if Global in q.flags {
      var sub := GetSubDomainId(c.m, scope, q);
      if sub.Ok? {
        var off := if Range in q.flags then q.lo else 0;
        var count := if Range in q.flags then q.hi else Lookup(c.m, DomainId(scope, sub.value)).size;
        RunTargets(c.m, scope, q.group, off, count);
        SplitRunCovers(view, c.m, scope, s, ForwardNode(c) % U32, q.group, off, count, q.IterFlags());
      }
    }
    if full.Ok? {
      forall k | 0 <= k < |full.value| ensures {Local, Id} <= full.value[k].dom.flags {
        assert Target(full.value[k]) || full.value == [Resolved(a, q)];
      }
      ForwardFixed(view, scope, full.value);
    }
  }

  lemma {:induction false} ForwardAppend(view: u32 -> Context, scope: PoolId, a: seq<Resolved>, b: seq<Resolved>)
    ensures Forward(view, scope, a + b) == Then(Forward(view, scope, a), Forward(view, scope, b))
  {
    hide Resolve;
    if a == [] {
      assert a + b == b;
      var r := Forward(view, scope, b);
      if r.Ok? { assert [] + r.value == r.value; }
    } else {
      assert (a + b)[0] == a[0] && (a + b)[1..] == a[1..] + b;
      ForwardAppend(view, scope, a[1..], b);
      ThenAssociative(Resolve(view(a[0].node), scope, a[0].dom, false), Forward(view, scope, a[1..]),
                      Forward(view, scope, b));
    }
  }

  lemma {:induction false} AgreeFrom(m1: DomainMap, m2: DomainMap, m3: DomainMap, scope: PoolId, s: set<SubDomainId>)
    requires SameOn(m1, m2, scope, s) && SameOn(m1, m3, scope, s) && Closed(m1, scope, s)
    ensures SameOn(m2, m3, scope, s) && Closed(m2, scope, s)
  {
    forall id, k | id in s && 0 <= k < |Lookup(m2, DomainId(scope, id)).ids|
      ensures Lookup(m2, DomainId(scope, id)).ids[k] in s
    {
      assert Lookup(m1, DomainId(scope, id)) == Lookup(m2, DomainId(scope, id));
    }
  }

  /** A query for the leader goes to the node of the member that hash 1 selects, without
      the leader flag; the other targets of that member are final. Resolved there,
      and where its parts are sent, it gives what a full resolution at the leader
      gives. */
  lemma {:induction false} LeaderRefinesFull(view: u32 -> Context, a: u32, scope: PoolId, q: DomainQuery,
                                             full: bool, s: set<SubDomainId>)
    requires forall v: u32 :: view(v).node == v && SameOn(view(a).m, view(v).m, scope, s)
    requires Closed(view(a).m, scope, s) && SubDomainId(q.group, 0) in s
    requires ForwardToLeader in q.flags && !({Local, Id} <= q.flags)
    ensures var once := Resolve(view(a), scope, q, full);
            once.Ok? ==>
              && once.value != []
              && var l := once.value[0].node; var rest := once.value[1..];
                 var q1 := q.(flags := q.flags - {ForwardToLeader});
                 var part := Resolve(view(l), scope, q1, false);
                 && once.value[0].dom == q1
                 && Forward(view, scope, once.value) == Then(part, Ok(rest))
                 && (part.Ok? ==> Forward(view, scope, part.value + rest)
                                  == Then(Resolve(view(l), scope, q1, true), Ok(rest)))
  {
    var once := Resolve(view(a), scope, q, full);
    if once.Ok? {
      var l, rest := once.value[0].node, once.value[1..];
      var q1 := q.(flags := q.flags - {ForwardToLeader});
      var q2 := DomainQuery({Direct, Hash} + q.flags, q.group, 1, 0);
      var sub := GetSubDomainId(view(a).m, scope, q2);
      SubTargets(view(a).m, scope, sub.value, Subs(view(a).m, scope));
      var r := ResolveMinor(view(a).m, scope, q2);
      assert forall k :: 0 <= k < |rest| ==> rest[k] == r.value[k + 1];
      assert once.value == [once.value[0]] + rest;
      hide Resolve, ResolveMinor, ResolveSub, GetSubDomainId;
      ForwardFixed(view, scope, rest);
      forall v: u32 ensures SameOn(view(l).m, view(v).m, scope, s) && Closed(view(l).m, scope, s) {
        AgreeFrom(view(a).m, view(l).m, view(v).m, scope, s);
      }
      SplitRefinesFull(view, l, scope, q1, s);
      var part := Resolve(view(l), scope, q1, false);
      if part.Ok? { ForwardAppend(view, scope, part.value, rest); }
    }
  }

  /** The leader of a group is the first target of the member that hash 1 selects, or of
      sub-domain 1 when the query asks for an id. */
  lemma {:induction false} LeaderIs(c: Context, scope: PoolId, q: DomainQuery, full: bool)
    requires ForwardToLeader in q.flags && !({Local, Id} <= q.flags)
    ensures var e := Lookup(c.m, DomainId(scope, SubDomainId(q.group, 0)));
            var once := Resolve(c, scope, q, full);
            && (Id !in q.flags && e.size == 0 ==> once == Err(NoMember))
            && (Id in q.flags || (e.size > 0 && 1 % e.size < |e.ids|) ==>
                  var sub := if Id in q.flags then SubDomainId(q.group, 1) else e.ids[1 % e.size];
                  var r := ResolveSub(c.m, scope, sub, Subs(c.m, scope));
                  once == if r.Err? then r else if r.value == [] then Err(NoLeader)
                          else Ok([Resolved(r.value[0].node, q.(flags := q.flags - {ForwardToLeader}))] + r.value[1..]))
  {}

  lemma {:induction false} SplitRunParts(node: u32, group: u32, off: nat, count: nat, iter: set<Flag>, k: nat)
    requires k < |SplitRun(node, group, off, count, iter)|
    ensures var r := SplitRun(node, group, off, count, iter)[k];
            && r.node == node && 1 <= r.dom.hi <= NEIGHBORHOOD && r.dom.group == group
            && r.dom.lo == (off + k * NEIGHBORHOOD) % U32 && r.dom.flags == {Global, Range} + iter
    decreases count
  {
    var n := Min(NEIGHBORHOOD, count);
    if k == 0 {
    } else {
      SplitRunParts(node, group, off + n, count - n, iter, k - 1);
      assert count > n;
      assert off + n + (k - 1) * NEIGHBORHOOD == off + k * NEIGHBORHOOD;
    }
  }

  lemma {:induction false} SplitRunCount(node: u32, group: u32, off: nat, count: nat, iter: set<Flag>)
    ensures |SplitRun(node, group, off, count, iter)| == (count + NEIGHBORHOOD - 1) / NEIGHBORHOOD
    decreases count
  {
    if count == 0 {
    } else {
      SplitRunCount(node, group, off + Min(NEIGHBORHOOD, count), count - Min(NEIGHBORHOOD, count), iter);
    }
  }

  /** Where a query over a group begins and how many members it has. */
  function Begins(q: DomainQuery): nat { if Range in q.flags then q.lo else 0 }
  function MemberCount(c: Context, scope: PoolId, q: DomainQuery): nat {
    if Range in q.flags then q.hi else Lookup(c.m, DomainId(scope, SubDomainId(q.group, 0))).size
  }

  /** A range or group larger than a neighbourhood is divided: every part is a range
      query of the same group with the query's own iteration flags, begins where the
      last one ended, has at most a neighbourhood of members, and goes to a host: this
      node, or with two neighbourhoods of hosts the last full one's last. */
  lemma {:induction false} DividedQueriesGoToAHost(c: Context, scope: PoolId, q: DomainQuery, k: nat)
    requires 1 <= c.node <= c.hosts < U32
    requires Global in q.flags && q.flags !! {Direct, Hash, Id, ForwardToLeader}
    requires MemberCount(c, scope, q) > NEIGHBORHOOD && k < (MemberCount(c, scope, q) + NEIGHBORHOOD - 1) / NEIGHBORHOOD
    ensures var once := Resolve(c, scope, q, false);
            && once.Ok? && |once.value| == (MemberCount(c, scope, q) + NEIGHBORHOOD - 1) / NEIGHBORHOOD
            && var r := once.value[k];
               && 1 <= r.node <= c.hosts
               && r.node == (if c.hosts >= 2 * NEIGHBORHOOD then c.hosts - c.hosts % NEIGHBORHOOD else c.node)
               && r.dom.group == q.group && 1 <= r.dom.hi <= NEIGHBORHOOD
               && r.dom.lo == (Begins(q) + k * NEIGHBORHOOD) % U32
               && r.dom.flags == {Global, Range} + q.IterFlags()
  {
    assert Direct !in q.flags && Hash !in q.flags && Id !in q.flags && ForwardToLeader !in q.flags;
    ForwardNodeIsHost(c);
    ModSmall(ForwardNode(c), U32);
    SplitRunCount(ForwardNode(c) % U32, q.group, Begins(q), MemberCount(c, scope, q), q.IterFlags());
    SplitRunParts(ForwardNode(c) % U32, q.group, Begins(q), MemberCount(c, scope, q), q.IterFlags(), k);
  }

  /** The node a sub-query is sent to is a host. */
  lemma {:induction false} ForwardNodeIsHost(c: Context)
    requires 1 <= c.node <= c.hosts
    ensures 1 <= ForwardNode(c) <= c.hosts
    ensures c.hosts >= 2 * NEIGHBORHOOD <==> ForwardNode(c) % NEIGHBORHOOD == 0 && ForwardNode(c) >= 2 * NEIGHBORHOOD
  {
    if c.hosts / NEIGHBORHOOD >= 2 {
      assert c.hosts == c.hosts / NEIGHBORHOOD * NEIGHBORHOOD + c.hosts % NEIGHBORHOOD;
    }
  }

  // ------------------------------------------------ each member exactly once

  function ResolveEach(m: DomainMap, scope: PoolId, ids: seq<SubDomainId>): Result<seq<Resolved>> {
    if ids == [] then Ok([])
    else Then(ResolveSub(m, scope, ids[0], Subs(m, scope)), ResolveEach(m, scope, ids[1..]))
  }

  lemma {:induction false} RunIsEach(m: DomainMap, scope: PoolId, group: u32, off: nat)
    requires var e := Lookup(m, DomainId(scope, SubDomainId(group, 0))); EntryOk(e) && off <= |e.ids| <= U32
    ensures var ids := Lookup(m, DomainId(scope, SubDomainId(group, 0))).ids;
            ResolveRun(m, scope, group, off, |ids| - off) == ResolveEach(m, scope, ids[off..])
    decreases |Lookup(m, DomainId(scope, SubDomainId(group, 0))).ids| - off
  {
    hide ResolveSub;
    var e := Lookup(m, DomainId(scope, SubDomainId(group, 0)));
    if off >= |e.ids| {
    } else {
      ModSmall(off, U32);
      ModSmall(off, e.size);
      assert GetSubDomainId(m, scope, DirectHash(group, off % U32)) == Ok(e.ids[off]);
      RunIsEach(m, scope, group, off + 1);
      assert e.ids[off..][1..] == e.ids[off + 1..];
    }
  }

  /** A broadcast to a group visits the members of the group's id list, each of
      them once (the list has no duplicates) and in list order. */
  lemma {:induction false} BroadcastVisitsEachOnce(c: Context, scope: PoolId, group: u32, iter: set<Flag>)
    requires var e := Lookup(c.m, DomainId(scope, SubDomainId(group, 0))); EntryOk(e) && |e.ids| <= U32
    requires iter <= {Broadcast, RepUntilSuccess, ChooseOne}
    ensures Resolve(c, scope, GlobalQuery(group, iter), true)
         == ResolveEach(c.m, scope, Lookup(c.m, DomainId(scope, SubDomainId(group, 0))).ids)
  {
    var ids := Lookup(c.m, DomainId(scope, SubDomainId(group, 0))).ids;
    RunIsEach(c.m, scope, group, 0);
    assert ids[0..] == ids;
    var q := GlobalQuery(group, iter);
    assert Local !in q.flags && Direct !in q.flags && Hash !in q.flags && Id !in q.flags && Range !in q.flags;
  }

  // ------------------------------------------------------- default pools

  /** What the container group of a default pool leads to. */
  function PoolSubs(nodes: seq<u32>, g: u32): set<SubDomainId> {
    (set i: nat | i <= |nodes| + g && i < U32 :: SubDomainId(CONTAINER_SET, i))
    + (set v | v in nodes :: SubDomainId(PHYSICAL_NODE, v))
  }

  lemma {:induction false} PoolLookup(m: DomainMap, pool: PoolId, nodes: seq<u32>, g: u32, me: u32, id: SubDomainId)
    requires nodes != [] && PoolBuilt(m, pool, nodes, g, me)
    requires id in PoolSubs(nodes, g)
    ensures var e := Lookup(m, DomainId(pool, id));
            && EntryOk(e)
            && e.ids == if id.major != CONTAINER_SET || id.minor > g then []
                        else if id.minor == 0 then Members(CONTAINER_SET, |nodes|)
                        else [SubDomainId(PHYSICAL_NODE, Owner(nodes, id.minor))]
  {
    if id.major == CONTAINER_SET && id.minor > 0 {
      assert DomainId(pool, id) == Minor(pool, CONTAINER_SET, id.minor);
    }
  }

  lemma {:induction false} PoolSubsClosed(m: DomainMap, pool: PoolId, nodes: seq<u32>, g: u32, me: u32)
    requires nodes != [] && PoolBuilt(m, pool, nodes, g, me)
    ensures Closed(m, pool, PoolSubs(nodes, g))
  {
    var s := PoolSubs(nodes, g);
    forall id, k | id in s && 0 <= k < |Lookup(m, DomainId(pool, id)).ids|
      ensures Lookup(m, DomainId(pool, id)).ids[k] in s
    {
      PoolLookup(m, pool, nodes, g, me, id);
      MembersFacts(CONTAINER_SET, |nodes|);
      if 0 < id.minor <= g { assert Owner(nodes, id.minor) in nodes; }
    }
  }

  lemma {:induction false} PoolSubsSame(m1: DomainMap, m2: DomainMap, pool: PoolId, nodes: seq<u32>, g: u32,
                                        v1: u32, v2: u32)
    requires nodes != [] && PoolBuilt(m1, pool, nodes, g, v1) && PoolBuilt(m2, pool, nodes, g, v2)
    ensures SameOn(m1, m2, pool, PoolSubs(nodes, g))
  {
    forall id | id in PoolSubs(nodes, g)
      ensures Lookup(m1, DomainId(pool, id)) == Lookup(m2, DomainId(pool, id))
    {
      PoolLookup(m1, pool, nodes, g, v1, id);
      PoolLookup(m2, pool, nodes, g, v2, id);
      assert Lookup(m1, DomainId(pool, id)).idSet == Lookup(m2, DomainId(pool, id)).idSet;
    }
  }

  /** The targets of members off+1, off+2, ... of the affinity list. */
  function RunOfTargets(nodes: seq<u32>, g: u32, off: nat, count: nat): seq<Resolved>
    requires nodes != [] && |nodes| < U32
    decreases count
  {
    if count == 0 then []
    else
      var c := HashContainer(nodes, off % U32);
      (if c <= g then [ContainerTarget(nodes, c)] else []) + RunOfTargets(nodes, g, off + 1, count - 1)
  }

  lemma {:induction false} PoolRun(c: Context, pool: PoolId, nodes: seq<u32>, g: u32, off: nat, count: nat)
    requires nodes != [] && PoolBuilt(c.m, pool, nodes, g, c.node)
    ensures ResolveRun(c.m, pool, CONTAINER_SET, off, count) == Ok(RunOfTargets(nodes, g, off, count))
    decreases count
  {
    hide PoolBuilt, Owner;
    if count == 0 {
    } else {
      HashResolves(c, pool, nodes, g, off % U32, true);
      assert Resolve(c, pool, DirectHash(CONTAINER_SET, off % U32), true)
          == ResolveMinor(c.m, pool, DirectHash(CONTAINER_SET, off % U32));
      PoolRun(c, pool, nodes, g, off + 1, count - 1);
    }
  }

  /** A range or broadcast over the containers of a default pool, begun on any
      node and divided or not, ends in exactly the containers its members hash
      to, in order, each on its owner. */
  lemma {:induction false} PoolBroadcast(view: u32 -> Context, a: u32, pool: PoolId, nodes: seq<u32>, g: u32,
                                         q: DomainQuery)
    requires nodes != []
    requires forall v: u32 :: view(v).node == v && PoolBuilt(view(v).m, pool, nodes, g, v)
    requires Global in q.flags && q.flags !! {Direct, Hash, Id, ForwardToLeader} && q.group == CONTAINER_SET
    ensures Resolve(view(a), pool, q, false).Ok?
    ensures Forward(view, pool, Resolve(view(a), pool, q, false).value)
         == Ok(if Range in q.flags then RunOfTargets(nodes, g, q.lo, q.hi) else RunOfTargets(nodes, g, 0, |nodes|))
  {
    PoolFull(view(a), pool, nodes, g, q);
    hide Resolve, Forward, PoolBuilt, RunOfTargets;
    var s := PoolSubs(nodes, g);
    assert SubDomainId(CONTAINER_SET, 0) in s;
    PoolSubsClosed(view(a).m, pool, nodes, g, a);
    forall v: u32 ensures SameOn(view(a).m, view(v).m, pool, s) {
      PoolSubsSame(view(a).m, view(v).m, pool, nodes, g, a, v);
    }
    hide SameOn, Closed, PoolSubs;
    SplitRefinesFull(view, a, pool, q, s);
  }

  lemma {:induction false} PoolFull(c: Context, pool: PoolId, nodes: seq<u32>, g: u32, q: DomainQuery)
    requires nodes != [] && PoolBuilt(c.m, pool, nodes, g, c.node)
    requires Global in q.flags && q.flags !! {Direct, Hash, Id, ForwardToLeader} && q.group == CONTAINER_SET
    ensures Resolve(c, pool, q, true)
         == Ok(if Range in q.flags then RunOfTargets(nodes, g, q.lo, q.hi) else RunOfTargets(nodes, g, 0, |nodes|))
  {
    assert Direct !in q.flags && Hash !in q.flags && Id !in q.flags && ForwardToLeader !in q.flags;
    MembersFacts(CONTAINER_SET, |nodes|);
    assert Lookup(c.m, Major(pool, CONTAINER_SET)).size == |nodes|;
    hide RunOfTargets, ResolveRun;
    if Range in q.flags {
      PoolRun(c, pool, nodes, g, q.lo, q.hi);
    } else {
      PoolRun(c, pool, nodes, g, 0, |nodes|);
    }
  }

  lemma {:induction false} RunFromZero(nodes: seq<u32>, g: u32, off: nat)
    requires nodes != [] && |nodes| < U32 && off <= |nodes|
    ensures var run := RunOfTargets(nodes, g, off, |nodes| - off);
            && |run| == Min(|nodes|, g) - Min(off, g)
            && forall k :: 0 <= k < |run| ==> run[k] == ContainerTarget(nodes, off + k + 1)
    decreases |nodes| - off
  {
    hide Owner;
    if off >= |nodes| {
    } else {
      ModSmall(off, |nodes|);
      ModSmall(off, U32);
      RunFromZero(nodes, g, off + 1);
    }
  }

  /** The k-th target is container k+1 on its owner, up to container g. */
  ghost predicate EachContainerOnce(r: Result<seq<Resolved>>, nodes: seq<u32>, g: u32)
    requires nodes != []
  {
    && r.Ok? && |r.value| == g
    && forall k :: 0 <= k < g ==> r.value[k] == ContainerTarget(nodes, k + 1)
  }

  ghost predicate Reaches(r: Result<seq<Resolved>>, container: u32) {
    r.Ok? && exists k :: 0 <= k < |r.value| && r.value[k].dom == LocalId(CONTAINER_SET, container)
  }

  lemma {:induction false} RunEachOnceIff(nodes: seq<u32>, g: u32)
    requires 1 <= |nodes| < U32
    ensures var r := Ok(RunOfTargets(nodes, g, 0, |nodes|));
            && (EachContainerOnce(r, nodes, g) <==> g <= |nodes|)
            && forall c: u32 :: 1 <= c <= g ==> (Reaches(r, c) <==> c <= |nodes|)
  {
    hide Owner, RunOfTargets;
    RunFromZero(nodes, g, 0);
    var run := RunOfTargets(nodes, g, 0, |nodes|);
    forall c: u32 | 1 <= c <= g && c <= |nodes| ensures Reaches(Ok(run), c) {
      assert run[c - 1].dom == LocalId(CONTAINER_SET, c);
    }
  }

  /** A broadcast to a default pool reaches each of its containers once, in order,
      exactly when it has no more containers than affinity nodes. Containers beyond
      the length of the list are never reached. */
  lemma {:induction false} PoolBroadcastReachesEachContainerOnceIff(view: u32 -> Context, a: u32, pool: PoolId,
          nodes: seq<u32>, g: u32)
    requires nodes != []
    requires forall v: u32 :: view(v).node == v && PoolBuilt(view(v).m, pool, nodes, g, v)
    ensures var once := Resolve(view(a), pool, GlobalQuery(CONTAINER_SET, {Broadcast}), false);
            && once.Ok?
            && (EachContainerOnce(Forward(view, pool, once.value), nodes, g) <==> g <= |nodes|)
            && (forall c: u32 :: 1 <= c <= g ==> (Reaches(Forward(view, pool, once.value), c) <==> c <= |nodes|))
  {
    var q := GlobalQuery(CONTAINER_SET, {Broadcast});
    assert PoolBuilt(view(a).m, pool, nodes, g, a);
    assert Range !in q.flags && |nodes| < U32;
    hide Resolve, Forward, PoolBuilt, RunOfTargets, EachContainerOnce, Reaches;
    PoolBroadcast(view, a, pool, nodes, g, q);
    RunEachOnceIff(nodes, g);
  }

  /** Two containers on one node: the broadcast misses the second. */
  lemma {:induction false} ShortListBroadcastMisses(view: u32 -> Context, pool: PoolId)
    requires forall v: u32 :: view(v).node == v && PoolBuilt(view(v).m, pool, [1], 2, v)
    ensures var once := Resolve(view(1), pool, GlobalQuery(CONTAINER_SET, {Broadcast}), false);
            once.Ok? && Forward(view, pool, once.value) == Ok([Resolved(1, LocalId(CONTAINER_SET, 1))])
  {
    var q := GlobalQuery(CONTAINER_SET, {Broadcast});
    assert Range !in q.flags;
    hide Resolve, Forward, PoolBuilt, RunOfTargets;
    PoolBroadcast(view, 1, pool, [1], 2, q);
    RunFromZero([1], 2, 0);
    assert ContainerTarget([1], 1) == Resolved(1, LocalId(CONTAINER_SET, 1));
    assert RunOfTargets([1], 2, 0, 1) == [ContainerTarget([1], 1)];
  }
}
